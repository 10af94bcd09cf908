/**
 * The JSON documents the appliance serves, as typed records, the HTTP
 * responses that carry them, and the errors the reader raises.
 * Every JSON number is an integer here.
 */
module Documents {
  import opened Wrappers

  /** Why a request raised `EnvoyReaderError`. */
  datatype HttpFailure =
    | BadStatus(code: int)   // a status other than 200, carrying that status
    | CannotConnect          // an `httpx.HTTPError` while sending or receiving

  /** The exceptions that end a resolution or a poll. */
  datatype Error =
    | EnvoyReaderError(cause: HttpFailure)
    | IndexError           // `[0]` of an empty filter result, `v[0]` of "", `_v[1]` of a 1-tuple
    | UnboundLocalError    // `resp_extra_prod` read before assignment
    | TypeError            // item assignment into the `None` a legacy `update` returns

  /** What the appliance answers to one GET: a status and a decoded body, or a transport failure. */
  datatype Response<+T> = Response(status: int, body: T) | TransportFailure

  /** The HTTP success status, the only one the reader accepts. */
  const OK_STATUS := 200

  /** `info.xml`; `None` stands for an element whose text is empty. */
  datatype InfoDoc = InfoDoc(sn: Option<string>, software: Option<string>)

  /** One entry of the `production` list of `production.json`. */
  datatype ProductionEntry = ProductionEntry(
    kind: string,          // the `type` tag: "inverters", "eim", ...
    activeCount: int,
    wNow: int,
    whToday: int,
    whLastSevenDays: int,
    whLifetime: int)

  /** `production.json`: its `production` list. */
  datatype ProductionDoc = ProductionDoc(production: seq<ProductionEntry>)

  /** `api/v1/production`. */
  datatype ApiProduction = ApiProduction(
    wattHoursToday: int,
    wattHoursSevenDays: int,
    wattHoursLifetime: int)

  /** One element of `api/v1/production/inverters`. */
  datatype InverterDetail = InverterDetail(
    serialNumber: string,
    lastReportDate: int,
    devType: int,
    lastReportWatts: int,
    maxReportWatts: int)

  /** One device of an inventory group. */
  datatype InventoryDevice = InventoryDevice(
    serialNum: string,
    producing: bool,
    communicating: bool,
    deviceStatus: seq<string>)

  /** One group of `inventory.json`, tagged by `type` ("PCU", "ACB", ...). */
  datatype InventoryGroup = InventoryGroup(kind: string, devices: seq<InventoryDevice>)

  /** What the appliance would answer on each of the four JSON endpoints during one poll. */
  datatype Endpoints = Endpoints(
    productionJson: Response<ProductionDoc>,
    apiProduction: Response<ApiProduction>,
    inverters: Response<seq<InverterDetail>>,
    inventory: Response<seq<InventoryGroup>>)

  /**
   * The status gate of `call_http_api` (and of the identity fetch): the body
   * only for status 200, any other status an error that carries it, and a
   * transport failure an error of its own.
   */
  function Gate<T>(resp: Response<T>): (r: Result<T, Error>)
    ensures r.Success? <==> resp.Response? && resp.status == OK_STATUS
    ensures r.Success? ==> r.value == resp.body
    ensures resp.Response? && resp.status != OK_STATUS ==> r == Failure(EnvoyReaderError(BadStatus(resp.status)))
    ensures resp.TransportFailure? ==> r == Failure(EnvoyReaderError(CannotConnect))
  {
    match resp
    case TransportFailure => Failure(EnvoyReaderError(CannotConnect))
    case Response(status, body) =>
      if status == OK_STATUS then Success(body) else Failure(EnvoyReaderError(BadStatus(status)))
  }

  /** Index of the first element satisfying `p`, if any. */
  function FindFirst<T>(s: seq<T>, p: T -> bool): (r: Option<nat>)
    ensures r.Some? ==> r.value < |s| && p(s[r.value]) && forall j :: 0 <= j < r.value ==> !p(s[j])
    ensures r.None? ==> forall j :: 0 <= j < |s| ==> !p(s[j])
  {
    if |s| == 0 then None
    else if p(s[0]) then Some(0)
    else match FindFirst(s[1..], p)
      case None => None
      case Some(i) => Some(i + 1)
  }

  /** `i` is the position of the first element of `s` satisfying `p`. */
  predicate IsFirst<T>(s: seq<T>, p: T -> bool, i: int) {
    0 <= i < |s| && p(s[i]) && forall j :: 0 <= j < i ==> !p(s[j])
  }

  /**
   * `list(filter(p, s))[0]`: the first element satisfying `p`, or `IndexError`
   * when there is none (never a default).
   */
  function FirstMatch<T>(s: seq<T>, p: T -> bool): (r: Result<T, Error>)
    ensures r.Failure? <==> forall j :: 0 <= j < |s| ==> !p(s[j])
    ensures r.Failure? ==> r.error == IndexError
    ensures r.Success? ==> exists i :: IsFirst(s, p, i) && s[i] == r.value
  {
    match FindFirst(s, p)
    case None => Failure(IndexError)
    case Some(i) => Success(s[i])
  }

  /** The first match is determined by where it stands: any element that satisfies `p` with none before it is the one taken. */
  lemma FirstMatchAt<T>(s: seq<T>, p: T -> bool, i: nat)
    requires IsFirst(s, p, i)
    ensures FirstMatch(s, p) == Success(s[i])
  {
  }
}
