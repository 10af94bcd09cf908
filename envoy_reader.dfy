/**
 * The reader: its configuration, the status gate around every request, the
 * endpoint sequence of a model-S poll and the serial stamp of `get_data`.
 * The legacy reader and the model-S reader are the two variants of one class,
 * told apart by `kind`.
 */
module Reader {
  import opened Wrappers
  import opened Text
  import opened Documents
  import opened Normalization

  const INFO_URL := "info.xml"
  const PRODUCTION_JSON_URL := "production.json"
  /** Declared by the source and used by none of its readers. */
  const PRODUCTION_URL := "production"
  const PRODUCTION_API_URL := "api/v1/production"
  const INVERTERS_API_URL := "api/v1/production/inverters"
  const INVENTORY_JSON_URL := "inventory.json"

  /** Keys of the record. */
  const PRODUCTION := "production"
  const INVERTERS := "inverters"
  const SERIAL_NUMBER := "serial_number"

  /** The legacy reader, or the model-S reader with its endpoint mode. */
  datatype ReaderKind = OldC | ModelS(useProductionJson: bool)

  datatype ReaderConfig = ReaderConfig(
    host: string,
    port: nat,
    username: string,
    password: string,
    serialNumber: Option<string>,
    kind: ReaderKind)

  /** A value of the record a poll returns. */
  datatype Field =
    | ProductionField(production: Production)
    | InvertersField(inverters: seq<Inverter>)
    | SerialField(serial: Option<string>)

  /** The record: a dictionary from key to value. */
  type Record = map<string, Field>

  /** The paths a poll requested, in order, and what it returned. */
  datatype Poll<T> = Poll(requested: seq<string>, result: Result<T, Error>)

  /** The request URL `http://<host>:<port>/<path>`. */
  function Url(host: string, port: nat, path: string): (r: string)
    ensures |r| >= 7 + |host| + |path|
    ensures r[..7] == "http://" && r[7..7 + |host|] == host
    ensures r[|r| - |path|..] == path
  {
    "http://" + host + ":" + Decimal(port) + "/" + path
  }

  /** Different paths on one host and port give different URLs. */
  lemma UrlDeterminesPath(host: string, port: nat, a: string, b: string)
    requires Url(host, port, a) == Url(host, port, b)
    ensures a == b
  {
    var prefix := "http://" + host + ":" + Decimal(port) + "/";
    assert Url(host, port, a) == prefix + a && Url(host, port, b) == prefix + b;
    assert a == (prefix + a)[|prefix|..];
    assert b == (prefix + b)[|prefix|..];
  }

  /** The endpoints a model-S poll requests when every request is answered. */
  function ExpectedPaths(useProductionJson: bool): seq<string> {
    [PRODUCTION_JSON_URL] + (if useProductionJson then [] else [PRODUCTION_API_URL]) + [INVERTERS_API_URL, INVENTORY_JSON_URL]
  }

  predicate StatusOk<T>(resp: Response<T>) {
    resp.Response? && resp.status == OK_STATUS
  }

  /** Whether the endpoint at `path` answers with status 200. */
  predicate Answered(e: Endpoints, path: string) {
    if path == PRODUCTION_JSON_URL then StatusOk(e.productionJson)
    else if path == PRODUCTION_API_URL then StatusOk(e.apiProduction)
    else if path == INVERTERS_API_URL then StatusOk(e.inverters)
    else if path == INVENTORY_JSON_URL then StatusOk(e.inventory)
    else false
  }

  /**
   * `EnvoyReaderS.update`, as written: production.json, then api/v1/production
   * only in separate mode, then the inverter list, then the inventory; the
   * first failing request ends the poll; in combined mode `resp_extra_prod`
   * is never bound and reading it fails.
   */
  function UpdateS(useProductionJson: bool, e: Endpoints): (r: Poll<Record>)
    ensures |r.requested| >= 1 && r.requested[0] == PRODUCTION_JSON_URL
    ensures r.result.Success? ==>
      && !useProductionJson
      && r.requested == ExpectedPaths(false)
      && r.result.value.Keys == {PRODUCTION, INVERTERS}
  {
    var prodJson := Gate(e.productionJson);
    if prodJson.Failure? then Poll([PRODUCTION_JSON_URL], Failure(prodJson.error))
    else
      var extraProd: Option<Result<ApiProduction, Error>> :=
        if useProductionJson then None else Some(Gate(e.apiProduction));
      var sent := [PRODUCTION_JSON_URL] + (if useProductionJson then [] else [PRODUCTION_API_URL]);
      if extraProd.Some? && extraProd.value.Failure? then Poll(sent, Failure(extraProd.value.error))
      else
        var inverters := Gate(e.inverters);
        if inverters.Failure? then Poll(sent + [INVERTERS_API_URL], Failure(inverters.error))
        else
          var inventory := Gate(e.inventory);
          var all := sent + [INVERTERS_API_URL, INVENTORY_JSON_URL];
          if inventory.Failure? then Poll(all, Failure(inventory.error))
          else if extraProd.None? then Poll(all, Failure(UnboundLocalError))
          else
            var production := ProcessProduction(useProductionJson, prodJson.value, extraProd.value.value);
            if production.Failure? then Poll(all, Failure(production.error))
            else
              var list := InverterList(inverters.value, inventory.value);
              if list.Failure? then Poll(all, Failure(list.error))
              else Poll(all, Success(map[PRODUCTION := ProductionField(production.value), INVERTERS := InvertersField(list.value)]))
  }

  /** `update` of either variant: the legacy reader requests nothing and returns `None`. */
  function UpdateSpec(kind: ReaderKind, e: Endpoints): (r: Poll<Option<Record>>)
    ensures r.requested == [] <==> kind == OldC
    ensures r.result == Success(None) <==> kind == OldC
    ensures r.result.Success? && r.result.value.Some? ==> r.result.value.value.Keys == {PRODUCTION, INVERTERS}
  {
    match kind
    case OldC => Poll([], Success(None))
    case ModelS(useProductionJson) =>
      var p := UpdateS(useProductionJson, e);
      Poll(p.requested, if p.result.Success? then Success(Some(p.result.value)) else Failure(p.result.error))
  }

  /** `get_data`: the result of `update` with `serial_number` set, or `TypeError` when `update` returned `None`. */
  function GetDataSpec(config: ReaderConfig, e: Endpoints): (r: Poll<Record>)
    ensures config.kind == OldC ==> r.result == Failure(TypeError)
    ensures r.result.Success? ==>
      && r.result.value.Keys == {PRODUCTION, INVERTERS, SERIAL_NUMBER}
      && r.result.value[SERIAL_NUMBER] == SerialField(config.serialNumber)
  {
    var u := UpdateSpec(config.kind, e);
    if u.result.Failure? then Poll(u.requested, Failure(u.result.error))
    else if u.result.value.None? then Poll(u.requested, Failure(TypeError))
    else Poll(u.requested, Success(u.result.value.value[SERIAL_NUMBER := SerialField(config.serialNumber)]))
  }

  /**
   * The requests of a model-S poll follow the fixed endpoint order and stop at
   * the first one not answered with 200, whose error ends the poll; a
   * successful poll made every request.
   */
  lemma UpdateRequestOrder(useProductionJson: bool, e: Endpoints)
    ensures var p := UpdateS(useProductionJson, e);
      var full := ExpectedPaths(useProductionJson);
      && 1 <= |p.requested| <= |full|
      && p.requested == full[..|p.requested|]
      && (forall i :: 0 <= i < |p.requested| - 1 ==> Answered(e, p.requested[i]))
      && (|p.requested| < |full| ==> !Answered(e, p.requested[|p.requested| - 1]))
      && (!Answered(e, p.requested[|p.requested| - 1]) ==> p.result.Failure? && p.result.error.EnvoyReaderError?)
      && (p.result.Success? ==> p.requested == full)
  {
  }

  /** The error that ends a model-S poll at a refused request is that response's own gate error. */
  lemma UpdateRefusedError(useProductionJson: bool, e: Endpoints)
    ensures var p := UpdateS(useProductionJson, e);
      var extraOk := useProductionJson || StatusOk(e.apiProduction);
      && (!StatusOk(e.productionJson) ==>
            p == Poll([PRODUCTION_JSON_URL], Failure(Gate(e.productionJson).error)))
      && (StatusOk(e.productionJson) && !useProductionJson && !StatusOk(e.apiProduction) ==>
            p == Poll([PRODUCTION_JSON_URL, PRODUCTION_API_URL], Failure(Gate(e.apiProduction).error)))
      && (StatusOk(e.productionJson) && extraOk && !StatusOk(e.inverters) ==>
            p == Poll(ExpectedPaths(useProductionJson)[..|ExpectedPaths(useProductionJson)| - 1], Failure(Gate(e.inverters).error)))
      && (StatusOk(e.productionJson) && extraOk && StatusOk(e.inverters) && !StatusOk(e.inventory) ==>
            p == Poll(ExpectedPaths(useProductionJson), Failure(Gate(e.inventory).error)))
  {
  }

  /** A successful model-S poll returns exactly the keys `production` and `inverters`. */
  lemma UpdateKeys(useProductionJson: bool, e: Endpoints)
    ensures UpdateS(useProductionJson, e).result.Success? ==>
      UpdateS(useProductionJson, e).result.value.Keys == {PRODUCTION, INVERTERS}
  {
  }

  /** In combined mode a model-S poll never succeeds; once every request is answered it fails on the unbound `resp_extra_prod`. */
  lemma CombinedModeFails(e: Endpoints)
    ensures UpdateS(true, e).result.Failure?
    ensures (forall i :: 0 <= i < |ExpectedPaths(true)| ==> Answered(e, ExpectedPaths(true)[i])) ==>
      UpdateS(true, e) == Poll(ExpectedPaths(true), Failure(UnboundLocalError))
  {
    if forall i :: 0 <= i < |ExpectedPaths(true)| ==> Answered(e, ExpectedPaths(true)[i]) {
      assert Answered(e, ExpectedPaths(true)[0]);
      assert Answered(e, ExpectedPaths(true)[1]);
      assert Answered(e, ExpectedPaths(true)[2]);
    }
  }

  /**
   * In separate mode a poll succeeds exactly when all four requests are
   * answered and both normalisations succeed, and then its record holds
   * their results.
   */
  lemma SeparateModeRecord(e: Endpoints)
    ensures UpdateS(false, e).result.Success? <==>
      && StatusOk(e.productionJson) && StatusOk(e.apiProduction) && StatusOk(e.inverters) && StatusOk(e.inventory)
      && ProcessProduction(false, e.productionJson.body, e.apiProduction.body).Success?
      && InverterList(e.inverters.body, e.inventory.body).Success?
    ensures UpdateS(false, e).result.Success? ==>
      var rec := UpdateS(false, e).result.value;
      && rec[PRODUCTION] == ProductionField(ProcessProduction(false, e.productionJson.body, e.apiProduction.body).value)
      && rec[INVERTERS] == InvertersField(InverterList(e.inverters.body, e.inventory.body).value)
  {
  }

  /**
   * `get_data` makes the same requests as `update`; on success it adds
   * `serial_number`, set to the reader's serial, and leaves the other keys
   * and their values as `update` returned them.
   */
  lemma GetDataStampsSerial(config: ReaderConfig, e: Endpoints)
    ensures GetDataSpec(config, e).requested == UpdateSpec(config.kind, e).requested
    ensures GetDataSpec(config, e).result.Success? ==>
      var u := UpdateSpec(config.kind, e).result;
      var rec := GetDataSpec(config, e).result.value;
      && u.Success? && u.value.Some?
      && rec.Keys == u.value.value.Keys + {SERIAL_NUMBER}
      && rec[SERIAL_NUMBER] == SerialField(config.serialNumber)
      && (forall k :: k in u.value.value && k != SERIAL_NUMBER ==> rec[k] == u.value.value[k])
  {
  }

  /**
   * `update` as evidently intended: the same requests, but in combined mode
   * the production figures come from production.json alone instead of
   * reading the never-bound separate production response.
   */
  function UpdateIntended(useProductionJson: bool, e: Endpoints): (r: Poll<Record>)
    ensures |r.requested| >= 1 && r.requested[0] == PRODUCTION_JSON_URL
    ensures r.result.Success? ==>
      && r.requested == ExpectedPaths(useProductionJson)
      && r.result.value.Keys == {PRODUCTION, INVERTERS}
  {
    if !useProductionJson then UpdateS(false, e)
    else
      var prodJson := Gate(e.productionJson);
      if prodJson.Failure? then Poll([PRODUCTION_JSON_URL], Failure(prodJson.error))
      else
        var inverters := Gate(e.inverters);
        if inverters.Failure? then Poll([PRODUCTION_JSON_URL, INVERTERS_API_URL], Failure(inverters.error))
        else
          var inventory := Gate(e.inventory);
          var all := [PRODUCTION_JSON_URL, INVERTERS_API_URL, INVENTORY_JSON_URL];
          if inventory.Failure? then Poll(all, Failure(inventory.error))
          else
            var production := NormalizeCombined(prodJson.value);
            if production.Failure? then Poll(all, Failure(production.error))
            else
              var list := InverterList(inverters.value, inventory.value);
              if list.Failure? then Poll(all, Failure(list.error))
              else Poll(all, Success(map[PRODUCTION := ProductionField(production.value), INVERTERS := InvertersField(list.value)]))
  }

  /** The combined-mode production figures: `__process_production_json` with the separate document unused. */
  function NormalizeCombined(prod: ProductionDoc): Result<Production, Error> {
    ProcessProduction(true, prod, ApiProduction(0, 0, 0))
  }

  /**
   * The intended `update` makes the same requests as the written one and
   * agrees with it in separate mode; in combined mode it succeeds exactly when
   * the three requests are answered and both normalisations succeed, with the
   * figures of the first "eim" entry.
   */
  lemma UpdateIntendedCorrect(useProductionJson: bool, e: Endpoints)
    ensures UpdateIntended(useProductionJson, e).requested == UpdateS(useProductionJson, e).requested
    ensures !useProductionJson ==> UpdateIntended(false, e) == UpdateS(false, e)
    ensures useProductionJson ==>
      (UpdateIntended(true, e).result.Success? <==>
        && StatusOk(e.productionJson) && StatusOk(e.inverters) && StatusOk(e.inventory)
        && (exists i :: 0 <= i < |e.productionJson.body.production| && IsEim(e.productionJson.body.production[i]))
        && InverterList(e.inverters.body, e.inventory.body).Success?)
    ensures useProductionJson && UpdateIntended(true, e).result.Success? ==>
      var rec := UpdateIntended(true, e).result.value;
      && rec.Keys == {PRODUCTION, INVERTERS}
      && (exists i :: IsFirst(e.productionJson.body.production, IsEim, i) &&
            var x := e.productionJson.body.production[i];
            rec[PRODUCTION] == ProductionField(Production(x.activeCount, x.wNow, x.whToday, x.whLastSevenDays, x.whLifetime)))
      && rec[INVERTERS] == InvertersField(InverterList(e.inverters.body, e.inventory.body).value)
  {
  }

  /** The legacy reader requests nothing and its `get_data` always fails. */
  lemma LegacyGetDataFails(config: ReaderConfig, e: Endpoints)
    requires config.kind == OldC
    ensures GetDataSpec(config, e) == Poll([], Failure(TypeError))
  {
  }

  class EnvoyReader {
    const host: string
    const port: nat
    const username: string
    const password: string
    const serialNumber: Option<string>
    const kind: ReaderKind

    /** `EnvoyReaderOldC(...)`: the base constructor with its defaults. */
    constructor EnvoyReaderOldC(host: string, port: nat := 80, username: string := "envoy", password: string := "",
                                serialNumber: Option<string> := Some(""))
      ensures Config() == ReaderConfig(ToLower(host), port, username, password, serialNumber, OldC)
    {
      this.host := ToLower(host);
      this.port := port;
      this.username := username;
      this.password := password;
      this.serialNumber := serialNumber;
      this.kind := OldC;
    }

    /** `EnvoyReaderS(...)`: the port is required, combined mode is the default. */
    constructor EnvoyReaderS(host: string, port: nat, username: string := "envoy", password: string := "",
                             useProductionJson: bool := true, serialNumber: Option<string> := Some(""))
      ensures Config() == ReaderConfig(ToLower(host), port, username, password, serialNumber, ModelS(useProductionJson))
    {
      this.host := ToLower(host);
      this.port := port;
      this.username := username;
      this.password := password;
      this.serialNumber := serialNumber;
      this.kind := ModelS(useProductionJson);
    }

    function Config(): ReaderConfig {
      ReaderConfig(host, port, username, password, serialNumber, kind)
    }

    /**
     * `call_http_api`: one GET of `path` on this reader's host and port, where
     * `resp` is what the appliance answers; only status 200 passes.
     */
    method CallHttpApi<T>(path: string, resp: Response<T>) returns (url: string, r: Result<T, Error>)
      ensures url == Url(host, port, path)
      ensures r.Success? <==> StatusOk(resp)
      ensures r.Success? ==> r.value == resp.body
      ensures r.Failure? ==> r == Gate(resp)
    {
      url := "http://" + host + ":" + Decimal(port) + "/" + path;
      match resp
      case TransportFailure =>
        r := Failure(EnvoyReaderError(CannotConnect));
      case Response(status, body) =>
        if status == OK_STATUS {
          r := Success(body);
        } else {
          r := Failure(EnvoyReaderError(BadStatus(status)));
        }
    }

    /** `update`: the requests made, in order, and the record (`None` for the legacy reader). */
    method Update(e: Endpoints) returns (requested: seq<string>, r: Result<Option<Record>, Error>)
      ensures Poll(requested, r) == UpdateSpec(kind, e)
    {
      if kind.OldC? {
        return [], Success(None);
      }
      var useProductionJson := kind.useProductionJson;
      var url;
      requested := [PRODUCTION_JSON_URL];
      var respProdJson;
      url, respProdJson := CallHttpApi(PRODUCTION_JSON_URL, e.productionJson);
      if respProdJson.Failure? {
        return requested, Failure(respProdJson.error);
      }
      var respExtraProd: Option<ApiProduction> := None;  // unbound until assigned
      if !useProductionJson {
        requested := requested + [PRODUCTION_API_URL];
        var extra;
        url, extra := CallHttpApi(PRODUCTION_API_URL, e.apiProduction);
        if extra.Failure? {
          return requested, Failure(extra.error);
        }
        respExtraProd := Some(extra.value);
      }
      requested := requested + [INVERTERS_API_URL];
      var respInverter;
      url, respInverter := CallHttpApi(INVERTERS_API_URL, e.inverters);
      if respInverter.Failure? {
        return requested, Failure(respInverter.error);
      }
      requested := requested + [INVENTORY_JSON_URL];
      var respInventory;
      url, respInventory := CallHttpApi(INVENTORY_JSON_URL, e.inventory);
      if respInventory.Failure? {
        return requested, Failure(respInventory.error);
      }
      if respExtraProd.None? {
        return requested, Failure(UnboundLocalError);
      }
      var production := ProcessProduction(useProductionJson, respProdJson.value, respExtraProd.value);
      if production.Failure? {
        return requested, Failure(production.error);
      }
      var inverters := ProcessInverterJson(respInverter.value, respInventory.value);
      if inverters.Failure? {
        return requested, Failure(inverters.error);
      }
      var data: Record := map[];
      data := data[PRODUCTION := ProductionField(production.value)];
      data := data[INVERTERS := InvertersField(inverters.value)];
      r := Success(Some(data));
    }

    /** `get_data`: `update`'s record with this reader's serial number stamped on. */
    method GetData(e: Endpoints) returns (requested: seq<string>, r: Result<Record, Error>)
      ensures Poll(requested, r) == GetDataSpec(Config(), e)
    {
      var data;
      requested, data := Update(e);
      if data.Failure? {
        return requested, Failure(data.error);
      }
      if data.value.None? {
        return requested, Failure(TypeError);
      }
      var record := data.value.value;
      record := record[SERIAL_NUMBER := SerialField(serialNumber)];
      r := Success(record);
    }
  }
}
