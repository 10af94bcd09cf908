/**
 * The factory: it fetches the identity document once, derives the default
 * password from the serial number, parses the firmware version and picks the
 * reader from an ordered rule table.
 */
module Factory {
  import opened Wrappers
  import opened Text
  import opened Documents
  import opened Reader

  // ---------------------------------------------------------------------------
  // Version parsing
  // ---------------------------------------------------------------------------

  /** Drops exactly one leading character when it is not a digit. */
  function StripPrefix(v: string): (r: string)
    requires |v| > 0
    ensures IsDigit(v[0]) ==> r == v
    ensures !IsDigit(v[0]) ==> r == v[1..]
  {
    if IsDigit(v[0]) then v else v[1..]
  }

  /** `map(int, segs)`: `None` as soon as one segment is not an integer literal. */
  function ParseSegments(segs: seq<string>): (r: Option<seq<nat>>)
    ensures r.Some? <==> forall i :: 0 <= i < |segs| ==> IsIntLiteral(segs[i])
    ensures r.Some? ==> |r.value| == |segs| && forall i :: 0 <= i < |segs| ==> r.value[i] == DecimalValue(segs[i])
  {
    if |segs| == 0 then Some([])
    else if !IsIntLiteral(segs[0]) then None
    else match ParseSegments(segs[1..])
      case None => None
      case Some(rest) => Some([DecimalValue(segs[0])] + rest)
  }

  /** The sentinel for an absent or malformed version. */
  const UNKNOWN_VERSION: seq<nat> := [0, 0, 0]

  /**
   * `to_version_tuple`: `None` gives (0,0,0); the empty string raises
   * `IndexError` on `v[0]`; otherwise one leading non-digit is dropped and
   * the rest split on dots, each segment an integer, and any segment `int`
   * rejects gives (0,0,0).
   */
  function ToVersionTuple(v: Option<string>): (r: Result<seq<nat>, Error>)
    ensures v.None? ==> r == Success(UNKNOWN_VERSION)
    ensures r.Failure? <==> v == Some("")
    ensures r.Failure? ==> r.error == IndexError
    ensures r.Success? ==> |r.value| >= 1
  {
    match v
    case None => Success(UNKNOWN_VERSION)
    case Some(s) =>
      if |s| == 0 then Failure(IndexError)
      else match ParseSegments(Split(StripPrefix(s)))
        case None => Success(UNKNOWN_VERSION)
        case Some(parts) => Success(parts)
  }

  /**
   * A well-formed version string has one integer per dot-separated segment,
   * and any segment that is not an integer literal makes the whole tuple (0,0,0).
   */
  lemma VersionSegments(s: string)
    requires |s| > 0
    ensures var segs := Split(StripPrefix(s));
      && |segs| == Dots(StripPrefix(s)) + 1
      && ((forall i :: 0 <= i < |segs| ==> IsIntLiteral(segs[i])) ==>
            ToVersionTuple(Some(s)) == Success(seq(|segs|, i requires 0 <= i < |segs| => DecimalValue(segs[i]))))
      && ((exists i :: 0 <= i < |segs| && !IsIntLiteral(segs[i])) ==> ToVersionTuple(Some(s)) == Success(UNKNOWN_VERSION))
  {
    SplitCountsDots(StripPrefix(s));
    var segs := Split(StripPrefix(s));
    var r := ParseSegments(segs);
    if r.Some? {
      assert r.value == seq(|segs|, i requires 0 <= i < |segs| => DecimalValue(segs[i]));
    }
  }

  /** The version string `prefix` + "a.b.c...", the way firmware reports it ("D7.3.466", "R4.10.35", "3.9.1"). */
  function RenderVersion(prefix: Option<char>, parts: seq<nat>): string
    requires |parts| >= 1
  {
    (if prefix.Some? then [prefix.value] else []) + Join(seq(|parts|, i requires 0 <= i < |parts| => Decimal(parts[i])))
  }

  /** Parsing a rendered version gives back its numbers, with or without one non-digit prefix. */
  lemma {:induction false} VersionRoundTrip(prefix: Option<char>, parts: seq<nat>)
    requires |parts| >= 1
    requires prefix.Some? ==> !IsDigit(prefix.value)
    ensures ToVersionTuple(Some(RenderVersion(prefix, parts))) == Success(parts)
  {
    var segs := seq(|parts|, i requires 0 <= i < |parts| => Decimal(parts[i]));
    var body := Join(segs);
    var s := RenderVersion(prefix, parts);
    assert forall i :: 0 <= i < |segs| ==> IsIntLiteral(segs[i]);
    SplitJoin(segs);
    JoinSplit(body);
    assert |body| > 0 && IsDigit(body[0]) by {
      JoinStartsWith(segs);
    }
    if prefix.Some? {
      assert s == [prefix.value] + body;
      assert StripPrefix(s) == body by { assert s[1..] == body; }
    } else {
      assert s == body;
    }
    forall i | 0 <= i < |parts| ensures DecimalValue(segs[i]) == parts[i] {
      DecimalRoundTrip(parts[i]);
    }
    var r := ParseSegments(segs);
    assert r.Some?;
    assert r.value == parts;
  }

  /** A join starts with its first segment. */
  lemma JoinStartsWith(segs: seq<string>)
    requires |segs| >= 1 && |segs[0]| > 0 && IsDigit(segs[0][0])
    ensures |Join(segs)| > 0 && Join(segs)[0] == segs[0][0]
  {
  }

  // ---------------------------------------------------------------------------
  // Reader selection
  // ---------------------------------------------------------------------------

  /** (a, b) comes before (c, d) in the lexicographic order. */
  predicate LexLess(a: int, b: int, c: int, d: int) {
    a < c || (a == c && b < d)
  }

  /** The firmware era of (major, minor): before 3.9, from 3.9 up to 4.10, from 4.10 on. */
  function Era(major: int, minor: int): ReaderKind {
    if LexLess(major, minor, 3, 9) then OldC
    else if LexLess(major, minor, 4, 10) then ModelS(true)
    else ModelS(false)
  }

  /** Position of a reader in the era order. */
  function Rank(k: ReaderKind): nat {
    match k
    case OldC => 0
    case ModelS(useProductionJson) => if useProductionJson then 1 else 2
  }

  /**
   * The rule table of `get_reader`, first match wins. With two or more
   * numbers it is the era of (major, minor); a one-number tuple whose major is
   * 3 or 4 reaches `_v[1]` and raises `IndexError`.
   */
  function SelectReader(v: seq<nat>): (r: Result<ReaderKind, Error>)
    ensures |v| >= 2 ==> r == Success(Era(v[0], v[1]))
    ensures |v| == 1 ==> (r.Failure? <==> v[0] == 3 || v[0] == 4)
    ensures |v| == 1 && v[0] < 3 ==> r == Success(OldC)
    ensures |v| == 1 && v[0] > 4 ==> r == Success(ModelS(false))
    ensures r.Failure? ==> r.error == IndexError
  {
    if |v| == 0 then Failure(IndexError)
    else if v[0] < 3 then Success(OldC)
    else if v[0] == 3 && |v| < 2 then Failure(IndexError)
    else if v[0] == 3 && v[1] < 9 then Success(OldC)
    else if v[0] == 3 && v[1] >= 9 then Success(ModelS(true))
    else if v[0] == 4 && |v| < 2 then Failure(IndexError)
    else if v[0] == 4 && v[1] < 10 then Success(ModelS(true))
    else Success(ModelS(false))
  }

  /** A later (major, minor) never selects an older reader. */
  lemma SelectReaderMonotone(v: seq<nat>, w: seq<nat>)
    requires |v| >= 2 && |w| >= 2
    requires LexLess(v[0], v[1], w[0], w[1]) || (v[0] == w[0] && v[1] == w[1])
    ensures Rank(SelectReader(v).value) <= Rank(SelectReader(w).value)
  {
  }

  /** The boundary cases of the table. */
  lemma SelectReaderBoundaries(x: nat)
    ensures SelectReader([3, 8, x]) == Success(OldC)
    ensures SelectReader([3, 9, x]) == Success(ModelS(true))
    ensures SelectReader([4, 9, x]) == Success(ModelS(true))
    ensures SelectReader([4, 10, x]) == Success(ModelS(false))
    ensures SelectReader([5, 0, 0]) == Success(ModelS(false))
    ensures SelectReader(UNKNOWN_VERSION) == Success(OldC)
  {
  }

  // ---------------------------------------------------------------------------
  // Password default and resolution
  // ---------------------------------------------------------------------------

  /**
   * The default password: `serial[6:]`, but only when no password is set and
   * a serial number is known; a password that is set is never changed.
   */
  function DefaultPassword(password: string, serial: Option<string>): (r: string)
    ensures |password| > 0 ==> r == password
    ensures serial.None? ==> r == password
    ensures |password| == 0 && serial.Some? ==>
      (|serial.value| <= 6 ==> r == "") && (|serial.value| > 6 ==> r == serial.value[6..])
  {
    if |password| == 0 && serial.Some? then SliceFrom(serial.value, 6) else password
  }

  /** Deriving the default a second time changes nothing. */
  lemma DefaultPasswordIdempotent(password: string, serial: Option<string>)
    ensures DefaultPassword(DefaultPassword(password, serial), serial) == DefaultPassword(password, serial)
  {
  }

  /** The fields of the factory. */
  datatype FactoryState = FactoryState(
    host: string,
    port: nat,
    username: string,
    password: string,
    endpointType: string,
    serialNumber: Option<string>,
    firmwareVersion: Option<string>)

  /** What the constructor sets up; the firmware argument is ignored. */
  function InitialState(host: string, port: nat, username: string, password: string): FactoryState {
    FactoryState(ToLower(host), port, username, password, "", None, None)
  }

  /** The identity is fetched only when no firmware version is known yet. */
  predicate NeedsInfo(s: FactoryState): (r: bool)
    ensures r <==> s.firmwareVersion.None? || ToVersionTuple(s.firmwareVersion).Failure?
  {
    s.firmwareVersion.None? || |s.firmwareVersion.value| == 0
  }

  /** `__get_info`: on status 200 the serial and firmware of the document; otherwise the error, state untouched. */
  function FetchInfo(s: FactoryState, info: Response<InfoDoc>): (r: Result<FactoryState, Error>)
    ensures r.Success? <==> StatusOk(info)
    ensures r.Success? ==> r.value == s.(serialNumber := info.body.sn, firmwareVersion := info.body.software)
    ensures r.Failure? ==> r.error.EnvoyReaderError?
  {
    var doc :- Gate(info);
    Success(s.(serialNumber := doc.sn, firmwareVersion := doc.software))
  }

  /** The reader the table's outcome builds: the legacy reader gets no serial, so its default "". */
  function BuildReader(s: FactoryState, kind: ReaderKind): (r: ReaderConfig)
    ensures r.kind == kind
    ensures r.host == ToLower(s.host) && ToLower(r.host) == r.host
    ensures r.port == s.port && r.username == s.username && r.password == s.password
    ensures r.serialNumber == (if kind == OldC then Some("") else s.serialNumber)
  {
    match kind
    case OldC => ReaderConfig(ToLower(s.host), s.port, s.username, s.password, Some(""), OldC)
    case ModelS(useProductionJson) =>
      ReaderConfig(ToLower(s.host), s.port, s.username, s.password, s.serialNumber, ModelS(useProductionJson))
  }

  /** One call of `get_reader`: what it requested, the factory's new fields, and the reader or error. */
  datatype Resolution = Resolution(requested: seq<string>, state: FactoryState, reader: Result<ReaderConfig, Error>)

  function Resolve(s: FactoryState, info: Response<InfoDoc>): (r: Resolution)
    ensures r.requested == (if NeedsInfo(s) then [INFO_URL] else [])
    ensures r.state.host == s.host && r.state.port == s.port && r.state.username == s.username
    ensures r.state.endpointType == s.endpointType
    ensures !NeedsInfo(s) ==> r.state.serialNumber == s.serialNumber && r.state.firmwareVersion == s.firmwareVersion
    ensures NeedsInfo(s) && StatusOk(info) ==>
      r.state.serialNumber == info.body.sn && r.state.firmwareVersion == info.body.software
    ensures r.reader.Success? ==> r.reader.value.password == r.state.password
  {
    var requested := if NeedsInfo(s) then [INFO_URL] else [];
    var fetched := if NeedsInfo(s) then FetchInfo(s, info) else Success(s);
    if fetched.Failure? then Resolution(requested, s, Failure(fetched.error))
    else
      var s1 := fetched.value.(password := DefaultPassword(fetched.value.password, fetched.value.serialNumber));
      var v := ToVersionTuple(s1.firmwareVersion);
      if v.Failure? then Resolution(requested, s1, Failure(v.error))
      else
        var kind := SelectReader(v.value);
        if kind.Failure? then Resolution(requested, s1, Failure(kind.error))
        else Resolution(requested, s1, Success(BuildReader(s1, kind.value)))
  }

  /** A new factory always fetches the identity on its first `get_reader`. */
  lemma FirstCallFetches(host: string, port: nat, username: string, password: string, info: Response<InfoDoc>)
    ensures Resolve(InitialState(host, port, username, password), info).requested == [INFO_URL]
  {
  }

  /** A failed identity fetch returns no reader and leaves every field as it was. */
  lemma FailedFetchGivesNoReader(s: FactoryState, info: Response<InfoDoc>)
    requires NeedsInfo(s) && !StatusOk(info)
    ensures Resolve(s, info) == Resolution([INFO_URL], s, Failure(Gate(info).error))
    ensures Resolve(s, info).reader.error.EnvoyReaderError?
  {
  }

  /**
   * The password: one that is set survives resolution; an empty one becomes
   * the serial suffix once a serial is known; the reader gets the new value.
   */
  lemma ResolvedPassword(s: FactoryState, info: Response<InfoDoc>)
    ensures var res := Resolve(s, info);
      && (|s.password| > 0 ==> res.state.password == s.password)
      && (res.reader.Success? ==> res.reader.value.password == res.state.password)
      && (res.reader.Success? ==> res.reader.value.password == DefaultPassword(s.password, res.state.serialNumber))
      && (NeedsInfo(s) && StatusOk(info) ==> res.state.password == DefaultPassword(s.password, info.body.sn))
      && (!NeedsInfo(s) ==> res.state.password == DefaultPassword(s.password, s.serialNumber))
  {
  }

  /**
   * The identity is fetched again on the next call whenever the previous one
   * left no firmware version: the fetch failed, or `device/software` had no text.
   */
  lemma RefetchWithoutFirmware(s: FactoryState, info: Response<InfoDoc>, next: Response<InfoDoc>)
    requires NeedsInfo(s)
    requires !StatusOk(info) || info.body.software == None || info.body.software == Some("")
    ensures Resolve(Resolve(s, info).state, next).requested == [INFO_URL]
  {
  }

  /**
   * The reader follows the firmware version it was resolved with: the
   * model-S reader carries the factory's serial, the legacy reader "".
   */
  lemma ResolvedReader(s: FactoryState, info: Response<InfoDoc>)
    ensures var res := Resolve(s, info);
      res.reader.Success? ==>
        && ToVersionTuple(res.state.firmwareVersion).Success?
        && SelectReader(ToVersionTuple(res.state.firmwareVersion).value) == Success(res.reader.value.kind)
        && res.reader.value.host == ToLower(s.host)
        && res.reader.value.port == s.port
        && res.reader.value.username == s.username
        && res.reader.value.serialNumber == (if res.reader.value.kind.OldC? then Some("") else res.state.serialNumber)
  {
  }

  /**
   * Once a firmware version is known, a second `get_reader` requests nothing
   * and returns the same reader again, whatever the appliance would answer.
   */
  lemma SecondCallStable(s: FactoryState, info1: Response<InfoDoc>, info2: Response<InfoDoc>)
    requires var res := Resolve(s, info1); res.state.firmwareVersion.Some? && |res.state.firmwareVersion.value| > 0
    ensures var res := Resolve(s, info1);
      Resolve(res.state, info2) == Resolution([], res.state, res.reader)
  {
    var res := Resolve(s, info1);
    var t := res.state;
    assert !NeedsInfo(t);
    DefaultPasswordIdempotent(t.password, t.serialNumber);
    if NeedsInfo(s) && StatusOk(info1) {
      var f := FetchInfo(s, info1).value;
      assert t == f.(password := DefaultPassword(f.password, f.serialNumber));
      DefaultPasswordIdempotent(f.password, f.serialNumber);
    }
    assert t.(password := DefaultPassword(t.password, t.serialNumber)) == t;
  }

  class ReaderFactory {
    var host: string
    var port: nat
    var username: string
    var password: string
    var endpointType: string
    var serialNumber: Option<string>
    var firmwareVersion: Option<string>

    function State(): FactoryState
      reads this
    {
      FactoryState(host, port, username, password, endpointType, serialNumber, firmwareVersion)
    }

    /** `EnvoyReaderFactory(...)`; `firmwareVersion` is accepted and ignored. */
    constructor (host: string, port: nat := 80, username: string := "envoy", password: string := "",
                 firmwareVersion: string := "")
      ensures State() == InitialState(host, port, username, password)
    {
      this.host := ToLower(host);
      this.username := username;
      this.password := password;
      this.endpointType := "";
      this.serialNumber := None;
      this.firmwareVersion := None;
      this.port := port;
    }

    /** `__get_info`: `info` is what the appliance answers on `info.xml` (no authentication, no redirects). */
    method GetInfo(info: Response<InfoDoc>) returns (url: string, r: Result<(), Error>)
      modifies this
      ensures url == Url(old(host), old(port), INFO_URL)
      ensures var f := FetchInfo(old(State()), info);
        && (r.Success? <==> f.Success?)
        && (f.Success? ==> State() == f.value)
        && (f.Failure? ==> State() == old(State()) && r.error == f.error)
    {
      url := "http://" + host + ":" + Decimal(port) + "/" + INFO_URL;
      match info
      case TransportFailure =>
        r := Failure(EnvoyReaderError(CannotConnect));
      case Response(status, doc) =>
        if status == OK_STATUS {
          serialNumber := doc.sn;
          firmwareVersion := doc.software;
          r := Success(());
        } else {
          r := Failure(EnvoyReaderError(BadStatus(status)));
        }
    }

    /**
     * `get_reader`: `info` stands for the appliance's identity answer, used
     * only when the identity is fetched; `fwVersion` is accepted and ignored.
     */
    method GetReader(info: Response<InfoDoc>, fwVersion: string := "") returns (requested: seq<string>, r: Result<EnvoyReader, Error>)
      modifies this
      ensures var res := Resolve(old(State()), info);
        && requested == res.requested
        && State() == res.state
        && (r.Success? <==> res.reader.Success?)
        && (r.Success? ==> fresh(r.value) && r.value.Config() == res.reader.value)
        && (r.Failure? ==> r.error == res.reader.error)
    {
      requested := [];
      if firmwareVersion.None? || |firmwareVersion.value| == 0 {
        requested := [INFO_URL];
        var url, fetched := GetInfo(info);
        if fetched.Failure? {
          return requested, Failure(fetched.error);
        }
      }

      if |password| == 0 && serialNumber.Some? {
        password := SliceFrom(serialNumber.value, 6);
      }

      var v := ToVersionTuple(firmwareVersion);
      if v.Failure? {
        return requested, Failure(v.error);
      }
      var kind := SelectReader(v.value);
      if kind.Failure? {
        return requested, Failure(kind.error);
      }
      if kind.value.OldC? {
        var reader := new EnvoyReader.EnvoyReaderOldC(host, port, username, password);
        r := Success(reader);
      } else {
        var reader := new EnvoyReader.EnvoyReaderS(host := host, port := port, username := username, password := password,
                                                   useProductionJson := kind.value.useProductionJson, serialNumber := serialNumber);
        r := Success(reader);
      }
    }
  }
}
