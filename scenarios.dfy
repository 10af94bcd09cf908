/**
 * Concrete cases of the model: version strings, the sample model-S appliance
 * of the repository's factory test, and the combined-mode poll.
 */
module Scenarios {
  import opened Wrappers
  import opened Text
  import opened Documents
  import opened Normalization
  import opened Reader
  import opened Factory

  lemma Decimals()
    ensures Decimal(3) == "3" && Decimal(7) == "7" && Decimal(9) == "9" && Decimal(1) == "1" && Decimal(4) == "4"
    ensures Decimal(466) == "466" && Decimal(10) == "10" && Decimal(35) == "35"
  {
    assert Decimal(46) == "46";
  }

  /** Splitting a string on its dots, by joining the expected segments. */
  lemma SplitsAs(s: string, segs: seq<string>)
    requires |segs| >= 1 && forall i :: 0 <= i < |segs| ==> '.' !in segs[i]
    requires Join(segs) == s
    ensures Split(s) == segs
  {
    SplitJoin(segs);
  }

  /** A prefixed version string: the letter is dropped. */
  lemma PrefixedVersion()
    ensures ToVersionTuple(Some("D7.3.466")) == Success([7, 3, 466])
  {
    Decimals();
    assert seq(3, i requires 0 <= i < 3 => Decimal([7, 3, 466][i])) == ["7", "3", "466"];
    assert Join(["7", "3", "466"]) == "7.3.466";
    assert RenderVersion(Some('D'), [7, 3, 466]) == ['D'] + "7.3.466";
    VersionRoundTrip(Some('D'), [7, 3, 466]);
  }

  /** A plain version string. */
  lemma PlainVersion()
    ensures ToVersionTuple(Some("3.9.1")) == Success([3, 9, 1])
  {
    Decimals();
    assert seq(3, i requires 0 <= i < 3 => Decimal([3, 9, 1][i])) == ["3", "9", "1"];
    assert Join(["3", "9", "1"]) == "3.9.1";
    var segs := seq(3, i requires 0 <= i < 3 => Decimal([3, 9, 1][i]));
    assert RenderVersion(None, [3, 9, 1]) == Join(segs);
    VersionRoundTrip(None, [3, 9, 1]);
  }

  /** Absent, empty and malformed version strings. */
  lemma MalformedVersions()
    ensures ToVersionTuple(None) == Success([0, 0, 0])
    ensures ToVersionTuple(Some("")) == Failure(IndexError)
    ensures ToVersionTuple(Some("abc")) == Success([0, 0, 0])
    ensures ToVersionTuple(Some("3..1")) == Success([0, 0, 0])
    ensures ToVersionTuple(Some("DX3.1")) == Success([0, 0, 0])
  {
    SplitsAs("bc", ["bc"]);
    assert !IsIntLiteral("bc");
    SplitsAs("3..1", ["3", "", "1"]);
    assert !IsIntLiteral("");
    SplitsAs("X3.1", ["X3", "1"]);
    assert !IsIntLiteral("X3");
  }

  /** A firmware reporting only a major of 3 or 4 fails the table on `_v[1]`; other single numbers are classified. */
  lemma SingleNumberFirmware()
    ensures ToVersionTuple(Some("R3")) == Success([3])
    ensures SelectReader([3]) == Failure(IndexError)
    ensures SelectReader([4]) == Failure(IndexError)
    ensures SelectReader([2]) == Success(OldC)
    ensures SelectReader([5]) == Success(ModelS(false))
  {
    Decimals();
    assert seq(1, i requires 0 <= i < 1 => Decimal([3][i])) == ["3"];
    assert RenderVersion(Some('R'), [3]) == ['R'] + "3";
    VersionRoundTrip(Some('R'), [3]);
  }

  const SAMPLE_SERIAL := "0000000000"

  /** The identity of the sample appliance; its firmware is any release from 4.10 on. */
  function SampleInfo(): Response<InfoDoc> {
    Response(200, InfoDoc(Some(SAMPLE_SERIAL), Some("R4.10.35")))
  }

  const SAMPLE_INVERTER := InverterDetail("121547060495", 1589224854, 1, 23, 240)

  /** The sample appliance's documents (only the figures the test checks are its own). */
  function SampleEndpoints(): Endpoints {
    Endpoints(
      Response(200, ProductionDoc([ProductionEntry("inverters", 12, 1500, 0, 0, 900000)])),
      Response(200, ApiProduction(4000, 182847, 900000)),
      Response(200, [SAMPLE_INVERTER]),
      Response(200, [InventoryGroup("PCU", [InventoryDevice("121547060495", true, true, ["envoy.global.ok"])])]))
  }

  /** The sample firmware string parses to (4, 10, 35), which the table sends to the separate-mode reader. */
  lemma SampleFirmware()
    ensures ToVersionTuple(Some("R4.10.35")) == Success([4, 10, 35])
    ensures SelectReader([4, 10, 35]) == Success(ModelS(false))
  {
    Decimals();
    assert seq(3, i requires 0 <= i < 3 => Decimal([4, 10, 35][i])) == ["4", "10", "35"];
    assert Join(["4", "10", "35"]) == "4.10.35";
    assert RenderVersion(Some('R'), [4, 10, 35]) == ['R'] + "4.10.35";
    VersionRoundTrip(Some('R'), [4, 10, 35]);
  }

  /** Resolving the sample appliance gives a separate-mode model-S reader whose password is the serial's suffix. */
  lemma SampleResolution(host: string, port: nat)
    ensures var res := Resolve(InitialState(host, port, "envoy", ""), SampleInfo());
      && res.requested == [INFO_URL]
      && res.reader == Success(ReaderConfig(ToLower(host), port, "envoy", "0000", Some(SAMPLE_SERIAL), ModelS(false)))
  {
    var s := InitialState(host, port, "envoy", "");
    var fetched := s.(serialNumber := Some(SAMPLE_SERIAL), firmwareVersion := Some("R4.10.35"));
    assert FetchInfo(s, SampleInfo()) == Success(fetched);
    assert DefaultPassword("", Some(SAMPLE_SERIAL)) == "0000";
    var s1 := fetched.(password := "0000");
    SampleFirmware();
    ToLowerIdempotent(host);
    assert BuildReader(s1, ModelS(false)) == ReaderConfig(ToLower(host), port, "envoy", "0000", Some(SAMPLE_SERIAL), ModelS(false));
  }

  /** Polling the sample appliance: serial '0000000000', 182847 Wh over seven days, 12 active inverters, first report date 1589224854. */
  lemma SamplePoll(host: string, port: nat)
    ensures var config := ReaderConfig(host, port, "envoy", "0000", Some(SAMPLE_SERIAL), ModelS(false));
      var poll := GetDataSpec(config, SampleEndpoints());
      && poll.requested == [PRODUCTION_JSON_URL, PRODUCTION_API_URL, INVERTERS_API_URL, INVENTORY_JSON_URL]
      && poll.result.Success?
      && poll.result.value[SERIAL_NUMBER] == SerialField(Some(SAMPLE_SERIAL))
      && poll.result.value[PRODUCTION].production.wattHoursSevenDays == 182847
      && poll.result.value[PRODUCTION].production.activeInverters == 12
      && poll.result.value[INVERTERS].inverters[0].lastReportDate == 1589224854
  {
    var e := SampleEndpoints();
    var inventory := e.inventory.body;
    assert FirstMatch(inventory, IsPcu) == Success(inventory[0]);
    assert HasSerial(SAMPLE_INVERTER.serialNumber)(inventory[0].devices[0]);
    assert FirstMatch(inventory[0].devices, HasSerial(SAMPLE_INVERTER.serialNumber)) == Success(inventory[0].devices[0]);
    assert NormalizeInverter(SAMPLE_INVERTER, inventory) == Success(Entry(SAMPLE_INVERTER, inventory[0].devices[0]));
    InverterListShape([SAMPLE_INVERTER], inventory);
  }

  /** The combined-mode documents of a firmware between 3.9 and 4.10. */
  function CombinedEndpoints(): Endpoints {
    Endpoints(
      Response(200, ProductionDoc([ProductionEntry("inverters", 12, 1500, 0, 0, 900000),
                                   ProductionEntry("eim", 12, 1500, 4000, 182847, 900000)])),
      TransportFailure,
      Response(200, [SAMPLE_INVERTER]),
      Response(200, [InventoryGroup("PCU", [InventoryDevice("121547060495", true, true, ["envoy.global.ok"])])]))
  }

  /**
   * A combined-mode poll of documents the appliance fully answers fails with
   * `UnboundLocalError` as written, and would give the "eim" figures as intended.
   */
  lemma CombinedModeCounterexample()
    ensures UpdateS(true, CombinedEndpoints()) ==
      Poll([PRODUCTION_JSON_URL, INVERTERS_API_URL, INVENTORY_JSON_URL], Failure(UnboundLocalError))
    ensures UpdateIntended(true, CombinedEndpoints()).result.Success?
    ensures UpdateIntended(true, CombinedEndpoints()).result.value[PRODUCTION] ==
      ProductionField(Production(12, 1500, 4000, 182847, 900000))
  {
    var e := CombinedEndpoints();
    var entries := e.productionJson.body.production;
    assert !IsEim(entries[0]) && IsEim(entries[1]);
    FirstMatchAt(entries, IsEim, 1);
    var inventory := e.inventory.body;
    assert FirstMatch(inventory, IsPcu) == Success(inventory[0]);
    assert HasSerial(SAMPLE_INVERTER.serialNumber)(inventory[0].devices[0]);
    assert FirstMatch(inventory[0].devices, HasSerial(SAMPLE_INVERTER.serialNumber)) == Success(inventory[0].devices[0]);
    assert NormalizeInverter(SAMPLE_INVERTER, inventory).Success?;
    assert InverterList([SAMPLE_INVERTER], inventory).Success? by {
      assert [SAMPLE_INVERTER][..0] == [];
      assert InverterList([], inventory) == Success([]);
    }
  }

  /** A client of the two classes: one resolution, one poll, and a second `get_reader` that requests nothing. */
  method SampleRun() {
    var factory := new ReaderFactory("LocalHost", 8080);
    assert ToLower("LocalHost") == "localhost";
    var requested, reader := factory.GetReader(SampleInfo());
    SampleResolution("LocalHost", 8080);
    assert requested == [INFO_URL];
    assert reader.Success?;
    var paths, data := reader.value.GetData(SampleEndpoints());
    SamplePoll("localhost", 8080);
    assert data.Success? && data.value[SERIAL_NUMBER] == SerialField(Some(SAMPLE_SERIAL));
    var again, sameReader := factory.GetReader(TransportFailure);
    assert again == [];
    assert sameReader.Success? && sameReader.value.Config() == reader.value.Config();
  }
}
