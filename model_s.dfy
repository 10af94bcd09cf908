/**
 * Normalisation done by the model-S reader: the production figures and the
 * inverter list of the canonical record, built from the raw documents.
 */
module Normalization {
  import opened Wrappers
  import opened Documents

  /** The `production` part of the record. */
  datatype Production = Production(
    activeInverters: int,
    wattsNow: int,
    wattHoursToday: int,
    wattHoursSevenDays: int,
    wattHoursLifetime: int)

  /** One element of the `inverters` part of the record. */
  datatype Inverter = Inverter(
    serialNumber: string,
    lastReportDate: int,
    deviceType: int,
    lastReportWatts: int,
    maxReportWatts: int,
    pcuProducing: bool,
    pcuCommunicating: bool,
    pcuDeviceStatus: seq<string>)

  predicate IsEim(e: ProductionEntry) { e.kind == "eim" }

  predicate IsInverters(e: ProductionEntry) { e.kind == "inverters" }

  predicate IsPcu(g: InventoryGroup) { g.kind == "PCU" }

  /** The device filter of the inventory lookup: `x['serial_num'] == serial`. */
  function HasSerial(serial: string): InventoryDevice -> bool {
    (dev: InventoryDevice) => dev.serialNum == serial
  }

  /**
   * `__process_production_json`. In combined mode every figure comes from the
   * first "eim" entry of the production list; in separate mode the count and
   * the power come from the first "inverters" entry and the energy figures from
   * the separate production document. A missing entry is an `IndexError`.
   */
  function ProcessProduction(useProductionJson: bool, prod: ProductionDoc, extra: ApiProduction): (r: Result<Production, Error>)
    ensures r.Failure? ==> r.error == IndexError
    ensures useProductionJson ==>
      (r.Success? <==> exists i :: 0 <= i < |prod.production| && IsEim(prod.production[i]))
    ensures !useProductionJson ==>
      (r.Success? <==> exists i :: 0 <= i < |prod.production| && IsInverters(prod.production[i]))
    ensures useProductionJson && r.Success? ==>
      exists i :: IsFirst(prod.production, IsEim, i) &&
        var e := prod.production[i];
        r.value == Production(e.activeCount, e.wNow, e.whToday, e.whLastSevenDays, e.whLifetime)
    ensures !useProductionJson && r.Success? ==>
      exists i :: IsFirst(prod.production, IsInverters, i) &&
        var e := prod.production[i];
        r.value == Production(e.activeCount, e.wNow, extra.wattHoursToday, extra.wattHoursSevenDays, extra.wattHoursLifetime)
  {
    if useProductionJson then
      var e :- FirstMatch(prod.production, IsEim);
      Success(Production(e.activeCount, e.wNow, e.whToday, e.whLastSevenDays, e.whLifetime))
    else
      var e :- FirstMatch(prod.production, IsInverters);
      Success(Production(e.activeCount, e.wNow, extra.wattHoursToday, extra.wattHoursSevenDays, extra.wattHoursLifetime))
  }

  /** The record entry for one detail-list inverter and its inventory device. */
  function Entry(d: InverterDetail, dev: InventoryDevice): Inverter {
    Inverter(d.serialNumber, d.lastReportDate, d.devType, d.lastReportWatts, d.maxReportWatts,
             dev.producing, dev.communicating, dev.deviceStatus)
  }

  /**
   * The body of the loop of `__process_inverter_json` for one detail-list entry:
   * its own fields copied, and the PCU fields taken from the first device with
   * the same serial inside the first "PCU" group of the inventory.
   */
  function NormalizeInverter(d: InverterDetail, inventory: seq<InventoryGroup>): (r: Result<Inverter, Error>)
    ensures r.Failure? ==> r.error == IndexError
  {
    var pcus :- FirstMatch(inventory, IsPcu);
    var dev :- FirstMatch(pcus.devices, HasSerial(d.serialNumber));
    Success(Entry(d, dev))
  }

  /**
   * What one entry of the inverter list is: it exists exactly when the first
   * "PCU" group holds a device with the entry's serial; its own five fields
   * are copied unchanged, and its PCU fields are those of the first such device.
   */
  lemma NormalizeInverterMeaning(d: InverterDetail, inventory: seq<InventoryGroup>)
    ensures NormalizeInverter(d, inventory).Success? <==>
      exists g :: IsFirst(inventory, IsPcu, g) &&
        exists k :: 0 <= k < |inventory[g].devices| && inventory[g].devices[k].serialNum == d.serialNumber
    ensures NormalizeInverter(d, inventory).Success? ==>
      var r := NormalizeInverter(d, inventory).value;
      && r.serialNumber == d.serialNumber
      && r.lastReportDate == d.lastReportDate
      && r.deviceType == d.devType
      && r.lastReportWatts == d.lastReportWatts
      && r.maxReportWatts == d.maxReportWatts
      && (exists g, k :: IsFirst(inventory, IsPcu, g) && IsFirst(inventory[g].devices, HasSerial(d.serialNumber), k) &&
           var dev := inventory[g].devices[k];
           r.pcuProducing == dev.producing &&
           r.pcuCommunicating == dev.communicating &&
           r.pcuDeviceStatus == dev.deviceStatus)
  {
    var pcus := FirstMatch(inventory, IsPcu);
    if pcus.Success? {
      var g :| IsFirst(inventory, IsPcu, g) && inventory[g] == pcus.value;
      if pcus.value.devices != [] {
        var dev := FirstMatch(pcus.value.devices, HasSerial(d.serialNumber));
        if dev.Failure? {
          forall k | 0 <= k < |inventory[g].devices|
            ensures inventory[g].devices[k].serialNum != d.serialNumber
          {
            assert !HasSerial(d.serialNumber)(inventory[g].devices[k]);
          }
        } else {
          var k :| IsFirst(inventory[g].devices, HasSerial(d.serialNumber), k) && inventory[g].devices[k] == dev.value;
          assert HasSerial(d.serialNumber)(inventory[g].devices[k]);
        }
      }
    }
  }

  /** The whole inverter list: the entries in detail-list order, or the error of the first entry that fails. */
  function InverterList(details: seq<InverterDetail>, inventory: seq<InventoryGroup>): (r: Result<seq<Inverter>, Error>)
    ensures r.Failure? ==> r.error == IndexError
    ensures r.Success? ==> |r.value| == |details|
    decreases |details|
  {
    if |details| == 0 then Success([])
    else
      match InverterList(details[..|details| - 1], inventory)
      case Failure(e) => Failure(e)
      case Success(prefix) =>
        match NormalizeInverter(details[|details| - 1], inventory)
        case Failure(e) => Failure(e)
        case Success(x) => Success(prefix + [x])
  }

  /**
   * The list succeeds exactly when every entry does; then it has one element
   * per detail-list entry, in the same order, each the normalisation of that entry.
   */
  lemma {:induction false} InverterListShape(details: seq<InverterDetail>, inventory: seq<InventoryGroup>)
    ensures InverterList(details, inventory).Success? <==>
      forall i :: 0 <= i < |details| ==> NormalizeInverter(details[i], inventory).Success?
    ensures InverterList(details, inventory).Failure? ==> InverterList(details, inventory).error == IndexError
    ensures InverterList(details, inventory).Success? ==>
      var r := InverterList(details, inventory).value;
      |r| == |details| &&
      forall i :: 0 <= i < |details| ==> NormalizeInverter(details[i], inventory) == Success(r[i])
    decreases |details|
  {
    if |details| > 0 {
      var n := |details| - 1;
      var front := details[..n];
      InverterListShape(front, inventory);
      assert forall i :: 0 <= i < n ==> front[i] == details[i];
      var last := NormalizeInverter(details[n], inventory);
      if InverterList(front, inventory).Failure? {
        var i :| 0 <= i < n && !NormalizeInverter(front[i], inventory).Success?;
        assert !NormalizeInverter(details[i], inventory).Success?;
      } else if last.Failure? {
        assert !NormalizeInverter(details[n], inventory).Success?;
      }
    }
  }

  /**
   * Without a "PCU" group only the empty detail list normalises: an empty
   * list never consults the inventory, any other list fails.
   */
  lemma NoPcuGroup(details: seq<InverterDetail>, inventory: seq<InventoryGroup>)
    requires forall g :: 0 <= g < |inventory| ==> !IsPcu(inventory[g])
    ensures InverterList(details, inventory).Success? <==> |details| == 0
    ensures |details| == 0 ==> InverterList(details, inventory) == Success([])
  {
    InverterListShape(details, inventory);
    if |details| > 0 {
      assert !NormalizeInverter(details[0], inventory).Success?;
    }
  }

  /**
   * `__process_inverter_json`: walks the detail list in order, looks every
   * inverter up in the inventory and appends its record entry.
   */
  method ProcessInverterJson(details: seq<InverterDetail>, inventory: seq<InventoryGroup>) returns (r: Result<seq<Inverter>, Error>)
    ensures r == InverterList(details, inventory)
  {
    var inverterData: seq<Inverter> := [];
    var i := 0;
    while i < |details|
      invariant 0 <= i <= |details|
      invariant InverterList(details[..i], inventory) == Success(inverterData)
    {
      var raw := details[i];
      var pcus := FirstMatch(inventory, IsPcu);
      if pcus.Failure? {
        InverterListShape(details, inventory);
        assert !NormalizeInverter(details[i], inventory).Success?;
        return Failure(IndexError);
      }
      var device := FirstMatch(pcus.value.devices, HasSerial(raw.serialNumber));
      if device.Failure? {
        InverterListShape(details, inventory);
        assert !NormalizeInverter(details[i], inventory).Success?;
        return Failure(IndexError);
      }
      assert details[..i + 1][..i] == details[..i];
      inverterData := inverterData + [Entry(raw, device.value)];
      i := i + 1;
    }
    assert details[..|details|] == details;
    r := Success(inverterData);
  }
}
