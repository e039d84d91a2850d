/**
 * The sensor platform (custom_components/nature_remo/sensor.py): which
 * entities a snapshot yields, their names, unique ids, units and device
 * classes, and how each reads its state out of the coordinator's current data.
 */
module Sensors {
  import opened Wrappers
  import opened Dicts
  import Api
  import Const
  import Text
  import opened Entities

  /** The three device sensors, by the `newest_events` key they read. */
  datatype SensorKind = Temperature | Humidity | Illuminance

  function EventKey(k: SensorKind): string {
    match k
    case Temperature => "te"
    case Humidity => "hu"
    case Illuminance => "il"
  }

  /** The sensor a `newest_events` key gives rise to; any other key gives none. */
  function KindOfKey(key: string): (r: Option<SensorKind>)
    ensures r.Some? <==> key in {"te", "hu", "il"}
    ensures r.Some? ==> EventKey(r.value) == key
  {
    if key == "te" then Some(Temperature)
    else if key == "hu" then Some(Humidity)
    else if key == "il" then Some(Illuminance)
    else None
  }

  function NameSuffix(k: SensorKind): string {
    match k
    case Temperature => " Temperature"
    case Humidity => " Humidity"
    case Illuminance => " Illuminance"
  }

  /** `NatureRemoE` (the smart-meter power entity) or one of the three device sensors. */
  datatype Entity = Energy(base: Base) | Reading(kind: SensorKind, base: Base)

  const SmartMeterType: string := "EL_SMART_METER"

  /** `NatureRemoE(coordinator, appliance)`. */
  function NewEnergy(a: Api.Appliance): Entity {
    Energy(ApplianceBase(a))
  }

  /** A device sensor's `__init__`: the base name is stripped and the kind is appended. */
  function NewReading(k: SensorKind, d: Api.Device): Entity {
    var b := DeviceBase(d);
    Reading(k, b.(name := Text.Strip(b.name) + NameSuffix(k)))
  }

  function Name(e: Entity): string {
    e.base.name
  }

  /** `unique_id`: the appliance id for the power entity, `<device id>-te|hu|il` for a sensor. */
  function UniqueId(e: Entity): string {
    match e
    case Energy(b) => b.uniqueId
    case Reading(k, b) => b.device.id + "-" + EventKey(k)
  }

  function Unit(e: Entity): string {
    match e
    case Energy(_) => "W"
    case Reading(Temperature, _) => "°C"
    case Reading(Humidity, _) => "%"
    case Reading(Illuminance, _) => "lx"
  }

  datatype DeviceClass = PowerClass | TemperatureClass | HumidityClass | IlluminanceClass

  /** `device_class` as written: the power entity asks for `SensorDeviceClass.power`, a lower-case member. */
  function DeviceClassAsWritten(e: Entity): Result<DeviceClass, Raised> {
    match e
    case Energy(_) => Failure(AttributeError("power"))
    case Reading(Temperature, _) => Success(TemperatureClass)
    case Reading(Humidity, _) => Success(HumidityClass)
    case Reading(Illuminance, _) => Success(IlluminanceClass)
  }

  /** `device_class` as intended: `SensorDeviceClass.POWER` for the power entity. */
  function DeviceClassOf(e: Entity): DeviceClass {
    match e
    case Energy(_) => PowerClass
    case Reading(Temperature, _) => TemperatureClass
    case Reading(Humidity, _) => HumidityClass
    case Reading(Illuminance, _) => IlluminanceClass
  }

  /** The as-written device class raises for every power entity and agrees with the intended one elsewhere. */
  lemma DeviceClassAsWrittenFailsForPower(e: Entity)
    ensures e.Energy? <==> DeviceClassAsWritten(e).Failure?
    ensures e.Energy? ==> DeviceClassAsWritten(e) == Failure(AttributeError("power"))
    ensures e.Reading? ==> DeviceClassAsWritten(e) == Success(DeviceClassOf(e))
  {
  }

  /**
   * The fixed unit and device-class pairs: W/power, °C/temperature,
   * %/humidity, lx/illuminance; the pair tells the entity's kind.
   */
  lemma UnitAndClass(e: Entity, e': Entity)
    ensures e.Energy? ==> Unit(e) == "W" && DeviceClassOf(e) == PowerClass
    ensures e.Reading? && e.kind == Temperature ==> Unit(e) == "°C" && DeviceClassOf(e) == TemperatureClass
    ensures e.Reading? && e.kind == Humidity ==> Unit(e) == "%" && DeviceClassOf(e) == HumidityClass
    ensures e.Reading? && e.kind == Illuminance ==> Unit(e) == "lx" && DeviceClassOf(e) == IlluminanceClass
    ensures Unit(e) == Unit(e') <==> DeviceClassOf(e) == DeviceClassOf(e')
  {
  }

  /** The index of the first property with code `epc`: what `next(...)` over the generator finds. */
  function FirstWithEpc(props: seq<Api.Property>, epc: int): (r: Option<nat>)
    ensures r.None? <==> forall i :: 0 <= i < |props| ==> props[i].epc != epc
    ensures r.Some? ==> r.value < |props| && props[r.value].epc == epc
    ensures r.Some? ==> forall j :: 0 <= j < r.value ==> props[j].epc != epc
  {
    if props == [] then None
    else if props[0].epc == epc then Some(0)
    else
      match FirstWithEpc(props[1..], epc)
      case None => None
      case Some(i) => Some(i + 1)
  }

  /**
   * `state` of an entity, from the coordinator's CURRENT data (None before a
   * first successful refresh). The power entity takes the value of the first
   * ECHONET Lite property with code 231 of its appliance's smart meter; a
   * sensor takes `newest_events[key].val` of its device.
   */
  function State(e: Entity, data: Option<Api.Snapshot>): (r: Result<Api.Val, Raised>)
    ensures data.None? ==> r == Failure(TypeError)
    ensures data.Some? && e.Energy? ==>
      var apps := data.value.appliances.entries;
      var id := e.base.uniqueId;
      && (id !in apps ==> r == Failure(KeyError(id)))
      && (id in apps && apps[id].smartMeter.None? ==> r == Failure(KeyError("smart_meter")))
      && (id in apps && apps[id].smartMeter.Some? ==>
            var props := apps[id].smartMeter.value.echonetliteProperties;
            && (r.Failure? <==> (forall i :: 0 <= i < |props| ==> props[i].epc != 231))
            && (r.Failure? ==> r.error == StopIteration)
            && (r.Success? ==> exists i :: 0 <= i < |props| && props[i].epc == 231 && props[i].val == r.value
                                  && forall j :: 0 <= j < i ==> props[j].epc != 231))
    ensures data.Some? && e.Reading? ==>
      var devs := data.value.devices.entries;
      var id := e.base.device.id;
      var key := EventKey(e.kind);
      && (id !in devs ==> r == Failure(KeyError(id)))
      && (id in devs && key !in devs[id].newestEvents.entries ==> r == Failure(KeyError(key)))
      && (id in devs && key in devs[id].newestEvents.entries ==>
            r == Success(devs[id].newestEvents.entries[key].val))
  {
    match data
    case None => Failure(TypeError)
    case Some(s) =>
      match e
      case Energy(b) =>
        if b.uniqueId !in s.appliances.entries then Failure(KeyError(b.uniqueId))
        else
          var appliance := s.appliances.entries[b.uniqueId];
          (match appliance.smartMeter
           case None => Failure(KeyError("smart_meter"))
           case Some(meter) =>
             var props := meter.echonetliteProperties;
             match FirstWithEpc(props, Const.EpcMeasuredInstantaneous)
             case None => Failure(StopIteration)
             case Some(i) => Success(props[i].val))
      case Reading(k, b) =>
        if b.device.id !in s.devices.entries then Failure(KeyError(b.device.id))
        else
          var events := s.devices.entries[b.device.id].newestEvents;
          if EventKey(k) !in events.entries then Failure(KeyError(EventKey(k)))
          else Success(events.entries[EventKey(k)].val)
  }

  /**
   * A sensor's state does not depend on the device object captured at
   * construction: two sensors of one kind on the same device id read the same
   * value from the same data.
   */
  lemma ReadingStateIsCurrent(k: SensorKind, captured: Api.Device, other: Api.Device, data: Option<Api.Snapshot>)
    requires captured.id == other.id
    ensures State(NewReading(k, captured), data) == State(NewReading(k, other), data)
  {
  }

  /**
   * The power reading of a meter listing codes 225 then 231 is the value
   * under 231; a meter without code 231 makes `next` raise StopIteration.
   */
  lemma EnergyStateExample(a: Api.Appliance, data: Api.Snapshot, other: Api.Val)
    requires a.id in data.appliances.entries
    ensures var props := [Api.Property(225, Api.Val("10")), Api.Property(231, Api.Val("450")), Api.Property(231, other)];
      data.appliances.entries[a.id].smartMeter == Some(Api.SmartMeter(props)) ==>
        State(NewEnergy(a), Some(data)) == Success(Api.Val("450"))
    ensures data.appliances.entries[a.id].smartMeter == Some(Api.SmartMeter([Api.Property(225, Api.Val("10"))])) ==>
      State(NewEnergy(a), Some(data)) == Failure(StopIteration)
  {
    var props := [Api.Property(225, Api.Val("10")), Api.Property(231, Api.Val("450")), Api.Property(231, other)];
    assert FirstWithEpc(props[1..], 231) == Some(0);
    assert FirstWithEpc(props, 231) == Some(1);
    var single := [Api.Property(225, Api.Val("10"))];
    assert FirstWithEpc(single[1..], 231) == None;
  }

  /** The newest events `te` 21.5 and `hu` 60, and no `il`. */
  predicate ExampleEvents(events: map<string, Api.Event>) {
    events == map["te" := Api.Event(Api.Val("21.5")), "hu" := Api.Event(Api.Val("60"))]
  }

  lemma ExampleEventsLookup(events: map<string, Api.Event>)
    requires ExampleEvents(events)
    ensures "te" in events && events["te"].val == Api.Val("21.5")
    ensures "hu" in events && events["hu"].val == Api.Val("60")
    ensures "il" !in events
  {
    assert "hu" != "te" by { assert "hu"[0] != "te"[0]; }
    assert "il" != "te" && "il" != "hu" by { assert "il"[0] != "te"[0] && "il"[0] != "hu"[0]; }
  }

  /**
   * A device whose newest events are `te` 21.5 and `hu` 60: the temperature
   * sensor reads 21.5, the humidity sensor 60, and the illuminance sensor
   * raises KeyError("il").
   */
  lemma ReadingStateExample(d: Api.Device, data: Api.Snapshot)
    requires d.id in data.devices.entries
    requires ExampleEvents(data.devices.entries[d.id].newestEvents.entries)
    ensures State(NewReading(Temperature, d), Some(data)) == Success(Api.Val("21.5"))
    ensures State(NewReading(Humidity, d), Some(data)) == Success(Api.Val("60"))
    ensures State(NewReading(Illuminance, d), Some(data)) == Failure(KeyError("il"))
  {
    ExampleEventsLookup(data.devices.entries[d.id].newestEvents.entries);
    ReadingReads(Temperature, d, data);
    ReadingReads(Humidity, d, data);
    ReadingReads(Illuminance, d, data);
  }

  /** A sensor of a device present in the data reads its key's event, or raises KeyError for the key. */
  lemma ReadingReads(k: SensorKind, d: Api.Device, data: Api.Snapshot)
    requires d.id in data.devices.entries
    ensures var events := data.devices.entries[d.id].newestEvents.entries;
      State(NewReading(k, d), Some(data)) ==
        if EventKey(k) in events then Success(events[EventKey(k)].val) else Failure(KeyError(EventKey(k)))
  {
    var e := NewReading(k, d);
    assert e.Reading? && e.kind == k && e.base.device.id == d.id;
  }

  /** The brand at the head of every entity name is free of whitespace at both ends. */
  lemma BrandNotSpace()
    ensures var p := "Nature Remo"; !Text.IsSpace(p[0]) && !Text.IsSpace(p[|p| - 1])
  {
    assert "Nature Remo"[0] == 'N' && "Nature Remo"[10] == 'o';
  }

  /** Stripping "Nature Remo " + a device name only trims the end and keeps the brand. */
  lemma StrippedDeviceName(name: string)
    ensures Text.Strip(Entities.NamePrefix + name) == Text.TrimEnd(Entities.NamePrefix + name)
    ensures |"Nature Remo"| <= |Text.Strip(Entities.NamePrefix + name)|
    ensures Text.Strip(Entities.NamePrefix + name)[..|"Nature Remo"|] == "Nature Remo"
  {
    var p, rest := "Nature Remo", " " + name;
    assert Entities.NamePrefix == p + " ";
    ConcatAssoc(p, " ", name);
    BrandNotSpace();
    Text.StripKeepsPrefix(p, rest);
  }

  /** A sensor's name: "Nature Remo " + device name, trailing whitespace stripped, then the kind. */
  lemma ReadingName(k: SensorKind, d: Api.Device)
    ensures Name(NewReading(k, d)) == Text.TrimEnd("Nature Remo " + d.name) + NameSuffix(k)
    ensures |"Nature Remo"| + |NameSuffix(k)| <= |Name(NewReading(k, d))|
    ensures Name(NewReading(k, d))[..|"Nature Remo"|] == "Nature Remo"
  {
    StrippedDeviceName(d.name);
    var stripped := Text.Strip(Entities.NamePrefix + d.name);
    PrefixOfConcat(stripped, NameSuffix(k), |"Nature Remo"|);
  }

  /** Sensor unique ids determine the device id and the kind. */
  lemma {:induction false} ReadingIdInjective(e1: Entity, e2: Entity)
    requires e1.Reading? && e2.Reading?
    requires UniqueId(e1) == UniqueId(e2)
    ensures e1.base.device.id == e2.base.device.id && e1.kind == e2.kind
  {
    var s1, s2 := "-" + EventKey(e1.kind), "-" + EventKey(e2.kind);
    var u := UniqueId(e1);
    assert |s1| == 3 && |s2| == 3;
    assert u == e1.base.device.id + s1 && u == e2.base.device.id + s2;
    assert |e1.base.device.id| == |e2.base.device.id|;
    assert e1.base.device.id == u[..|u| - 3] == e2.base.device.id;
    assert s1 == u[|u| - 3..] == s2;
    assert EventKey(e1.kind) == s1[1..] && EventKey(e2.kind) == s2[1..];
  }

  /** The power entities, one per smart meter, in the appliances' order (the list comprehension). */
  function EnergyEntities(apps: seq<Api.Appliance>): seq<Entity>
    decreases |apps|
  {
    if apps == [] then []
    else
      var a := apps[|apps| - 1];
      EnergyEntities(apps[..|apps| - 1]) + (if a.kind == SmartMeterType then [NewEnergy(a)] else [])
  }

  /** What one `newest_events` key contributes: one sensor for te, hu or il, nothing otherwise. */
  function KeyEntities(d: Api.Device, key: string): seq<Entity> {
    match KindOfKey(key)
    case Some(k) => [NewReading(k, d)]
    case None => []
  }

  /** The sensors one device contributes for the given `newest_events` keys, in key order. */
  function EventEntities(d: Api.Device, keys: seq<string>): seq<Entity>
    decreases |keys|
  {
    if keys == [] then []
    else EventEntities(d, keys[..|keys| - 1]) + KeyEntities(d, keys[|keys| - 1])
  }

  /** The sensors of all devices, device by device (the nested loop). */
  function DeviceEntities(devs: seq<Api.Device>): seq<Entity>
    decreases |devs|
  {
    if devs == [] then []
    else
      var d := devs[|devs| - 1];
      DeviceEntities(devs[..|devs| - 1]) + EventEntities(d, d.newestEvents.keys)
  }

  lemma EventEntitiesStep(d: Api.Device, keys: seq<string>, j: nat)
    requires j < |keys|
    ensures EventEntities(d, keys[..j + 1]) == EventEntities(d, keys[..j]) + KeyEntities(d, keys[j])
  {
    assert keys[..j + 1][..j] == keys[..j];
  }

  lemma DeviceEntitiesStep(devs: seq<Api.Device>, i: nat)
    requires i < |devs|
    ensures DeviceEntities(devs[..i + 1]) == DeviceEntities(devs[..i]) + EventEntities(devs[i], devs[i].newestEvents.keys)
  {
    assert devs[..i + 1][..i] == devs[..i];
  }

  /** Exactly the smart meters give power entities, and nothing else does. */
  lemma {:induction false} EnergyEntitiesExact(apps: seq<Api.Appliance>)
    ensures forall i :: 0 <= i < |EnergyEntities(apps)| ==> EnergyEntities(apps)[i].Energy?
    ensures forall a :: a in apps && a.kind == SmartMeterType ==> NewEnergy(a) in EnergyEntities(apps)
    ensures forall e :: e in EnergyEntities(apps) ==>
              exists a :: a in apps && a.kind == SmartMeterType && e == NewEnergy(a)
    decreases |apps|
  {
    if apps != [] {
      var init := apps[..|apps| - 1];
      EnergyEntitiesExact(init);
      assert forall x :: x in apps <==> x in init || x == apps[|apps| - 1];
    }
  }

  /** A device's sensors: one per te, hu or il key, none for other keys, all of that device. */
  lemma {:induction false} EventEntitiesExact(d: Api.Device, keys: seq<string>)
    ensures forall i :: 0 <= i < |EventEntities(d, keys)| ==>
              EventEntities(d, keys)[i].Reading? && EventEntities(d, keys)[i].base.device.id == d.id
    ensures forall key :: key in keys && KindOfKey(key).Some? ==>
              NewReading(KindOfKey(key).value, d) in EventEntities(d, keys)
    ensures forall e :: e in EventEntities(d, keys) ==>
              exists key :: key in keys && KindOfKey(key).Some? && e == NewReading(KindOfKey(key).value, d)
    decreases |keys|
  {
    if keys != [] {
      var init := keys[..|keys| - 1];
      EventEntitiesExact(d, init);
      assert forall x :: x in keys <==> x in init || x == keys[|keys| - 1];
    }
  }

  /** The device sensors are exactly one per recognised event key of each device. */
  lemma {:induction false} DeviceEntitiesExact(devs: seq<Api.Device>)
    ensures forall i :: 0 <= i < |DeviceEntities(devs)| ==> DeviceEntities(devs)[i].Reading?
    ensures forall d, key :: d in devs && key in d.newestEvents.keys && KindOfKey(key).Some? ==>
              NewReading(KindOfKey(key).value, d) in DeviceEntities(devs)
    ensures forall e :: e in DeviceEntities(devs) ==>
              exists d, key :: d in devs && key in d.newestEvents.keys && KindOfKey(key).Some?
                && e == NewReading(KindOfKey(key).value, d)
    decreases |devs|
  {
    if devs != [] {
      var init := devs[..|devs| - 1];
      var last := devs[|devs| - 1];
      DeviceEntitiesExact(init);
      EventEntitiesExact(last, last.newestEvents.keys);
      assert forall x :: x in devs <==> x in init || x == last;
      var r := DeviceEntities(devs);
      assert r == DeviceEntities(init) + EventEntities(last, last.newestEvents.keys);
      forall e | e in r
        ensures exists d, key :: d in devs && key in d.newestEvents.keys && KindOfKey(key).Some?
                  && e == NewReading(KindOfKey(key).value, d)
      {
        if e in DeviceEntities(init) {
          var d, key :| d in init && key in d.newestEvents.keys && KindOfKey(key).Some?
                        && e == NewReading(KindOfKey(key).value, d);
          assert d in devs;
        } else {
          assert e in EventEntities(last, last.newestEvents.keys);
          var key :| key in last.newestEvents.keys && KindOfKey(key).Some? && e == NewReading(KindOfKey(key).value, last);
          assert last in devs;
        }
      }
    }
  }

  /** No two entities of the list share a unique id. */
  predicate IdsDistinct(es: seq<Entity>) {
    forall i, j :: 0 <= i < j < |es| ==> UniqueId(es[i]) != UniqueId(es[j])
  }

  lemma IdsDistinctAppend(xs: seq<Entity>, ys: seq<Entity>)
    requires IdsDistinct(xs) && IdsDistinct(ys)
    requires forall x, y :: x in xs && y in ys ==> UniqueId(x) != UniqueId(y)
    ensures IdsDistinct(xs + ys)
  {
    var r := xs + ys;
    forall i, j | 0 <= i < j < |r| ensures UniqueId(r[i]) != UniqueId(r[j]) {
      if j < |xs| {
        assert r[i] == xs[i] && r[j] == xs[j];
      } else if i >= |xs| {
        assert r[i] == ys[i - |xs|] && r[j] == ys[j - |xs|];
      } else {
        assert r[i] in xs && r[j] in ys;
      }
    }
  }

  /** Appliances with distinct ids give one power entity per smart meter: no unique id twice. */
  lemma {:induction false} EnergyIdsDistinct(apps: seq<Api.Appliance>)
    requires forall i, j :: 0 <= i < j < |apps| ==> apps[i].id != apps[j].id
    ensures IdsDistinct(EnergyEntities(apps))
    decreases |apps|
  {
    if apps != [] {
      var init, a := apps[..|apps| - 1], apps[|apps| - 1];
      EnergyIdsDistinct(init);
      EnergyEntitiesExact(init);
      var tail := if a.kind == SmartMeterType then [NewEnergy(a)] else [];
      forall x, y | x in EnergyEntities(init) && y in tail ensures UniqueId(x) != UniqueId(y) {
        var b :| b in init && b.kind == SmartMeterType && x == NewEnergy(b);
        var i :| 0 <= i < |init| && init[i] == b;
        assert apps[i] == b;
      }
      IdsDistinctAppend(EnergyEntities(init), tail);
    }
  }

  /** Distinct event keys give one sensor per recognised key: no unique id twice. */
  lemma {:induction false} EventIdsDistinct(d: Api.Device, keys: seq<string>)
    requires Distinct(keys)
    ensures IdsDistinct(EventEntities(d, keys))
    decreases |keys|
  {
    if keys != [] {
      var init, key := keys[..|keys| - 1], keys[|keys| - 1];
      EventIdsDistinct(d, init);
      EventEntitiesExact(d, init);
      forall x, y | x in EventEntities(d, init) && y in KeyEntities(d, key) ensures UniqueId(x) != UniqueId(y) {
        var k :| k in init && KindOfKey(k).Some? && x == NewReading(KindOfKey(k).value, d);
        var i :| 0 <= i < |init| && init[i] == k;
        assert keys[i] == k;
        if UniqueId(x) == UniqueId(y) {
          ReadingIdInjective(x, y);
          assert false;
        }
      }
      IdsDistinctAppend(EventEntities(d, init), KeyEntities(d, key));
    }
  }

  /** Devices with distinct ids give one sensor per recognised key of each device: no unique id twice. */
  lemma {:induction false} DeviceIdsDistinct(devs: seq<Api.Device>)
    requires forall i, j :: 0 <= i < j < |devs| ==> devs[i].id != devs[j].id
    ensures IdsDistinct(DeviceEntities(devs))
    decreases |devs|
  {
    if devs != [] {
      var init, d := devs[..|devs| - 1], devs[|devs| - 1];
      DeviceIdsDistinct(init);
      EventIdsDistinct(d, d.newestEvents.keys);
      var xs, ys := DeviceEntities(init), EventEntities(d, d.newestEvents.keys);
      forall x, y | x in xs && y in ys ensures UniqueId(x) != UniqueId(y) {
        var i := DeviceEntityOwner(init, x);
        assert devs[i] == init[i];
        EventEntityOwner(d, d.newestEvents.keys, y);
        if UniqueId(x) == UniqueId(y) {
          ReadingIdInjective(x, y);
          assert false;
        }
      }
      IdsDistinctAppend(xs, ys);
    }
  }

  /** A device sensor belongs to one of the devices of the list. */
  lemma {:induction false} DeviceEntityOwner(devs: seq<Api.Device>, x: Entity) returns (i: nat)
    requires x in DeviceEntities(devs)
    ensures i < |devs| && x.Reading? && x.base.device.id == devs[i].id
    decreases |devs|
  {
    var init, d := devs[..|devs| - 1], devs[|devs| - 1];
    if x in DeviceEntities(init) {
      i := DeviceEntityOwner(init, x);
      assert devs[i] == init[i];
    } else {
      EventEntityOwner(d, d.newestEvents.keys, x);
      i := |devs| - 1;
    }
  }

  /** A sensor of a device's event keys belongs to that device. */
  lemma {:induction false} EventEntityOwner(d: Api.Device, keys: seq<string>, x: Entity)
    requires x in EventEntities(d, keys)
    ensures x.Reading? && x.base.device.id == d.id
    decreases |keys|
  {
    if x !in KeyEntities(d, keys[|keys| - 1]) {
      EventEntityOwner(d, keys[..|keys| - 1], x);
    }
  }

  /** The values of an id-keyed table have pairwise distinct ids. */
  lemma ValuesIdsDistinct<V>(t: ValidDict<Api.Id, V>, id: V -> Api.Id)
    requires forall k :: k in t.entries ==> id(t.entries[k]) == k
    ensures forall i, j :: 0 <= i < j < |Values(t)| ==> id(Values(t)[i]) != id(Values(t)[j])
  {
  }

  /**
   * For a snapshot keyed by id, as `get` builds it, the power entities carry
   * one unique id per smart meter and the device sensors one per recognised
   * key of each device.
   */
  lemma SnapshotIdsDistinct(s: Api.Snapshot)
    requires forall k :: k in s.appliances.entries ==> s.appliances.entries[k].id == k
    requires forall k :: k in s.devices.entries ==> s.devices.entries[k].id == k
    ensures IdsDistinct(EnergyEntities(Values(s.appliances)))
    ensures IdsDistinct(DeviceEntities(Values(s.devices)))
  {
    ValuesIdsDistinct(s.appliances, Api.ApplianceId);
    ValuesIdsDistinct(s.devices, Api.DeviceId);
    EnergyIdsDistinct(Values(s.appliances));
    DeviceIdsDistinct(Values(s.devices));
  }

  /** Every entity the platform creates for a snapshot: power entities first, then device sensors. */
  function SnapshotEntities(s: Api.Snapshot): seq<Entity> {
    EnergyEntities(Values(s.appliances)) + DeviceEntities(Values(s.devices))
  }

  /**
   * The platform's `async_setup_entry`: the comprehension over the
   * appliances, then one pass over the devices appending a sensor per
   * recognised event key. Fails as the source does when there is no data.
   */
  method SetupEntities(data: Option<Api.Snapshot>) returns (r: Result<seq<Entity>, Raised>)
    ensures data.None? ==> r == Failure(TypeError)
    ensures data.Some? ==> r.Success? && r.value == SnapshotEntities(data.value)
  {
    if data.None? {
      return Failure(TypeError);
    }
    var appliances := data.value.appliances;
    var devices := Values(data.value.devices);
    var entities := EnergyEntities(Values(appliances));
    ghost var energy := entities;
    var i := 0;
    while i < |devices|
      invariant 0 <= i <= |devices|
      invariant entities == energy + DeviceEntities(devices[..i])
    {
      var device := devices[i];
      var keys := device.newestEvents.keys;
      ghost var before := entities;
      var j := 0;
      while j < |keys|
        invariant 0 <= j <= |keys|
        invariant entities == before + EventEntities(device, keys[..j])
      {
        var sensor := keys[j];
        ghost var done := EventEntities(device, keys[..j]);
        if sensor == "te" {
          entities := entities + [NewReading(Temperature, device)];
        } else if sensor == "hu" {
          entities := entities + [NewReading(Humidity, device)];
        } else if sensor == "il" {
          entities := entities + [NewReading(Illuminance, device)];
        }
        assert entities == (before + done) + KeyEntities(device, sensor);
        ConcatAssoc(before, done, KeyEntities(device, sensor));
        EventEntitiesStep(device, keys, j);
        j := j + 1;
      }
      assert keys[..j] == keys;
      ConcatAssoc(energy, DeviceEntities(devices[..i]), EventEntities(device, keys));
      DeviceEntitiesStep(devices, i);
      i := i + 1;
    }
    assert devices[..i] == devices;
    return Success(entities);
  }

  lemma PrefixOfConcat<T>(x: seq<T>, y: seq<T>, n: nat)
    requires n <= |x|
    ensures (x + y)[..n] == x[..n]
  {
  }

  lemma ConcatAssoc<T>(a: seq<T>, b: seq<T>, c: seq<T>)
    ensures (a + b) + c == a + (b + c)
  {
  }

  /** The power entities come first, then only device sensors. */
  lemma EnergyFirst(s: Api.Snapshot)
    ensures forall i :: 0 <= i < |SnapshotEntities(s)| ==>
              (SnapshotEntities(s)[i].Energy? <==> i < |EnergyEntities(Values(s.appliances))|)
  {
    var energy := EnergyEntities(Values(s.appliances));
    var sensors := DeviceEntities(Values(s.devices));
    AllEnergy(Values(s.appliances));
    AllReadings(Values(s.devices));
    var r := SnapshotEntities(s);
    forall i | 0 <= i < |r| ensures r[i].Energy? <==> i < |energy| {
      if i < |energy| { assert r[i] == energy[i]; } else { assert r[i] == sensors[i - |energy|]; }
    }
  }

  lemma AllEnergy(apps: seq<Api.Appliance>)
    ensures forall i :: 0 <= i < |EnergyEntities(apps)| ==> EnergyEntities(apps)[i].Energy?
  {
    EnergyEntitiesExact(apps);
  }

  lemma AllReadings(devs: seq<Api.Device>)
    ensures forall i :: 0 <= i < |DeviceEntities(devs)| ==> DeviceEntities(devs)[i].Reading?
  {
    DeviceEntitiesExact(devs);
  }
}
