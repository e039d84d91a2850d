/**
 * The entity base classes `NatureRemoBase` (an appliance's entity) and
 * `NatureRemoDeviceBase` (a device's entity) of custom_components/nature_remo/__init__.py:
 * the identity fixed at construction and the properties read from it.
 */
module Entities {
  import Api
  import Const

  /** What `__init__` stores: the display name, the unique id and the device object. */
  datatype Base = Base(name: string, uniqueId: string, device: Api.DeviceRef)

  /** The `device_info` dictionary. */
  datatype DeviceInfo = DeviceInfo(
    identifiers: set<(string, string)>, name: string, manufacturer: string,
    model: string, swVersion: string)

  const NamePrefix: string := "Nature Remo "

  /** `NatureRemoBase.__init__(coordinator, appliance)`. */
  function ApplianceBase(a: Api.Appliance): Base {
    Base(NamePrefix + a.nickname, a.id, a.device)
  }

  /** The fields of a device that `device_info` reads. */
  function Summary(d: Api.Device): Api.DeviceRef {
    Api.DeviceRef(d.id, d.name, d.serialNumber, d.firmwareVersion)
  }

  /** `NatureRemoDeviceBase.__init__(coordinator, device)`. */
  function DeviceBase(d: Api.Device): Base {
    Base(NamePrefix + d.name, d.id, Summary(d))
  }

  /** `device_info`: one identifier `(DOMAIN, device id)` and the device's model data. */
  function Info(b: Base): DeviceInfo {
    DeviceInfo({(Const.Domain, b.device.id)}, b.device.name, "Nature Remo",
               b.device.serialNumber, b.device.firmwareVersion)
  }

  /** `should_poll`: entities are pushed by the coordinator, never polled. */
  function ShouldPoll(b: Base): bool {
    false
  }

  /** The nickname or device name back from an entity name. */
  function NameSubject(name: string): string
    requires |NamePrefix| <= |name|
  {
    name[|NamePrefix|..]
  }

  /**
   * An appliance entity's identity: its name is the prefix followed by the
   * nickname (which can be read back), its unique id is the appliance id, it
   * is not polled, and its device info names exactly the appliance's device.
   */
  lemma ApplianceIdentity(a: Api.Appliance)
    ensures var b := ApplianceBase(a);
      && |NamePrefix| <= |b.name| && b.name[..|NamePrefix|] == "Nature Remo "
      && NameSubject(b.name) == a.nickname
      && b.uniqueId == a.id
      && !ShouldPoll(b)
      && Info(b).identifiers == {("nature_remo", a.device.id)}
      && Info(b).name == a.device.name
      && Info(b).manufacturer == "Nature Remo"
      && Info(b).model == a.device.serialNumber
      && Info(b).swVersion == a.device.firmwareVersion
  {
    var b := ApplianceBase(a);
    assert b.name[|NamePrefix|..] == a.nickname;
  }

  /** A device entity's identity follows the same rules with the device's own name and id. */
  lemma DeviceIdentity(d: Api.Device)
    ensures var b := DeviceBase(d);
      && |NamePrefix| <= |b.name| && b.name[..|NamePrefix|] == "Nature Remo "
      && NameSubject(b.name) == d.name
      && b.uniqueId == d.id
      && !ShouldPoll(b)
      && Info(b).identifiers == {("nature_remo", d.id)}
      && Info(b).name == d.name
      && Info(b).manufacturer == "Nature Remo"
      && Info(b).model == d.serialNumber
      && Info(b).swVersion == d.firmwareVersion
  {
    var b := DeviceBase(d);
    assert b.name[|NamePrefix|..] == d.name;
  }

  /** Entities of an appliance and of the device it sits on are grouped under one device. */
  lemma SameDeviceSameInfo(a: Api.Appliance, d: Api.Device)
    requires a.device == Summary(d)
    ensures Info(ApplianceBase(a)) == Info(DeviceBase(d))
  {
  }

  /** Different nicknames give different names. */
  lemma ApplianceNamesDistinct(a1: Api.Appliance, a2: Api.Appliance)
    requires a1.nickname != a2.nickname
    ensures ApplianceBase(a1).name != ApplianceBase(a2).name
  {
    ApplianceIdentity(a1);
    ApplianceIdentity(a2);
  }
}
