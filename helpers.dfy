/**
 * The shared platform setup (custom_components/themo/helpers.py): one entity
 * of each given class for every device, all sharing the coordinator, each
 * carrying the device information of its own device.
 */
module Helpers {
  import opened Wrappers
  import opened DeviceProxy
  import Integration

  const Manufacturer := "Themo"
  const Model := "Smart Thermostat"

  /** The device registry record every entity of a device carries. */
  datatype DeviceInfo = DeviceInfo(
    identifiers: set<(string, string)>,
    name: string,
    manufacturer: string,
    model: string,
    swVersion: string)

  /** The entity classes of the integration's three platforms. */
  datatype EntityClass =
    | ClimateEntity
    | LightEntity
    | PowerSensor
    | FloorTemperatureSensor
    | RoomTemperatureSensor

  /** One `entity_class(device, coordinator, device_info)` call. */
  datatype Construction = Construction(
    entityClass: EntityClass,
    device: Device,
    coordinator: Integration.Coordinator,
    info: DeviceInfo)

  /** The entities built for one device, one per class, in class order. */
  function ForDevice(d: Device, coordinator: Integration.Coordinator, classes: seq<EntityClass>): seq<Construction>
    reads d
  {
    var info := DeviceInfo(
      identifiers := {(Integration.Domain, d.state.deviceId)},
      name := d.state.name,
      manufacturer := Manufacturer,
      model := Model,
      swVersion := d.state.swVersion);
    seq(|classes|, j requires 0 <= j < |classes| => Construction(classes[j], d, coordinator, info))
  }

  /** The list comprehension over devices (outer) and entity classes (inner). */
  function Entities(devices: seq<Device>, coordinator: Integration.Coordinator, classes: seq<EntityClass>): (r: seq<Construction>)
    reads devices
  {
    if devices == [] then []
    else ForDevice(devices[0], coordinator, classes) + Entities(devices[1..], coordinator, classes)
  }

  lemma MulStep(n: nat, k: nat)
    requires n > 0
    ensures n * k == k + (n - 1) * k
  {
  }

  /** There are |devices| * |classes| entities. */
  lemma {:induction false} EntitiesLength(devices: seq<Device>, coordinator: Integration.Coordinator, classes: seq<EntityClass>)
    ensures |Entities(devices, coordinator, classes)| == |devices| * |classes|
  {
    if devices != [] {
      EntitiesLength(devices[1..], coordinator, classes);
      MulStep(|devices|, |classes|);
    }
  }

  /**
   * The product is laid out device-major: the entity at position
   * i * |classes| + j is of class j for device i, with that device's
   * information and the shared coordinator.
   */
  lemma {:induction false} EntityAt(devices: seq<Device>, coordinator: Integration.Coordinator, classes: seq<EntityClass>, i: nat, j: nat)
    requires i < |devices| && j < |classes|
    ensures i * |classes| + j < |Entities(devices, coordinator, classes)|
    ensures Entities(devices, coordinator, classes)[i * |classes| + j] ==
      Construction(classes[j], devices[i], coordinator,
        DeviceInfo({(Integration.Domain, devices[i].state.deviceId)}, devices[i].state.name,
                   Manufacturer, Model, devices[i].state.swVersion))
  {
    var k := |classes|;
    if i > 0 {
      EntityAt(devices[1..], coordinator, classes, i - 1, j);
      MulStep(i, k);
      assert devices[1..][i - 1] == devices[i];
    }
  }

  /** With no devices or no entity classes, nothing is built. */
  lemma EntitiesEmpty(devices: seq<Device>, coordinator: Integration.Coordinator, classes: seq<EntityClass>)
    requires devices == [] || classes == []
    ensures Entities(devices, coordinator, classes) == []
  {
    EntitiesLength(devices, coordinator, classes);
  }

  /** Every entity built receives the one coordinator passed in. */
  lemma {:induction false} EntitiesShareCoordinator(devices: seq<Device>, coordinator: Integration.Coordinator, classes: seq<EntityClass>)
    ensures forall e :: e in Entities(devices, coordinator, classes) ==> e.coordinator == coordinator
  {
    if devices != [] {
      EntitiesShareCoordinator(devices[1..], coordinator, classes);
    }
  }

  /**
   * A platform with one entity class builds one entity of that class per
   * device: entity i is for device i.
   */
  lemma PlatformEntities(devices: seq<Device>, coordinator: Integration.Coordinator, c: EntityClass)
    ensures |Entities(devices, coordinator, [c])| == |devices|
    ensures forall i :: 0 <= i < |devices| ==>
      Entities(devices, coordinator, [c])[i].entityClass == c && Entities(devices, coordinator, [c])[i].device == devices[i]
  {
    EntitiesLength(devices, coordinator, [c]);
    forall i | 0 <= i < |devices|
      ensures Entities(devices, coordinator, [c])[i].entityClass == c && Entities(devices, coordinator, [c])[i].device == devices[i]
    {
      EntityAt(devices, coordinator, [c], i, 0);
    }
  }

  /** Whether `hass.data[DOMAIN]` holds both the device list and the coordinator. */
  predicate Loaded(domain: map<string, Integration.Stored>)
  {
    && "devices" in domain && domain["devices"].StoredDevices?
    && "coordinator" in domain && domain["coordinator"].StoredCoordinator?
  }

  /**
   * `async_setup_device`: read the devices and the coordinator from
   * `hass.data[DOMAIN]` and return the one list given to
   * `async_add_entities`; None when the lookup raises.
   */
  method SetupDevice(hass: Integration.Hass, classes: seq<EntityClass>) returns (added: Option<seq<Construction>>)
    ensures added.None? <==> !Loaded(hass.domain)
    ensures added.Some? ==>
      added.value == Entities(hass.domain["devices"].devices, hass.domain["coordinator"].coordinator, classes)
  {
    if !Loaded(hass.domain) {
      return None;
    }
    var devices := hass.domain["devices"].devices;
    var coordinator := hass.domain["coordinator"].coordinator;
    added := Some(Entities(devices, coordinator, classes));
  }
}
