/**
 * The identity strings of all five entity classes taken together: the
 * unique ids that climate.py, light.py and sensor.py build from a device id,
 * and the names they build from a device name.
 */
module EntityIds {
  import opened DeviceProxy
  import Integration
  import Helpers
  import Climate
  import Light
  import Sensor

  /** The unique id the constructor of each entity class sets. */
  function UniqueIdOf(c: Helpers.EntityClass, deviceId: string): string
  {
    match c
    case ClimateEntity => Climate.UniqueId(deviceId)
    case LightEntity => Light.UniqueId(deviceId)
    case PowerSensor => Sensor.PowerUniqueId(deviceId)
    case FloorTemperatureSensor => Sensor.FloorUniqueId(deviceId)
    case RoomTemperatureSensor => Sensor.RoomUniqueId(deviceId)
  }

  /** The entity name the constructor of each entity class sets. */
  function NameOf(c: Helpers.EntityClass, deviceName: string): string
  {
    match c
    case ClimateEntity => deviceName
    case LightEntity => deviceName
    case PowerSensor => Sensor.PowerName(deviceName)
    case FloorTemperatureSensor => Sensor.FloorName(deviceName)
    case RoomTemperatureSensor => Sensor.RoomName(deviceName)
  }

  /** What each class appends to the device id. */
  function Suffix(c: Helpers.EntityClass): string
  {
    match c
    case ClimateEntity => "_climate"
    case LightEntity => "_light"
    case PowerSensor => "_power"
    case FloorTemperatureSensor => "_floor_temperature"
    case RoomTemperatureSensor => "_room_temperature"
  }

  /** Every unique id is the device id followed by the class's suffix. */
  lemma UniqueIdIsSuffixed(c: Helpers.EntityClass, deviceId: string)
    ensures UniqueIdOf(c, deviceId) == deviceId + Suffix(c)
  {
    Sensor.IdsSpelledOut(deviceId, "");
  }

  /**
   * A position, counted from the end, at which the suffixes of two
   * different classes differ; no suffix ends another.
   */
  function DifferFromEnd(c1: Helpers.EntityClass, c2: Helpers.EntityClass): (j: nat)
    requires c1 != c2
    ensures j < |Suffix(c1)| && j < |Suffix(c2)|
    ensures Suffix(c1)[|Suffix(c1)| - 1 - j] != Suffix(c2)[|Suffix(c2)| - 1 - j]
  {
    var s1, s2 := Suffix(c1), Suffix(c2);
    if s1[|s1| - 1] != s2[|s2| - 1] then 0
    else if s1[|s1| - 2] != s2[|s2| - 2] then 1
    // Only the floor and room suffixes agree on their last two characters.
    // Both end in "_temperature", which is 12 characters long, and the
    // character before it is 'r' in one and 'm' in the other.
    else 12
  }

  lemma SameEnding(a: string, s1: string, b: string, s2: string, j: nat)
    requires a + s1 == b + s2
    requires j < |s1| && j < |s2|
    ensures s1[|s1| - 1 - j] == s2[|s2| - 1 - j]
  {
    var u := a + s1;
    assert u[|u| - 1 - j] == s1[|s1| - 1 - j];
    assert u[|u| - 1 - j] == s2[|s2| - 1 - j];
  }

  /**
   * Unique ids never collide: two entities share an id only if they are of
   * the same class for the same device id. In particular the five ids of
   * one device are pairwise distinct.
   */
  lemma UniqueIdsDistinct(c1: Helpers.EntityClass, id1: string, c2: Helpers.EntityClass, id2: string)
    ensures UniqueIdOf(c1, id1) == UniqueIdOf(c2, id2) <==> c1 == c2 && id1 == id2
  {
    UniqueIdIsSuffixed(c1, id1);
    UniqueIdIsSuffixed(c2, id2);
    if UniqueIdOf(c1, id1) == UniqueIdOf(c2, id2) {
      if c1 != c2 {
        SameEnding(id1, Suffix(c1), id2, Suffix(c2), DifferFromEnd(c1, c2));
        assert false;
      }
      assert id1 == (id1 + Suffix(c1))[..|id1|];
      assert id2 == (id2 + Suffix(c2))[..|id2|];
    }
  }

  /**
   * Within one device the names of the three sensors differ from each
   * other and from the device name; the climate and light entities both
   * take the device name itself.
   */
  lemma NamesWithinDevice(c1: Helpers.EntityClass, c2: Helpers.EntityClass, deviceName: string)
    requires c1 != c2
    ensures NameOf(c1, deviceName) == NameOf(c2, deviceName) <==>
      {c1, c2} == {Helpers.ClimateEntity, Helpers.LightEntity}
  {
    Sensor.IdsSpelledOut("", deviceName);
    if {c1, c2} == {Helpers.ClimateEntity, Helpers.LightEntity} {
      assert c1 in {Helpers.ClimateEntity, Helpers.LightEntity};
      assert c2 in {Helpers.ClimateEntity, Helpers.LightEntity};
    } else {
      assert c1 !in {Helpers.ClimateEntity, Helpers.LightEntity} || c2 !in {Helpers.ClimateEntity, Helpers.LightEntity};
      assert |NameOf(c1, deviceName)| != |NameOf(c2, deviceName)|;
    }
  }

  /** Every position of the built entity list is some device's entity of some class. */
  lemma {:induction false} EntityIndex(devices: seq<Device>, coordinator: Integration.Coordinator,
                                      classes: seq<Helpers.EntityClass>, p: nat)
      returns (i: nat, j: nat)
    requires p < |Helpers.Entities(devices, coordinator, classes)|
    ensures i < |devices| && j < |classes| && p == i * |classes| + j
    ensures Helpers.Entities(devices, coordinator, classes)[p].entityClass == classes[j]
    ensures Helpers.Entities(devices, coordinator, classes)[p].device == devices[i]
  {
    var k := |classes|;
    var head := Helpers.ForDevice(devices[0], coordinator, classes);
    if p < k {
      i, j := 0, p;
    } else {
      Helpers.EntitiesLength(devices[1..], coordinator, classes);
      var i', j' := EntityIndex(devices[1..], coordinator, classes, p - k);
      i, j := i' + 1, j';
      Helpers.MulStep(i, k);
    }
  }

  /**
   * When the device ids are distinct and each class is given once, no two
   * entities of the whole setup share a unique id.
   */
  lemma EntityIdsUnique(devices: seq<Device>, coordinator: Integration.Coordinator,
                        classes: seq<Helpers.EntityClass>, p: nat, q: nat)
    requires forall a, b :: 0 <= a < b < |devices| ==> devices[a].state.deviceId != devices[b].state.deviceId
    requires forall a, b :: 0 <= a < b < |classes| ==> classes[a] != classes[b]
    requires p < q < |Helpers.Entities(devices, coordinator, classes)|
    ensures var e := Helpers.Entities(devices, coordinator, classes);
      UniqueIdOf(e[p].entityClass, e[p].device.state.deviceId) != UniqueIdOf(e[q].entityClass, e[q].device.state.deviceId)
  {
    var e := Helpers.Entities(devices, coordinator, classes);
    var i1, j1 := EntityIndex(devices, coordinator, classes, p);
    var i2, j2 := EntityIndex(devices, coordinator, classes, q);
    UniqueIdsDistinct(e[p].entityClass, e[p].device.state.deviceId, e[q].entityClass, e[q].device.state.deviceId);
    if i1 == i2 {
      assert j1 != j2;
    } else {
      assert devices[i1].state.deviceId != devices[i2].state.deviceId;
    }
  }
}
