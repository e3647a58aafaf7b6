/**
 * The sensor platform (custom_components/themo/sensor.py): power, floor
 * temperature and room temperature sensors, whose names and unique ids are
 * built from the entity descriptions' names and keys.
 */
module Sensor {
  import opened Wrappers
  import opened DeviceProxy
  import Integration
  import Helpers

  /** `POWER_SENSOR_DESCRIPTION.key` and `.name`. */
  const PowerKey := "power"
  const PowerLabel := "Power"
  /** `TEMPERATURE_SENSOR_DESCRIPTION.key`. */
  const TemperatureKey := "temperature"

  /** The sensor classes, in the order the platform registers them. */
  const SensorClasses := [Helpers.PowerSensor, Helpers.FloorTemperatureSensor, Helpers.RoomTemperatureSensor]

  function PowerUniqueId(deviceId: string): string
  {
    deviceId + "_" + PowerKey
  }

  function FloorUniqueId(deviceId: string): string
  {
    deviceId + "_floor_" + TemperatureKey
  }

  function RoomUniqueId(deviceId: string): string
  {
    deviceId + "_room_" + TemperatureKey
  }

  function PowerName(deviceName: string): string
  {
    deviceName + " " + PowerLabel
  }

  function FloorName(deviceName: string): string
  {
    deviceName + " floor temperature"
  }

  function RoomName(deviceName: string): string
  {
    deviceName + " room temperature"
  }

  // The constant-folded forms of the ids and names.
  lemma IdsSpelledOut(deviceId: string, deviceName: string)
    ensures PowerUniqueId(deviceId) == deviceId + "_power"
    ensures FloorUniqueId(deviceId) == deviceId + "_floor_temperature"
    ensures RoomUniqueId(deviceId) == deviceId + "_room_temperature"
    ensures PowerName(deviceName) == deviceName + " Power"
  {
    assert "_" + PowerKey == "_power";
    assert "_floor_" + TemperatureKey == "_floor_temperature";
    assert "_room_" + TemperatureKey == "_room_temperature";
    assert " " + PowerLabel == " Power";
  }

  class ThemoPowerSensor {
    const device: Device
    const coordinator: Integration.Coordinator
    const name: string
    const uniqueId: string
    const deviceInfo: Helpers.DeviceInfo

    constructor (device: Device, coordinator: Integration.Coordinator, deviceInfo: Helpers.DeviceInfo)
      ensures this.device == device && this.coordinator == coordinator && this.deviceInfo == deviceInfo
      ensures name == device.state.name + " Power" && uniqueId == device.state.deviceId + "_power"
    {
      this.device := device;
      this.coordinator := coordinator;
      name := PowerName(device.state.name);
      uniqueId := PowerUniqueId(device.state.deviceId);
      this.deviceInfo := deviceInfo;
      IdsSpelledOut(device.state.deviceId, device.state.name);
    }
  }

  class ThemoFloorTemperatureSensor {
    const device: Device
    const coordinator: Integration.Coordinator
    const name: string
    const uniqueId: string
    const deviceInfo: Helpers.DeviceInfo

    constructor (device: Device, coordinator: Integration.Coordinator, deviceInfo: Helpers.DeviceInfo)
      ensures this.device == device && this.coordinator == coordinator && this.deviceInfo == deviceInfo
      ensures name == device.state.name + " floor temperature"
      ensures uniqueId == device.state.deviceId + "_floor_temperature"
    {
      this.device := device;
      this.coordinator := coordinator;
      name := FloorName(device.state.name);
      uniqueId := FloorUniqueId(device.state.deviceId);
      this.deviceInfo := deviceInfo;
      IdsSpelledOut(device.state.deviceId, device.state.name);
    }

    /** The state: the cached floor temperature, as it is. */
    function State(): real
      reads device
    {
      device.state.floorTemperature
    }
  }

  class ThemoRoomTemperatureSensor {
    const device: Device
    const coordinator: Integration.Coordinator
    const name: string
    const uniqueId: string
    const deviceInfo: Helpers.DeviceInfo

    constructor (device: Device, coordinator: Integration.Coordinator, deviceInfo: Helpers.DeviceInfo)
      ensures this.device == device && this.coordinator == coordinator && this.deviceInfo == deviceInfo
      ensures name == device.state.name + " room temperature"
      ensures uniqueId == device.state.deviceId + "_room_temperature"
    {
      this.device := device;
      this.coordinator := coordinator;
      name := RoomName(device.state.name);
      uniqueId := RoomUniqueId(device.state.deviceId);
      this.deviceInfo := deviceInfo;
      IdsSpelledOut(device.state.deviceId, device.state.name);
    }

    /** The state: the cached room temperature, as it is. */
    function State(): real
      reads device
    {
      device.state.roomTemperature
    }
  }

  /**
   * The platform's `async_setup_entry`: three sensors per device, power,
   * floor and room, in that order for each device.
   */
  method SetupEntry(hass: Integration.Hass) returns (added: Option<seq<Helpers.Construction>>)
    ensures added.None? <==> !Helpers.Loaded(hass.domain)
    ensures added.Some? ==>
      && |added.value| == 3 * |hass.domain["devices"].devices|
      && forall i :: 0 <= i < |hass.domain["devices"].devices| ==>
           && added.value[3 * i].entityClass == Helpers.PowerSensor
           && added.value[3 * i + 1].entityClass == Helpers.FloorTemperatureSensor
           && added.value[3 * i + 2].entityClass == Helpers.RoomTemperatureSensor
           && added.value[3 * i].device == hass.domain["devices"].devices[i]
           && added.value[3 * i + 1].device == hass.domain["devices"].devices[i]
           && added.value[3 * i + 2].device == hass.domain["devices"].devices[i]
  {
    added := Helpers.SetupDevice(hass, SensorClasses);
    if added.Some? {
      var devices := hass.domain["devices"].devices;
      var coordinator := hass.domain["coordinator"].coordinator;
      Helpers.EntitiesLength(devices, coordinator, SensorClasses);
      forall i | 0 <= i < |devices|
        ensures added.value[3 * i].entityClass == Helpers.PowerSensor
        ensures added.value[3 * i + 1].entityClass == Helpers.FloorTemperatureSensor
        ensures added.value[3 * i + 2].entityClass == Helpers.RoomTemperatureSensor
        ensures added.value[3 * i].device == devices[i]
        ensures added.value[3 * i + 1].device == devices[i]
        ensures added.value[3 * i + 2].device == devices[i]
      {
        Helpers.EntityAt(devices, coordinator, SensorClasses, i, 0);
        Helpers.EntityAt(devices, coordinator, SensorClasses, i, 1);
        Helpers.EntityAt(devices, coordinator, SensorClasses, i, 2);
      }
    }
  }
}
