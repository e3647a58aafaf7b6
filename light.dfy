/**
 * The light platform (custom_components/themo/light.py): an on/off light
 * whose state is the cached light relay and whose commands write through.
 */
module Light {
  import opened Wrappers
  import opened DeviceProxy
  import Integration
  import Helpers

  /** The host's light colour modes. */
  datatype ColorMode = Unknown | OnOff | Brightness | ColorTemp | Hs | Xy | Rgb | Rgbw | Rgbww | White

  function UniqueId(deviceId: string): string
  {
    deviceId + "_light"
  }

  class ThemoLight {
    const device: Device
    const coordinator: Integration.Coordinator
    const name: string
    const uniqueId: string
    const supportedColorModes: set<ColorMode>
    const colorMode: ColorMode
    const deviceInfo: Helpers.DeviceInfo
    /** How many times the entity has asked the host to write its state. */
    var renders: nat

    constructor (device: Device, coordinator: Integration.Coordinator, deviceInfo: Helpers.DeviceInfo)
      ensures this.device == device && this.coordinator == coordinator && this.deviceInfo == deviceInfo
      ensures name == device.state.name && uniqueId == device.state.deviceId + "_light"
      ensures supportedColorModes == {OnOff} && colorMode == OnOff && colorMode in supportedColorModes
      ensures renders == 0
    {
      this.device := device;
      this.coordinator := coordinator;
      name := device.state.name;
      supportedColorModes := {OnOff};
      colorMode := OnOff;
      uniqueId := UniqueId(device.state.deviceId);
      this.deviceInfo := deviceInfo;
      renders := 0;
    }

    /** `is_on`: the cached light relay, as it is. */
    function IsOn(): bool
      reads device
    {
      device.state.lights
    }

    /**
     * `async_turn_on`: write `True` and render; the keyword arguments play
     * no part. `ok` is false exactly when the device call raised, and then
     * nothing changed.
     */
    method TurnOn(kwargs: map<string, real>, w: WriteOutcome) returns (ok: bool)
      modifies this, device
      ensures ok == w.Written?
      ensures device.state == if ok then old(device.state).(lights := true) else old(device.state)
      ensures ok ==> IsOn()
      ensures renders == old(renders) + if ok then 1 else 0
    {
      ok := device.SetLights(true, w);
      if ok {
        renders := renders + 1;
      }
    }

    /** `async_turn_off`: write `False` and render, as for TurnOn. */
    method TurnOff(kwargs: map<string, real>, w: WriteOutcome) returns (ok: bool)
      modifies this, device
      ensures ok == w.Written?
      ensures device.state == if ok then old(device.state).(lights := false) else old(device.state)
      ensures ok ==> !IsOn()
      ensures renders == old(renders) + if ok then 1 else 0
    {
      ok := device.SetLights(false, w);
      if ok {
        renders := renders + 1;
      }
    }
  }

  /**
   * Turning on twice, with any keyword arguments, leaves the device as
   * turning on once does; only the render count differs.
   */
  method TurnOnTwice(light: ThemoLight, first: map<string, real>, second: map<string, real>)
    modifies light, light.device
    ensures light.device.state == old(light.device.state).(lights := true)
    ensures light.renders == old(light.renders) + 2
  {
    var ok := light.TurnOn(first, Written);
    ghost var once := light.device.state;
    ok := light.TurnOn(second, Written);
    assert light.device.state == once;
  }

  /** Turning off twice leaves the device as turning off once does. */
  method TurnOffTwice(light: ThemoLight, first: map<string, real>, second: map<string, real>)
    modifies light, light.device
    ensures light.device.state == old(light.device.state).(lights := false)
    ensures light.renders == old(light.renders) + 2
  {
    var ok := light.TurnOff(first, Written);
    ghost var once := light.device.state;
    ok := light.TurnOff(second, Written);
    assert light.device.state == once;
  }

  /** The platform's `async_setup_entry`: one light entity per device. */
  method SetupEntry(hass: Integration.Hass) returns (added: Option<seq<Helpers.Construction>>)
    ensures added.None? <==> !Helpers.Loaded(hass.domain)
    ensures added.Some? ==>
      && |added.value| == |hass.domain["devices"].devices|
      && forall i :: 0 <= i < |added.value| ==>
           added.value[i].entityClass == Helpers.LightEntity && added.value[i].device == hass.domain["devices"].devices[i]
  {
    added := Helpers.SetupDevice(hass, [Helpers.LightEntity]);
    if added.Some? {
      Helpers.PlatformEntities(hass.domain["devices"].devices, hass.domain["coordinator"].coordinator, Helpers.LightEntity);
    }
  }
}
