/**
 * The climate platform (custom_components/themo/climate.py): the two mode
 * tables, the HVAC mode and feature set derived from the cached Themo mode,
 * and the guarded writes of temperature, mode and schedule.
 */
module Climate {
  import opened Wrappers
  import opened DeviceProxy
  import Integration
  import Helpers

  /** The host's HVAC modes, of which the integration maps three. */
  datatype HvacMode = Off | Heat | Cool | HeatCool | Auto | Dry | FanOnly

  /** The host's climate feature flags; a feature set stands for their bitwise or. */
  datatype Feature = TargetTemperature | TargetTemperatureRange | TargetHumidity | FanMode
                   | PresetMode | SwingMode | AuxHeat | TurnOff | TurnOn

  datatype TemperatureUnit = Celsius | Fahrenheit

  /** The keyword under which the host passes a new target temperature. */
  const AttrTemperature := "temperature"

  // ---------------------------------------------------------------------
  // Dictionaries, kept as their ordered lists of entries

  /** A dictionary lookup: the value of the last entry with that key. */
  function Get<K(==), V>(d: seq<(K, V)>, key: K): (r: Option<V>)
    ensures r.None? <==> forall i :: 0 <= i < |d| ==> d[i].0 != key
    ensures r.Some? ==> exists i :: 0 <= i < |d| && d[i] == (key, r.value) &&
                                    forall j :: i < j < |d| ==> d[j].0 != key
  {
    if d == [] then None
    else if d[|d| - 1].0 == key then Some(d[|d| - 1].1)
    else Get(d[..|d| - 1], key)
  }

  /** `{v: k for k, v in d.items()}`: the entries with key and value swapped, in the same order. */
  function Invert<K, V>(d: seq<(K, V)>): seq<(V, K)>
  {
    seq(|d|, i requires 0 <= i < |d| => (d[i].1, d[i].0))
  }

  /** `list(d.values())`. */
  function Values<K, V>(d: seq<(K, V)>): seq<V>
  {
    seq(|d|, i requires 0 <= i < |d| => d[i].1)
  }

  /** No two entries share a key, and no two share a value. */
  ghost predicate OneToOne<K, V>(d: seq<(K, V)>)
  {
    forall i, j :: 0 <= i < j < |d| ==> d[i].0 != d[j].0 && d[i].1 != d[j].1
  }

  /**
   * For a one-to-one dictionary, looking a key up and looking its value up
   * in the inverted dictionary agree: both round trips are the identity.
   */
  lemma InvertRoundTrip<K, V>(d: seq<(K, V)>, key: K, value: V)
    requires OneToOne(d)
    ensures Get(d, key) == Some(value) <==> Get(Invert(d), value) == Some(key)
  {
    var inv := Invert(d);
    if Get(d, key) == Some(value) {
      var i :| 0 <= i < |d| && d[i] == (key, value);
      assert inv[i] == (value, key);
      var r := Get(inv, value);
      var l :| 0 <= l < |inv| && inv[l] == (value, r.value);
      assert l == i;
    }
    if Get(inv, value) == Some(key) {
      var i :| 0 <= i < |inv| && inv[i] == (value, key);
      assert d[i] == (key, value);
      var r := Get(d, key);
      var l :| 0 <= l < |d| && d[l] == (key, r.value);
      assert l == i;
    }
  }

  // ---------------------------------------------------------------------
  // The mode tables

  const ThemoToHaModes: seq<(string, HvacMode)> := [("Off", Off), ("Manual", Heat), ("SLS", Auto)]
  const HaToThemoModes: seq<(HvacMode, string)> := Invert(ThemoToHaModes)

  lemma HaToThemoEntries()
    ensures HaToThemoModes == [(Off, "Off"), (Heat, "Manual"), (Auto, "SLS")]
  {
  }

  /** The two tables are inverse to each other, in both directions. */
  lemma ModeTablesInverse()
    ensures forall t: string, m: HvacMode :: Get(ThemoToHaModes, t) == Some(m) <==> Get(HaToThemoModes, m) == Some(t)
  {
    assert OneToOne(ThemoToHaModes);
    forall t: string, m: HvacMode
      ensures Get(ThemoToHaModes, t) == Some(m) <==> Get(HaToThemoModes, m) == Some(t)
    {
      InvertRoundTrip(ThemoToHaModes, t, m);
    }
  }

  /** The modes the entity offers, `list(THEMO_TO_HA_MODES.values())`. */
  const HvacModes: seq<HvacMode> := Values(ThemoToHaModes)

  lemma OfferedModes()
    ensures HvacModes == [Off, Heat, Auto]
    ensures (set m | m in HvacModes) == {Off, Heat, Auto}
  {
  }

  /**
   * `hvac_mode`: the HVAC mode for a cached Themo mode; a mode the table
   * does not know reads as OFF.
   */
  function ModeOf(themoMode: string): (m: HvacMode)
    ensures themoMode == "Off" ==> m == Off
    ensures themoMode == "Manual" ==> m == Heat
    ensures themoMode == "SLS" ==> m == Auto
    ensures themoMode !in {"Off", "Manual", "SLS"} ==> m == Off
  {
    match Get(ThemoToHaModes, themoMode)
    case Some(m) => m
    case None => Off
  }

  /** `supported_features` for the current HVAC mode. */
  function FeaturesFor(m: HvacMode): (f: set<Feature>)
    ensures TurnOn in f && TurnOff in f
    ensures TargetTemperature in f <==> m == Heat
    ensures PresetMode in f <==> m == Auto
    ensures f <= {TargetTemperature, PresetMode, TurnOn, TurnOff}
  {
    if m == Auto then {PresetMode, TurnOn, TurnOff}
    else if m == Heat then {TargetTemperature, TurnOn, TurnOff}
    else {TurnOn, TurnOff}
  }

  /** Python truthiness of `kwargs.get(ATTR_TEMPERATURE)`: present and non-zero. */
  predicate Truthy(t: Option<real>)
  {
    t.Some? && t.value != 0.0
  }

  /** The Themo mode a write of HVAC mode m sends, if any: `HA_TO_THEMO_MODES.get(m)` when truthy. */
  function ThemoModeFor(m: HvacMode): (r: Option<string>)
    ensures r.Some? <==> m in {Off, Heat, Auto}
    ensures r.Some? ==> ModeOf(r.value) == m
    ensures m == Off ==> r == Some("Off")
    ensures m == Heat ==> r == Some("Manual")
    ensures m == Auto ==> r == Some("SLS")
  {
    ModeTablesInverse();
    HaToThemoEntries();
    match Get(HaToThemoModes, m)
    case Some(t) => if t != "" then Some(t) else None
    case None =>
      assert HaToThemoModes[0].0 != m && HaToThemoModes[1].0 != m && HaToThemoModes[2].0 != m;
      None
  }

  function UniqueId(deviceId: string): string
  {
    deviceId + "_climate"
  }

  class ThemoClimate {
    const device: Device
    const coordinator: Integration.Coordinator
    const name: string
    const uniqueId: string
    const temperatureUnit: TemperatureUnit
    const hvacModes: seq<HvacMode>
    const deviceInfo: Helpers.DeviceInfo
    /** How many times the entity has asked the host to write its state. */
    var renders: nat

    constructor (device: Device, coordinator: Integration.Coordinator, deviceInfo: Helpers.DeviceInfo)
      ensures this.device == device && this.coordinator == coordinator && this.deviceInfo == deviceInfo
      ensures name == device.state.name && uniqueId == device.state.deviceId + "_climate"
      ensures temperatureUnit == Celsius && hvacModes == [Off, Heat, Auto]
      ensures renders == 0
    {
      this.device := device;
      this.coordinator := coordinator;
      name := device.state.name;
      uniqueId := UniqueId(device.state.deviceId);
      temperatureUnit := Celsius;
      hvacModes := HvacModes;
      this.deviceInfo := deviceInfo;
      renders := 0;
    }

    function Mode(): HvacMode
      reads device
    {
      ModeOf(device.state.mode)
    }

    function SupportedFeatures(): set<Feature>
      reads device
    {
      FeaturesFor(Mode())
    }

    function CurrentTemperature(): real
      reads device
    {
      device.state.info
    }

    function TargetTemperatureValue(): real
      reads device
    {
      device.state.manualTemperature
    }

    function Preset(): string
      reads device
    {
      device.state.activeSchedule
    }

    function Presets(): seq<string>
      reads device
    {
      device.state.availableSchedules
    }

    /**
     * `async_set_temperature`: only a truthy temperature in HEAT mode is
     * written, and only a write that returns is rendered. `ok` is false
     * exactly when the device call raised.
     */
    method SetTemperature(kwargs: map<string, real>, w: WriteOutcome) returns (ok: bool)
      modifies this, device
      ensures var t := if AttrTemperature in kwargs then Some(kwargs[AttrTemperature]) else None;
        var called := Truthy(t) && old(Mode()) == Heat;
        && ok == (!called || w.Written?)
        && device.state == (if called && ok then old(device.state).(manualTemperature := t.value) else old(device.state))
        && (called && ok ==> TargetTemperatureValue() == t.value)
        && renders == old(renders) + (if called && ok then 1 else 0)
    {
      var temperature := if AttrTemperature in kwargs then Some(kwargs[AttrTemperature]) else None;
      ok := true;
      if Truthy(temperature) && Mode() == Heat {
        ok := device.SetManualTemperature(temperature.value, w);
        if ok {
          renders := renders + 1;
        }
      }
    }

    /**
     * `async_set_hvac_mode`: a mode the table maps is written as its Themo
     * string, after which the entity reads back that mode; an unmapped mode
     * calls nothing and renders nothing.
     */
    method SetHvacMode(m: HvacMode, w: WriteOutcome) returns (ok: bool)
      modifies this, device
      ensures var called := m in {Off, Heat, Auto};
        && ok == (!called || w.Written?)
        && (called && ok ==> device.state == old(device.state).(mode := ThemoModeFor(m).value) && Mode() == m)
        && (!(called && ok) ==> device.state == old(device.state))
        && renders == old(renders) + (if called && ok then 1 else 0)
    {
      ok := true;
      var themoMode := ThemoModeFor(m);
      if themoMode.Some? {
        ok := device.SetMode(themoMode.value, w);
        if ok {
          renders := renders + 1;
        }
      }
    }

    /** `async_set_preset_mode`: the schedule is written unconditionally and then read back. */
    method SetPresetMode(preset: string, w: WriteOutcome) returns (ok: bool)
      modifies this, device
      ensures ok == w.Written?
      ensures device.state == if ok then old(device.state).(activeSchedule := preset) else old(device.state)
      ensures ok ==> Preset() == preset
      ensures renders == old(renders) + if ok then 1 else 0
    {
      ok := device.SetActiveSchedule(preset, w);
      if ok {
        renders := renders + 1;
      }
    }
  }

  /** The platform's `async_setup_entry`: one climate entity per device. */
  method SetupEntry(hass: Integration.Hass) returns (added: Option<seq<Helpers.Construction>>)
    ensures added.None? <==> !Helpers.Loaded(hass.domain)
    ensures added.Some? ==>
      && |added.value| == |hass.domain["devices"].devices|
      && forall i :: 0 <= i < |added.value| ==>
           added.value[i].entityClass == Helpers.ClimateEntity && added.value[i].device == hass.domain["devices"].devices[i]
  {
    added := Helpers.SetupDevice(hass, [Helpers.ClimateEntity]);
    if added.Some? {
      Helpers.PlatformEntities(hass.domain["devices"].devices, hass.domain["coordinator"].coordinator, Helpers.ClimateEntity);
    }
  }
}
