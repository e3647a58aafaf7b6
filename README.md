# Themo integration for Home Assistant, modelled in Dafny

This project models the Themo custom component, which exposes cloud-connected
Themo thermostats as Home Assistant entities: one climate entity, one light and
three sensors per device. It is kept in sync by one update coordinator.

- The remote device is the pythemo `Device` proxy (module `DeviceProxy`). Its cached
  state is one `Snapshot` record. The integration only calls the proxy, so each call
  is modelled by the contract the integration relies on. A call to `update_state`
  has its outcome given as a parameter: `Fetched(snapshot)`, `ConnectTimeout` or
  `OtherError`. A fetch replaces the whole snapshot at once, except the device id,
  which is the proxy's own identity. A raise changes nothing.
  A `set_*` call that returns has written its value into the cache; one that raises
  (`WriteFailed`) has changed nothing.
- `Integration` (`__init__.py`) holds the refresh pass `UpdateData`. It is a loop
  over the fixed device list that updates each proxy in place. A connect timeout is
  absorbed per device: one warning naming the device, stale state kept, the pass goes
  on. Any other error aborts the pass at that device. The loop's invariants and
  postconditions are stated through the functions `FirstError`, `Range`,
  `Partial`/`AfterPass` and `Warnings`. Lemmas about those functions state the
  failure-isolation rules. The lemma `WarningsNameTimedOut` ties `Warnings` to
  `TimedOut`, the list of timed-out positions. The module also
  models `async_setup_entry`: a trace of its steps, `hass.data[DOMAIN]` as a map,
  and a fresh `Coordinator`. It also models `async_unload_entry`, which clears the
  data only when the unload succeeded.
- `Helpers` (`helpers.py`) builds the devices × entity-classes product. This is a
  list of constructor calls (`Construction`): device-major, one shared coordinator,
  and each device's own `DeviceInfo`. The list is passed once to `async_add_entities`.
- `Climate`, `Light` and `Sensor` model the three platforms. Every entity class keeps
  its device. `ThemoClimate` and `ThemoLight` also keep a render counter, which
  stands for `async_write_ha_state`. The sensors never call it, so they have no counter.
  The mode dictionaries are ordered lists of entries, because `hvac_modes` depends on
  that order. The inverse table is computed from the first table, as the source
  computes it.
- `EntityIds` proves facts about the unique ids and names of all five entity classes
  together.
- `ConfigFlow` (`config_flow.py`) maps one authentication attempt either to a new
  entry or to the form with exactly one error code.

Three behaviours of the code are easy to misread; the model follows the code:

- Only `httpx.ConnectTimeout` is absorbed per device. Every other exception, a read
  timeout included, aborts the pass.
- A failed initial refresh does not stop setup. `async_refresh` records the failure
  and returns, and the code goes on to store the data and forward the platforms.
  `SetupEntry` then leaves a coordinator with `lastUpdateSuccess == false` and no data.
- A missing credential in the user step raises a `KeyError` inside the `try`.
  The catch-all `except` treats it as "unknown".

## Model

| member | source | states |
|---|---|---|
| `DeviceProxy.Apply` | custom_components/themo/__init__.py:41 | assumed proxy contract: a fetch takes every fetched field but keeps the device id; a raise leaves the snapshot unchanged |
| `DeviceProxy.Device.UpdateState` | custom_components/themo/__init__.py:41 | the cached snapshot becomes `Apply` of the old one and the call's outcome |
| `DeviceProxy.Device.SetMode` | custom_components/themo/climate.py:116 | assumed write-through: a returning call sets the cached mode, a raising one changes nothing |
| `DeviceProxy.Device.SetManualTemperature` | custom_components/themo/climate.py:109 | assumed write-through of the manual temperature |
| `DeviceProxy.Device.SetActiveSchedule` | custom_components/themo/climate.py:121 | assumed write-through of the active schedule |
| `DeviceProxy.Device.SetLights` | custom_components/themo/light.py:58 | assumed write-through of the light relay |
| `Integration.FirstError` | custom_components/themo/__init__.py:39-43 | the position where the pass stops: every earlier outcome is a fetch or a connect timeout, and the outcome there is another error; the list length if there is none |
| `Integration.TimedOut` | custom_components/themo/__init__.py:40-43 | the positions below n whose call timed out, strictly increasing, each one a timeout, and containing every timeout below n |
| `Integration.WarningsNameTimedOut` | custom_components/themo/__init__.py:42-43 | the warnings logged are the names of exactly the timed-out devices, in list order |
| `Integration.UpdateData` | custom_components/themo/__init__.py:37-44 | devices are attempted in list order up to and including the first other error; states become `AfterPass` of the old states; one warning per timeout before that point; the same list is returned, or the pass raises at the error's position |
| `Integration.NoErrorRefreshesAll` | custom_components/themo/__init__.py:39-41 | with no error besides timeouts, the pass reaches the end and every device takes its own outcome |
| `Integration.TimeoutIsIsolated` | custom_components/themo/__init__.py:40-43 | a timeout on a device the pass reaches keeps that device's state, puts it among the warned devices exactly once, and the pass goes on past it |
| `Integration.AllTimeoutsKeepState` | custom_components/themo/__init__.py:39-44 | when every device times out, the pass returns, every state is unchanged and one warning names each device in list order |
| `Integration.PassKeepsIds` | custom_components/themo/__init__.py:39-43 | a pass keeps every device's id, so the unique ids built at setup keep naming their devices |
| `Integration.ErrorAbortsPass` | custom_components/themo/__init__.py:39-43 | another error at device k stops the pass there: devices before k have their outcomes, k and later devices are unchanged |
| `Integration.Coordinator.constructor` | custom_components/themo/__init__.py:46-52 | the coordinator captures the device list, its name and the two-minute interval, and starts with no data |
| `Integration.Coordinator.Refresh` | custom_components/themo/__init__.py:55 | one pass; its data becomes the returned list exactly when the pass returns, and a raised pass is recorded as a failed update |
| `Integration.SetupEntry` | custom_components/themo/__init__.py:24-60 | setup steps in order: authenticate, list devices, initial refresh, store devices and coordinator, forward the light, climate and sensor setups; any raise before the refresh stores nothing and forwards nothing |
| `Integration.UnloadEntry` | custom_components/themo/__init__.py:63-70 | unloads the three platforms; clears `hass.data[DOMAIN]` exactly when the unload succeeded, and returns that result |
| `Helpers.EntitiesLength` | custom_components/themo/helpers.py:25-39 | the product has exactly devices × classes entities |
| `Helpers.EntityAt` | custom_components/themo/helpers.py:25-39 | device-major order: position i·\|classes\|+j holds class j for device i, with the shared coordinator and device info {(themo, id)}, that device's name and sw_version, "Themo", "Smart Thermostat" |
| `Helpers.EntitiesEmpty` | custom_components/themo/helpers.py:25-39 | with no devices or no classes the list is empty |
| `Helpers.EntitiesShareCoordinator` | custom_components/themo/helpers.py:24-28 | every entity receives the same coordinator |
| `Helpers.PlatformEntities` | custom_components/themo/helpers.py:37-38 | a single entity class yields one entity of that class per device, entity i for device i |
| `Helpers.SetupDevice` | custom_components/themo/helpers.py:16-41 | reads devices and coordinator from `hass.data[DOMAIN]` (a lookup failure when either is missing) and passes the whole product to one `async_add_entities` call |
| `Climate.Get` | custom_components/themo/climate.py:93 | dictionary lookup: None exactly when no entry has the key, otherwise the value of the last entry with that key |
| `Climate.InvertRoundTrip` | custom_components/themo/climate.py:32 | for a one-to-one table, a key looks up to a value exactly when that value looks up to the key in the inverted table |
| `Climate.ModeTablesInverse` | custom_components/themo/climate.py:27-32 | `HA_TO_THEMO_MODES` is the exact inverse of `THEMO_TO_HA_MODES`, both directions |
| `Climate.OfferedModes` | custom_components/themo/climate.py:59 | the offered HVAC modes are OFF, HEAT, AUTO in that order |
| `Climate.ModeOf` | custom_components/themo/climate.py:90-93 | "Off", "Manual" and "SLS" read as OFF, HEAT and AUTO; any other remote mode reads as OFF |
| `Climate.FeaturesFor` | custom_components/themo/climate.py:62-78 | always TURN_ON and TURN_OFF; TARGET_TEMPERATURE exactly in HEAT; PRESET_MODE exactly in AUTO; nothing else |
| `Climate.ThemoModeFor` | custom_components/themo/climate.py:112-115 | a Themo string is sent exactly for OFF, HEAT and AUTO: "Off", "Manual" and "SLS", each reading back as the requested mode |
| `Climate.ThemoClimate.constructor` | custom_components/themo/climate.py:47-60 | name is the device name, unique id is device id + "_climate", unit Celsius, modes [OFF, HEAT, AUTO] |
| `Climate.ThemoClimate.SetTemperature` | custom_components/themo/climate.py:105-110 | writes and renders only for a present non-zero temperature in HEAT mode, after which the target temperature reads back the value sent; otherwise, or when the write raises, nothing changes |
| `Climate.ThemoClimate.SetHvacMode` | custom_components/themo/climate.py:112-117 | an unmapped mode makes no call and no render; a mapped one writes its Themo string, then the entity reads back the requested mode |
| `Climate.ThemoClimate.SetPresetMode` | custom_components/themo/climate.py:119-122 | writes unconditionally; after a returning write the preset reads back the written schedule |
| `Climate.SetupEntry` | custom_components/themo/climate.py:35-41 | one climate entity per device, entity i for device i, in device order |
| `Light.ThemoLight.constructor` | custom_components/themo/light.py:35-48 | name is the device name, unique id is device id + "_light", the only supported and active colour mode is ONOFF |
| `Light.ThemoLight.TurnOn` | custom_components/themo/light.py:55-59 | writes True whatever the keyword arguments, then renders; afterwards `is_on` holds; a raising write changes nothing |
| `Light.ThemoLight.TurnOff` | custom_components/themo/light.py:61-65 | writes False whatever the keyword arguments, then renders; afterwards `is_on` is false |
| `Light.TurnOnTwice` | custom_components/themo/light.py:55-59 | turning on twice, with any arguments, leaves the device as turning on once |
| `Light.TurnOffTwice` | custom_components/themo/light.py:61-65 | turning off twice leaves the device as turning off once |
| `Light.SetupEntry` | custom_components/themo/light.py:23-29 | one light entity per device, entity i for device i, in device order |
| `Sensor.IdsSpelledOut` | custom_components/themo/sensor.py:69-116 | the ids are device id + "_power", "_floor_temperature", "_room_temperature", and the power name is device name + " Power" |
| `Sensor.ThemoPowerSensor.constructor` | custom_components/themo/sensor.py:63-71 | name "<name> Power", unique id "<id>_power" |
| `Sensor.ThemoFloorTemperatureSensor.constructor` | custom_components/themo/sensor.py:84-94 | name "<name> floor temperature", unique id "<id>_floor_temperature" |
| `Sensor.ThemoRoomTemperatureSensor.constructor` | custom_components/themo/sensor.py:107-117 | name "<name> room temperature", unique id "<id>_room_temperature" |
| `Sensor.SetupEntry` | custom_components/themo/sensor.py:44-55 | three sensors per device: positions 3i, 3i+1 and 3i+2 are the power, floor and room sensors of device i |
| `EntityIds.UniqueIdIsSuffixed` | custom_components/themo/sensor.py:69-116 | every entity's unique id is its device id followed by its class's suffix |
| `EntityIds.UniqueIdsDistinct` | custom_components/themo/sensor.py:69-116 | two unique ids are equal exactly when class and device id are equal; so the five ids of one device are pairwise distinct |
| `EntityIds.NamesWithinDevice` | custom_components/themo/sensor.py:69-113 | within a device, two entity names coincide exactly for the climate and light pair |
| `EntityIds.EntityIndex` | custom_components/themo/helpers.py:37-38 | every built entity sits at i·\|classes\|+j for some device i and class j |
| `EntityIds.EntityIdsUnique` | custom_components/themo/helpers.py:25-39 | with distinct device ids and each class given once, no two built entities share a unique id |
| `ConfigFlow.ErrorCode` | custom_components/themo/config_flow.py:47-55 | authentication error → "invalid_auth", connection error → "cannot_connect", anything else → "unknown" |
| `ConfigFlow.ErrorCodesDistinct` | custom_components/themo/config_flow.py:47-55 | the three failure categories get three different codes |
| `ConfigFlow.StepUser` | custom_components/themo/config_flow.py:32-59 | no input: the form with an empty error map; success: an entry titled "Themo" holding the input as it is; failure: the form with a single "base" error |
| `ConfigFlow.ExactlyOneOutcome` | custom_components/themo/config_flow.py:36-59 | with input, exactly one holds: an entry is created, or the form comes back with errors keyed only by "base" |
| `ConfigFlow.MissingCredentialsUnknown` | custom_components/themo/config_flow.py:38-55 | input without username or password is reported as "unknown" |
| `ConfigFlow.StepInit` | custom_components/themo/config_flow.py:75-77 | the options step always shows the form with no errors and never creates an entry |

## Left out

- `DataUpdateCoordinator` internals are not modelled: periodic scheduling, coalescing of concurrent refreshes, listener notification and the last-update timestamp. They are framework code outside this component, and their subject is concurrency and timing. `Coordinator.Refresh` keeps only what setup relies on: one pass, the data on success, and a failure flag.
- async/await and all network I/O (`authenticate`, `get_all_devices`, `update_state`, `set_*`, `get_async_client`) are oracle parameters: `CallOutcome`, `Outcome`, `WriteOutcome`, `AuthOutcome`.
- The proxies returned by `get_all_devices` are assumed to be distinct objects (`Distinct`). The unique-id lemma over the whole setup assumes distinct device ids.
- The power sensor's state, `power * max_power * 1e3`, is not modelled because it is floating-point arithmetic. Temperatures are `real` values passed through unchanged. Float NaN and negative zero are therefore not modelled in the truthiness test of `async_set_temperature`.
- The read properties have no contracts of their own, because each one returns a cached field unchanged. These are `is_on`, `current_temperature`, `target_temperature`, `preset_mode`, `preset_modes` and the floor and room `state`. Only `is_on` (after `TurnOn`/`TurnOff`), `target_temperature` (after `SetTemperature`), `preset_mode` (after `SetPresetMode`) and `hvac_mode` (after `SetHvacMode`) appear in setters' read-back clauses; `current_temperature`, `preset_modes` and the sensor states appear in no contract.
- Log text is not modelled. A warning is the device name it mentions.
- Voluptuous schemas, entity descriptions' units, state and device classes, and rendering by `async_write_ha_state` are not modelled. Rendering is a counter.
- `hass.data` is modelled only as the map under `DOMAIN`.
- `async_get_options_flow` and the options-flow constructor only build and store an object, so they are not modelled.
- `ThemoAuthenticationError` and `ThemoConnectionError` are taken to be unrelated exception classes. Their definitions are not part of this model.
- Device ids are modelled as their formatted text. A fetch is taken not to change the proxy's device id.
- `Helpers.SetupDevice` returns the constructor calls (`Construction`) rather than entity objects, so the relation between one entity's fields and its device is not shared across the list.
- custom_components/themo/device.py is not part of this model. Nothing uses it, and it imports a module that is not among the files.
