/** The optional value used throughout the model. */
module Wrappers {

  datatype Option<+T> = None | Some(value: T)
}

/**
 * The device proxy handed out by the pythemo client. The integration only
 * calls it, so its behaviour is modelled by the contract the integration
 * relies on: the proxy caches one snapshot of the remote device; a fetch
 * (`update_state`) replaces the whole snapshot at once except the device id,
 * which is the proxy's own identity, a fetch that raises
 * leaves it as it was, and a setter (`set_*`) that returns has written its
 * value through to the cache, while one that raises has changed nothing.
 */
module DeviceProxy {

  /** The cached remote state of one thermostat. Temperatures and power are passed through unchanged. */
  datatype Snapshot = Snapshot(
    deviceId: string,
    name: string,
    mode: string,
    manualTemperature: real,
    info: real,
    floorTemperature: real,
    roomTemperature: real,
    power: real,
    maxPower: real,
    lights: bool,
    activeSchedule: string,
    availableSchedules: seq<string>,
    swVersion: string)

  /**
   * What one `update_state` call does: it fetches a new snapshot, raises
   * `httpx.ConnectTimeout`, or raises anything else.
   */
  datatype Outcome = Fetched(snapshot: Snapshot) | ConnectTimeout | OtherError

  /** Whether a `set_*` call returns or raises. */
  datatype WriteOutcome = Written | WriteFailed

  /**
   * The cached state after one `update_state` call: the fetched fields,
   * under the proxy's own device id; after a raise, the old state.
   */
  function Apply(s: Snapshot, o: Outcome): (r: Snapshot)
    ensures r.deviceId == s.deviceId
    ensures !o.Fetched? ==> r == s
    ensures o.Fetched? ==> r.(deviceId := o.snapshot.deviceId) == o.snapshot
  {
    if o.Fetched? then o.snapshot.(deviceId := s.deviceId) else s
  }

  class Device {
    var state: Snapshot

    constructor (initial: Snapshot)
      ensures state == initial
    {
      state := initial;
    }

    method UpdateState(o: Outcome)
      modifies this
      ensures state == Apply(old(state), o)
    {
      if o.Fetched? {
        state := o.snapshot.(deviceId := state.deviceId);
      }
    }

    method SetMode(mode: string, w: WriteOutcome) returns (ok: bool)
      modifies this
      ensures ok == w.Written?
      ensures state == if ok then old(state).(mode := mode) else old(state)
    {
      ok := w.Written?;
      if ok {
        state := state.(mode := mode);
      }
    }

    method SetManualTemperature(t: real, w: WriteOutcome) returns (ok: bool)
      modifies this
      ensures ok == w.Written?
      ensures state == if ok then old(state).(manualTemperature := t) else old(state)
    {
      ok := w.Written?;
      if ok {
        state := state.(manualTemperature := t);
      }
    }

    method SetActiveSchedule(schedule: string, w: WriteOutcome) returns (ok: bool)
      modifies this
      ensures ok == w.Written?
      ensures state == if ok then old(state).(activeSchedule := schedule) else old(state)
    {
      ok := w.Written?;
      if ok {
        state := state.(activeSchedule := schedule);
      }
    }

    method SetLights(on: bool, w: WriteOutcome) returns (ok: bool)
      modifies this
      ensures ok == w.Written?
      ensures state == if ok then old(state).(lights := on) else old(state)
    {
      ok := w.Written?;
      if ok {
        state := state.(lights := on);
      }
    }
  }

  /** The proxies `get_all_devices` returns are distinct objects. */
  ghost predicate Distinct(devices: seq<Device>)
  {
    forall i, j :: 0 <= i < j < |devices| ==> devices[i] != devices[j]
  }

  /** The cached snapshots of a list of proxies, in list order. */
  ghost function States(devices: seq<Device>): seq<Snapshot>
    reads devices
  {
    seq(|devices|, i reads devices requires 0 <= i < |devices| => devices[i].state)
  }
}
