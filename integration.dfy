/**
 * The integration's entry points (custom_components/themo/__init__.py): the
 * refresh pass that the update coordinator runs over the fixed device list,
 * the order of the setup steps, and the unload that clears the stored data.
 */
module Integration {
  import opened Wrappers
  import opened DeviceProxy

  const Domain := "themo"
  const Username := "username"
  const Password := "password"
  const CoordinatorName := "themo_device_update"
  /** `SCAN_INTERVAL`, in minutes. */
  const ScanIntervalMinutes := 2

  datatype Platform = LightPlatform | ClimatePlatform | SensorPlatform

  /** The platforms set up and unloaded, in this order. */
  const Platforms := [LightPlatform, ClimatePlatform, SensorPlatform]

  // ---------------------------------------------------------------------
  // The refresh pass

  /**
   * The position of the first device whose `update_state` raises something
   * other than a connect timeout; |outcomes| when there is none.
   */
  function FirstError(outcomes: seq<Outcome>): (k: nat)
    ensures k <= |outcomes|
    ensures forall i :: 0 <= i < k ==> !outcomes[i].OtherError?
    ensures k < |outcomes| ==> outcomes[k].OtherError?
  {
    if outcomes == [] || outcomes[0].OtherError? then 0
    else 1 + FirstError(outcomes[1..])
  }

  /**
   * The positions below n whose `update_state` raised a connect timeout, in
   * increasing order: the devices for which a warning is logged.
   */
  function TimedOut(outcomes: seq<Outcome>, n: nat): (r: seq<nat>)
    requires n <= |outcomes|
    ensures forall j :: 0 <= j < |r| ==> r[j] < n && outcomes[r[j]].ConnectTimeout?
    ensures forall j, l :: 0 <= j < l < |r| ==> r[j] < r[l]
    ensures forall i :: 0 <= i < n && outcomes[i].ConnectTimeout? ==> i in r
  {
    if n == 0 then []
    else TimedOut(outcomes, n - 1) + (if outcomes[n - 1].ConnectTimeout? then [n - 1] else [])
  }

  /** The device names at the given positions: the text of the logged warnings. */
  function Names(states: seq<Snapshot>, positions: seq<nat>): seq<string>
    requires forall j :: 0 <= j < |positions| ==> positions[j] < |states|
  {
    seq(|positions|, j requires 0 <= j < |positions| => states[positions[j]].name)
  }

  /** The warnings logged while the first n devices are updated: one naming each device that timed out. */
  function Warnings(states: seq<Snapshot>, outcomes: seq<Outcome>, n: nat): seq<string>
    requires n <= |states| == |outcomes|
  {
    if n == 0 then []
    else Warnings(states, outcomes, n - 1) + (if outcomes[n - 1].ConnectTimeout? then [states[n - 1].name] else [])
  }

  /** The warnings name exactly the devices that timed out, in list order. */
  lemma {:induction false} WarningsNameTimedOut(states: seq<Snapshot>, outcomes: seq<Outcome>, n: nat)
    requires n <= |states| == |outcomes|
    ensures Warnings(states, outcomes, n) == Names(states, TimedOut(outcomes, n))
  {
    if n > 0 {
      WarningsNameTimedOut(states, outcomes, n - 1);
      if outcomes[n - 1].ConnectTimeout? {
        NamesAppend(states, TimedOut(outcomes, n - 1), n - 1);
      }
    }
  }

  /** 0, 1, ..., n - 1: the positions of the devices attempted, in the order attempted. */
  function Range(n: nat): (r: seq<nat>)
    ensures |r| == n && forall i :: 0 <= i < n ==> r[i] == i
  {
    if n == 0 then [] else Range(n - 1) + [n - 1]
  }

  /** The cached states once the first n devices have been updated. */
  function Partial(states: seq<Snapshot>, outcomes: seq<Outcome>, n: nat): seq<Snapshot>
    requires |states| == |outcomes|
  {
    seq(|states|, i requires 0 <= i < |states| => if i < n then Apply(states[i], outcomes[i]) else states[i])
  }

  /**
   * The cached states after a pass: every device before the first
   * non-timeout error takes the outcome of its call; that device and
   * all later ones keep their state.
   */
  function AfterPass(states: seq<Snapshot>, outcomes: seq<Outcome>): seq<Snapshot>
    requires |states| == |outcomes|
  {
    Partial(states, outcomes, FirstError(outcomes))
  }

  /** How a pass ends: it returns the device list, or raises at one device. */
  datatype PassResult = Returned(devices: seq<Device>) | Raised(at: nat)

  lemma NamesAppend(states: seq<Snapshot>, positions: seq<nat>, i: nat)
    requires forall j :: 0 <= j < |positions| ==> positions[j] < |states|
    requires i < |states|
    ensures Names(states, positions + [i]) == Names(states, positions) + [states[i].name]
  {
  }

  /**
   * `async_update_data`: call `update_state` on each device in list order.
   * A connect timeout logs a warning naming the device and the pass goes on;
   * any other error leaves the pass at once; otherwise the same list is
   * returned. `outcomes[i]` is what the call on device i does.
   */
  method UpdateData(devices: seq<Device>, outcomes: seq<Outcome>)
      returns (result: PassResult, attempted: seq<nat>, warnings: seq<string>)
    requires |outcomes| == |devices|
    requires Distinct(devices)
    modifies devices
    ensures var k := FirstError(outcomes);
      && result == (if k < |devices| then Raised(k) else Returned(devices))
      && attempted == Range(if k < |devices| then k + 1 else k)
      && warnings == Warnings(old(States(devices)), outcomes, k)
    ensures States(devices) == AfterPass(old(States(devices)), outcomes)
  {
    ghost var before := States(devices);
    result, attempted, warnings := Returned(devices), [], [];
    var i := 0;
    while i < |devices|
      invariant i <= FirstError(outcomes)
      invariant result == Returned(devices)
      invariant attempted == Range(i)
      invariant warnings == Warnings(before, outcomes, i)
      invariant States(devices) == Partial(before, outcomes, i)
    {
      ghost var mid := States(devices);
      devices[i].UpdateState(outcomes[i]);
      UpdateOne(devices, mid, before, outcomes, i);
      attempted := attempted + [i];
      if outcomes[i].OtherError? {
        FirstErrorAt(outcomes, i);
        result := Raised(i);
        break;
      }
      if outcomes[i].ConnectTimeout? {
        warnings := warnings + [devices[i].state.name];
      }
      i := i + 1;
    }
  }

  lemma FirstErrorAt(outcomes: seq<Outcome>, i: nat)
    requires i < |outcomes| && i <= FirstError(outcomes) && outcomes[i].OtherError?
    ensures FirstError(outcomes) == i
  {
  }

  /** One step of the pass: updating device i extends the updated prefix by one. */
  lemma UpdateOne(devices: seq<Device>, mid: seq<Snapshot>, before: seq<Snapshot>, outcomes: seq<Outcome>, i: nat)
    requires |before| == |outcomes| == |devices| == |mid| && i < |devices|
    requires mid == Partial(before, outcomes, i)
    requires forall j :: 0 <= j < |devices| && j != i ==> devices[j].state == mid[j]
    requires devices[i].state == Apply(mid[i], outcomes[i])
    ensures States(devices) == Partial(before, outcomes, i + 1)
  {
  }

  /** With no error but timeouts, every device is attempted exactly once, in list order, and takes its outcome. */
  lemma NoErrorRefreshesAll(states: seq<Snapshot>, outcomes: seq<Outcome>)
    requires |states| == |outcomes|
    requires forall i :: 0 <= i < |outcomes| ==> !outcomes[i].OtherError?
    ensures FirstError(outcomes) == |outcomes|
    ensures forall i :: 0 <= i < |states| ==> AfterPass(states, outcomes)[i] == Apply(states[i], outcomes[i])
  {
  }

  /**
   * A connect timeout at a device the pass reaches keeps that device's state
   * and logs exactly one warning for it, and the pass goes on to the next device.
   */
  lemma TimeoutIsIsolated(states: seq<Snapshot>, outcomes: seq<Outcome>, i: nat)
    requires |states| == |outcomes|
    requires i < FirstError(outcomes)
    requires outcomes[i].ConnectTimeout?
    ensures AfterPass(states, outcomes)[i] == states[i]
    ensures i in TimedOut(outcomes, FirstError(outcomes))
    ensures var w := TimedOut(outcomes, FirstError(outcomes));
      forall j, l :: 0 <= j < |w| && 0 <= l < |w| && w[j] == i && w[l] == i ==> j == l
    ensures i + 1 < |outcomes| && !outcomes[i + 1].OtherError? ==> i + 1 < FirstError(outcomes)
  {
    if i + 1 < |outcomes| && !outcomes[i + 1].OtherError? {
      assert FirstError(outcomes) != i + 1;
    }
  }

  /**
   * A pass never changes a device's id, whatever it fetched, so the unique
   * ids of the entities built at setup stay the ids of their devices.
   */
  lemma PassKeepsIds(states: seq<Snapshot>, outcomes: seq<Outcome>)
    requires |states| == |outcomes|
    ensures |AfterPass(states, outcomes)| == |states|
    ensures forall i :: 0 <= i < |states| ==> AfterPass(states, outcomes)[i].deviceId == states[i].deviceId
  {
  }

  lemma {:induction false} AllTimedOut(outcomes: seq<Outcome>, n: nat)
    requires n <= |outcomes|
    requires forall i :: 0 <= i < n ==> outcomes[i].ConnectTimeout?
    ensures TimedOut(outcomes, n) == Range(n)
  {
    if n > 0 {
      AllTimedOut(outcomes, n - 1);
    }
  }

  /**
   * When every device times out, the pass still returns, no device changes,
   * and one warning is logged per device, naming the devices in list order.
   */
  lemma AllTimeoutsKeepState(states: seq<Snapshot>, outcomes: seq<Outcome>)
    requires |states| == |outcomes|
    requires forall i :: 0 <= i < |outcomes| ==> outcomes[i].ConnectTimeout?
    ensures FirstError(outcomes) == |outcomes|
    ensures AfterPass(states, outcomes) == states
    ensures TimedOut(outcomes, |outcomes|) == Range(|outcomes|)
    ensures Names(states, TimedOut(outcomes, |outcomes|)) == seq(|states|, i requires 0 <= i < |states| => states[i].name)
  {
    AllTimedOut(outcomes, |outcomes|);
  }

  /**
   * A non-timeout error at device k aborts the pass: the devices before k
   * took their outcomes, device k and the devices after it are as before,
   * and only the devices up to k were attempted.
   */
  lemma ErrorAbortsPass(states: seq<Snapshot>, outcomes: seq<Outcome>, k: nat)
    requires |states| == |outcomes|
    requires k < |outcomes| && outcomes[k].OtherError?
    requires forall i :: 0 <= i < k ==> !outcomes[i].OtherError?
    ensures FirstError(outcomes) == k
    ensures forall i :: 0 <= i < k ==> AfterPass(states, outcomes)[i] == Apply(states[i], outcomes[i])
    ensures forall i :: k <= i < |states| ==> AfterPass(states, outcomes)[i] == states[i]
  {
    var f := FirstError(outcomes);
    assert !(f < k);
    assert !(k < f);
  }

  // ---------------------------------------------------------------------
  // The update coordinator, as far as the integration relies on it

  /**
   * The part of `DataUpdateCoordinator` the integration uses: it owns the
   * captured device list and runs the refresh pass on request, keeping the
   * returned list as its data when the pass returns.
   */
  class Coordinator {
    const name: string
    const updateIntervalMinutes: nat
    const devices: seq<Device>
    var data: Option<seq<Device>>
    var lastUpdateSuccess: bool

    constructor (devices: seq<Device>)
      ensures this.devices == devices
      ensures name == CoordinatorName && updateIntervalMinutes == ScanIntervalMinutes
      ensures data == None && lastUpdateSuccess
    {
      this.devices := devices;
      name := CoordinatorName;
      updateIntervalMinutes := ScanIntervalMinutes;
      data := None;
      lastUpdateSuccess := true;
    }

    /** `async_refresh`: run one pass; an error is recorded rather than raised. */
    method Refresh(outcomes: seq<Outcome>)
      requires |outcomes| == |devices|
      requires Distinct(devices)
      modifies this, devices
      ensures lastUpdateSuccess == (FirstError(outcomes) == |devices|)
      ensures data == if lastUpdateSuccess then Some(devices) else old(data)
      ensures States(devices) == AfterPass(old(States(devices)), outcomes)
    {
      var result, _, _ := UpdateData(devices, outcomes);
      match result
      case Returned(list) =>
        data := Some(list);
        lastUpdateSuccess := true;
      case Raised(_) =>
        lastUpdateSuccess := false;
    }
  }

  // ---------------------------------------------------------------------
  // Setup and unload

  /** What `hass.data[DOMAIN]` holds under its two keys. */
  datatype Stored = StoredDevices(devices: seq<Device>) | StoredCoordinator(coordinator: Coordinator)

  /** The externally visible steps of setup and unload, in the order they happen. */
  datatype Step =
    | Authenticate
    | GetAllDevices
    | InitialRefresh
    | StoreData
    | ForwardSetups(platforms: seq<Platform>)
    | UnloadPlatforms(platforms: seq<Platform>)
    | ClearData

  /** The host: `hass.data[DOMAIN]` and the steps taken so far. */
  class Hass {
    var domain: map<string, Stored>
    var trace: seq<Step>

    constructor ()
      ensures domain == map[] && trace == []
    {
      domain := map[];
      trace := [];
    }
  }

  /** Whether a call into the client returns or raises. */
  datatype CallOutcome = Returns | Raises

  datatype SetupFailure = MissingCredentials | AuthenticationFailed | ListingFailed

  datatype SetupResult = SetUp | SetupRaised(failure: SetupFailure)

  /**
   * `async_setup_entry`: read the credentials, authenticate, list the
   * devices, run the initial refresh, store devices and coordinator, then
   * forward the platform setups. `auth` and `listing` say whether
   * `authenticate` and `get_all_devices` return; when the listing returns it
   * returns `devices`, and `outcomes` drives the initial refresh.
   */
  method SetupEntry(hass: Hass, entryData: map<string, string>, auth: CallOutcome, listing: CallOutcome,
                    devices: seq<Device>, outcomes: seq<Outcome>)
      returns (r: SetupResult)
    requires |outcomes| == |devices|
    requires Distinct(devices)
    modifies hass, devices
    ensures !(Username in entryData && Password in entryData) ==>
      r == SetupRaised(MissingCredentials) && hass.trace == old(hass.trace)
    ensures Username in entryData && Password in entryData && auth.Raises? ==>
      r == SetupRaised(AuthenticationFailed) && hass.trace == old(hass.trace) + [Authenticate]
    ensures Username in entryData && Password in entryData && auth.Returns? && listing.Raises? ==>
      r == SetupRaised(ListingFailed) && hass.trace == old(hass.trace) + [Authenticate, GetAllDevices]
    ensures r.SetupRaised? ==> hass.domain == old(hass.domain) && States(devices) == old(States(devices))
    ensures r.SetUp? <==> Username in entryData && Password in entryData && auth.Returns? && listing.Returns?
    ensures r.SetUp? ==>
      && hass.trace == old(hass.trace) + [Authenticate, GetAllDevices, InitialRefresh, StoreData, ForwardSetups(Platforms)]
      && hass.domain.Keys == {"devices", "coordinator"}
      && hass.domain["devices"] == StoredDevices(devices)
      && States(devices) == AfterPass(old(States(devices)), outcomes)
      && hass.domain["coordinator"].StoredCoordinator?
      && (var c := hass.domain["coordinator"].coordinator;
          && fresh(c) && c.devices == devices
          && c.lastUpdateSuccess == (FirstError(outcomes) == |devices|)
          && c.data == (if c.lastUpdateSuccess then Some(devices) else None))
  {
    if !(Username in entryData && Password in entryData) {
      return SetupRaised(MissingCredentials);
    }
    hass.trace := hass.trace + [Authenticate];
    if auth.Raises? {
      return SetupRaised(AuthenticationFailed);
    }
    hass.trace := hass.trace + [GetAllDevices];
    if listing.Raises? {
      return SetupRaised(ListingFailed);
    }
    var coordinator := new Coordinator(devices);
    hass.trace := hass.trace + [InitialRefresh];
    coordinator.Refresh(outcomes);
    hass.domain := map["devices" := StoredDevices(devices), "coordinator" := StoredCoordinator(coordinator)];
    hass.trace := hass.trace + [StoreData];
    hass.trace := hass.trace + [ForwardSetups(Platforms)];
    r := SetUp;
  }

  /**
   * `async_unload_entry`: unload the platforms; `unloadOk` is what the host
   * reports. The stored data is cleared only when the unload succeeded.
   */
  method UnloadEntry(hass: Hass, unloadOk: bool) returns (r: bool)
    modifies hass
    ensures r == unloadOk
    ensures hass.domain == if unloadOk then map[] else old(hass.domain)
    ensures hass.trace == old(hass.trace) + [UnloadPlatforms(Platforms)] + (if unloadOk then [ClearData] else [])
  {
    hass.trace := hass.trace + [UnloadPlatforms(Platforms)];
    if unloadOk {
      hass.domain := map[];
      hass.trace := hass.trace + [ClearData];
    }
    r := unloadOk;
  }
}
