/** The poll tick of `custom_components/sony/coordinator.py`.

    `SonyDeviceData` keeps the device's play state, volume, muted flag and an
    `initialized` flag (`_init` in the source). A tick on a device that is not
    initialised first probes it and, if it answers, initialises the library. An
    initialised device then has its power status read and, only when it is on,
    its volume and playback status. The library is not modelled: each call it answers
    is an outcome in an `Oracle`, and each call made is appended to a trace.

    The spec functions `InitDeviceStep`, `UpdateStateStep` and `UpdateDataStep`
    say what one call does to the whole polled state (`Poll`); the classes at the
    end are the imperative model, and each of their methods is tied to one of them. */
module Coordinator {
  import opened Values
  import opened Device

  /** Home Assistant's `STATE_OFF`, `STATE_ON`, `STATE_PLAYING`, `STATE_PAUSED`. */
  datatype PlayState = Off | On | Playing | Paused

  function StateName(s: PlayState): (name: string)
    ensures name in {"off", "on", "playing", "paused"}
  {
    match s
    case Off => "off"
    case On => "on"
    case Playing => "playing"
    case Paused => "paused"
  }

  /** The coordinator's `friendly_name` attribute: a string, `None`, or removed by `del`. */
  datatype FriendlyName = Named(name: string) | Unnamed | Deleted

  /** What `_send_http(dmr_url, GET)` does. `ProbeConnectionError` is the
      `requests` `ConnectionError`, `ProbeRequestError` any other
      `RequestException`, `ProbeOtherError` an exception outside that hierarchy. */
  datatype ProbeOutcome = ProbeOk | ProbeEmpty | ProbeConnectionError | ProbeRequestError | ProbeOtherError

  datatype LibInitOutcome = InitOk | InitRaises
  datatype PowerOutcome = PowerStatus(on: bool) | PowerRaises
  datatype VolumeOutcome = VolumeReading(level: int) | VolumeRaises
  datatype PlaybackOutcome = PlaybackStatus(status: string) | PlaybackRaises

  /** The device's answers during one tick; an answer is used only if it is asked for. */
  datatype Oracle = Oracle(
    probe: ProbeOutcome,
    libInit: LibInitOutcome,
    power: PowerOutcome,
    volume: VolumeOutcome,
    playback: PlaybackOutcome)

  /** The exceptions that leave `update_state`. */
  datatype Escaped = ProbeFailed | PowerFailed | VolumeFailed
  datatype Completion = Normal | Raised(error: Escaped)

  /** Everything a tick reads or writes: the fields of `SonyDeviceData`, the
      coordinator's `friendly_name` and the attributes of the library object. */
  datatype Poll = Poll(
    state: PlayState,
    volume: real,
    muted: bool,
    initialized: bool,
    friendlyName: FriendlyName,
    api: map<string, PyValue>)

  /** Whenever the device is not initialized it is reported off. */
  ghost predicate Inv(p: Poll)
  {
    !p.initialized ==> p.state == Off
  }

  /** One call: the state after it, the library calls it made, how it ended. */
  datatype Step = Step(after: Poll, calls: seq<Event>, outcome: Completion)

  /** The state `SonyDeviceData.__init__` starts from. */
  function InitialPoll(friendlyName: FriendlyName, api: map<string, PyValue>): (p: Poll)
    ensures Inv(p) && !p.initialized && p.volume == 0.0 && !p.muted
    ensures p.friendlyName == friendlyName && p.api == api
  {
    Poll(Off, 0.0, false, false, friendlyName, api)
  }

  /** `volume = get_volume() / 100`. */
  function Normalize(level: int): (v: real)
    ensures 0 <= level <= 100 ==> 0.0 <= v <= 1.0
    ensures level == 0 ==> v == 0.0
    ensures level == 100 ==> v == 1.0
    ensures v * 100.0 == level as real
  {
    level as real / 100.0
  }

  /** The play state for a powered device and its playback string. */
  function PlaybackState(status: string): (s: PlayState)
    ensures s == Playing <==> status == "PLAYING"
    ensures s == Paused <==> status == "PAUSED_PLAYBACK"
    ensures s != Off
  {
    if status == "PLAYING" then Playing
    else if status == "PAUSED_PLAYBACK" then Paused
    else On
  }

  // ---------------------------------------------------------------------------
  // init_device

  /** Whether `init_device` gets as far as `self._init = True`. */
  predicate InitSucceeds(p: Poll, probe: ProbeOutcome, lib: LibInitOutcome)
  {
    probe == ProbeOk && lib == InitOk && p.friendlyName != Deleted
  }

  /** Whether `init_device` copies the friendly name onto the library object. */
  predicate AppliesName(p: Poll, probe: ProbeOutcome, lib: LibInitOutcome)
  {
    probe == ProbeOk && lib == InitOk && p.friendlyName.Named? && p.friendlyName.name != ""
  }

  /** `init_device`, as written: after its first use the friendly name is deleted,
      so a later call reads a missing attribute inside the `try`, the error is
      swallowed and `initialized` stays as it was. */
  function InitDeviceStep(p: Poll, probe: ProbeOutcome, lib: LibInitOutcome): (r: Step)
    ensures r.after.state == p.state && r.after.volume == p.volume && r.after.muted == p.muted
    ensures r.after.initialized == (p.initialized || InitSucceeds(p, probe, lib))
    ensures r.outcome == (if probe == ProbeOtherError then Raised(ProbeFailed) else Normal)
    ensures r.calls == [SendHttpDmr] + (if probe == ProbeOk then [InitLibrary] else [])
    ensures AppliesName(p, probe, lib) ==>
      r.after.friendlyName == Deleted && r.after.api == p.api["friendly_name" := Str(p.friendlyName.name)]
    ensures !AppliesName(p, probe, lib) ==>
      r.after.friendlyName == p.friendlyName && r.after.api == p.api
  {
    match probe
    case ProbeRequestError => Step(p, [SendHttpDmr], Normal)
    case ProbeOtherError => Step(p, [SendHttpDmr], Raised(ProbeFailed))
    case ProbeConnectionError => Step(p, [SendHttpDmr], Normal)
    case ProbeEmpty => Step(p, [SendHttpDmr], Normal)
    case ProbeOk =>
      var calls := [SendHttpDmr, InitLibrary];
      if lib == InitRaises then Step(p, calls, Normal)
      else
        match p.friendlyName
        case Deleted => Step(p, calls, Normal)
        case Unnamed => Step(p.(initialized := true), calls, Normal)
        case Named(n) =>
          if n == "" then Step(p.(initialized := true), calls, Normal)
          else Step(p.(initialized := true, friendlyName := Deleted, api := p.api["friendly_name" := Str(n)]), calls, Normal)
  }

  /** `init_device` as evidently intended: the name is applied once and then
      forgotten (`None`), so that a later initialisation is not broken. */
  function InitDeviceIntended(p: Poll, probe: ProbeOutcome, lib: LibInitOutcome): (r: Step)
    requires p.friendlyName != Deleted
    ensures r.after.friendlyName != Deleted
    ensures r.after.state == p.state && r.after.volume == p.volume && r.after.muted == p.muted
    ensures r.after.initialized == (p.initialized || (probe == ProbeOk && lib == InitOk))
    ensures r.outcome == (if probe == ProbeOtherError then Raised(ProbeFailed) else Normal)
    ensures r.calls == [SendHttpDmr] + (if probe == ProbeOk then [InitLibrary] else [])
    // a non-empty name is still copied to the library object, and then forgotten
    ensures AppliesName(p, probe, lib) ==>
      r.after.friendlyName == Unnamed && r.after.api == p.api["friendly_name" := Str(p.friendlyName.name)]
    ensures !AppliesName(p, probe, lib) ==>
      r.after.friendlyName == p.friendlyName && r.after.api == p.api
  {
    var s := InitDeviceStep(p, probe, lib);
    if s.after.friendlyName == Deleted then s.(after := s.after.(friendlyName := Unnamed)) else s
  }

  // ---------------------------------------------------------------------------
  // update_state

  /** The part of `update_state` after the initialisation attempt, given how that
      attempt ended (`init`, started from `p`). */
  function AfterInit(init: Step, o: Oracle): (r: Step)
    ensures Inv(init.after) ==> Inv(r.after)
    ensures r.after.muted == init.after.muted
    ensures r.after.friendlyName == init.after.friendlyName && r.after.api == init.after.api
    ensures init.calls <= r.calls
    // a failed probe or initialisation: nothing more is asked of the device
    ensures init.outcome.Raised? || !init.after.initialized ==> r == init
    // otherwise the power status is read
    ensures init.outcome == Normal && init.after.initialized ==>
      match o.power
      case PowerRaises =>
        r == Step(init.after, init.calls + [GetPowerStatus], Raised(PowerFailed))
      case PowerStatus(false) =>
        // off: reported off, re-probed next tick, volume neither read nor changed
        && r.after == init.after.(state := Off, initialized := false)
        && r.calls == init.calls + [GetPowerStatus]
        && r.outcome == Normal
      case PowerStatus(true) =>
        match o.volume
        case VolumeRaises =>
          // `state = STATE_ON` has already happened; the error leaves the tick
          && r.after == init.after.(state := On)
          && r.after.initialized
          && r.calls == init.calls + [GetPowerStatus, GetVolume]
          && r.outcome == Raised(VolumeFailed)
        case VolumeReading(level) =>
          && r.after.volume == Normalize(level)
          && r.calls == init.calls + [GetPowerStatus, GetVolume, GetPlayingStatus]
          && r.outcome == Normal
          && match o.playback
             case PlaybackRaises => r.after.state == Off && !r.after.initialized
             case PlaybackStatus(s) => r.after.state == PlaybackState(s) && r.after.initialized
  {
    if init.outcome.Raised? || !init.after.initialized then init
    else
      var p := init.after;
      match o.power
      case PowerRaises => Step(p, init.calls + [GetPowerStatus], Raised(PowerFailed))
      case PowerStatus(on) =>
        if !on then Step(p.(state := Off, initialized := false), init.calls + [GetPowerStatus], Normal)
        else
          var p1 := p.(state := On);
          match o.volume
          case VolumeRaises => Step(p1, init.calls + [GetPowerStatus, GetVolume], Raised(VolumeFailed))
          case VolumeReading(level) =>
            var p2 := p1.(volume := Normalize(level));
            var calls := init.calls + [GetPowerStatus, GetVolume, GetPlayingStatus];
            match o.playback
            case PlaybackRaises => Step(p2.(state := Off, initialized := false), calls, Normal)
            case PlaybackStatus(s) => Step(p2.(state := PlaybackState(s)), calls, Normal)
  }

  /** `update_state`, as written. */
  function UpdateStateStep(p: Poll, o: Oracle): (r: Step)
    ensures Inv(p) ==> Inv(r.after)
    ensures !p.initialized && !InitSucceeds(p, o.probe, o.libInit) ==>
      r == InitDeviceStep(p, o.probe, o.libInit) && GetPowerStatus !in r.calls
    ensures p.initialized ==> |r.calls| > 0 && r.calls[0] == GetPowerStatus
  {
    var init := if p.initialized then Step(p, [], Normal) else InitDeviceStep(p, o.probe, o.libInit);
    AfterInit(init, o)
  }

  /** `update_state` with the intended `init_device`. */
  function UpdateStateIntended(p: Poll, o: Oracle): (r: Step)
    requires p.friendlyName != Deleted
    ensures r.after.friendlyName != Deleted
    ensures Inv(p) ==> Inv(r.after)
  {
    var init := if p.initialized then Step(p, [], Normal) else InitDeviceIntended(p, o.probe, o.libInit);
    AfterInit(init, o)
  }

  // ---------------------------------------------------------------------------
  // SonyCoordinator._async_update_data

  /** `vars(device_data)`: the attributes of `SonyDeviceData`. */
  function DeviceVars(p: Poll): (d: map<string, PyValue>)
    ensures d.Keys == {"coordinator", "state", "volume", "muted", "_init"}
    ensures d["coordinator"] == Object("SonyCoordinator")
    ensures d["state"] == Str(StateName(p.state))
    ensures d["volume"] == Real(p.volume)
    ensures d["muted"] == Bool(p.muted)
    ensures d["_init"] == Bool(p.initialized)
  {
    map["coordinator" := Object("SonyCoordinator"),
        "state" := Str(StateName(p.state)),
        "volume" := Real(p.volume),
        "muted" := Bool(p.muted),
        "_init" := Bool(p.initialized)]
  }

  /** The result of a tick as the host sees it. */
  datatype Refresh = Refreshed(data: map<string, PyValue>) | UpdateFailed(cause: Escaped)

  datatype Tick = Tick(step: Step, result: Refresh)

  /** `_async_update_data`: run `update_state`; on success the snapshot is the
      library object's attributes overlaid with the device data's, on an
      exception the host receives `UpdateFailed`. */
  function UpdateDataStep(p: Poll, o: Oracle): (t: Tick)
    ensures t.step == UpdateStateStep(p, o)
    ensures t.result.UpdateFailed? <==> t.step.outcome.Raised?
    ensures t.step.outcome.Raised? ==> t.result.cause == t.step.outcome.error
    ensures t.result.Refreshed? ==>
      && t.result.data.Keys == t.step.after.api.Keys + DeviceVars(t.step.after).Keys
      && t.result.data["state"] == Str(StateName(t.step.after.state))
      && t.result.data["volume"] == Real(t.step.after.volume)
      && t.result.data["_init"] == Bool(t.step.after.initialized)
      && t.result.data["muted"] == Bool(t.step.after.muted)
      && (forall k :: k in DeviceVars(t.step.after) ==> t.result.data[k] == DeviceVars(t.step.after)[k])
      && forall k :: k in t.step.after.api && k !in DeviceVars(t.step.after) ==>
           t.result.data[k] == t.step.after.api[k]
  {
    var s := UpdateStateStep(p, o);
    match s.outcome
    case Normal => Tick(s, Refreshed(Overlay(s.after.api, DeviceVars(s.after))))
    case Raised(e) => Tick(s, UpdateFailed(e))
  }

  // ---------------------------------------------------------------------------
  // Many ticks: the host calls the coordinator again after every tick

  function Run(p: Poll, os: seq<Oracle>): Poll
    decreases |os|
  {
    if os == [] then p else Run(UpdateStateStep(p, os[0]).after, os[1..])
  }

  function RunIntended(p: Poll, os: seq<Oracle>): Poll
    requires p.friendlyName != Deleted
    decreases |os|
  {
    if os == [] then p else RunIntended(UpdateStateIntended(p, os[0]).after, os[1..])
  }

  /** Not initialized implies off, after any number of ticks. */
  lemma {:induction false} RunKeepsInv(p: Poll, os: seq<Oracle>)
    requires Inv(p)
    ensures Inv(Run(p, os))
    decreases |os|
  {
    if os != [] {
      RunKeepsInv(UpdateStateStep(p, os[0]).after, os[1..]);
    }
  }

  /** The friendly name is copied onto the library object at most once: once it
      is not a name, no tick changes it or the library object's name. */
  lemma {:induction false} NameAppliedAtMostOnce(p: Poll, os: seq<Oracle>)
    requires !p.friendlyName.Named?
    ensures Run(p, os).friendlyName == p.friendlyName
    ensures Run(p, os).api == p.api
    decreases |os|
  {
    if os != [] {
      NameAppliedAtMostOnce(UpdateStateStep(p, os[0]).after, os[1..]);
    }
  }

  /** As written: once the name has been deleted, a device that is not
      initialized never becomes initialized again and is reported off forever,
      whatever it answers. */
  lemma {:induction false} DeletedNameNeverReinitializes(p: Poll, os: seq<Oracle>)
    requires p.friendlyName == Deleted && !p.initialized && p.state == Off
    ensures !Run(p, os).initialized && Run(p, os).state == Off
    decreases |os|
  {
    if os != [] {
      var s := UpdateStateStep(p, os[0]);
      assert s == InitDeviceStep(p, os[0].probe, os[0].libInit);
      DeletedNameNeverReinitializes(s.after, os[1..]);
    }
  }

  /** A device that answers everything and is playing. */
  const PlayingOracle := Oracle(ProbeOk, InitOk, PowerStatus(true), VolumeReading(30), PlaybackStatus("PLAYING"))
  /** A device that answers the probe but reports its power off. */
  const StandbyOracle := Oracle(ProbeOk, InitOk, PowerStatus(false), VolumeReading(30), PlaybackStatus("PLAYING"))

  /** As written, with a configured name: playing, then switched off, then
      playing again is still reported off. */
  lemma StuckOffAfterPowerCycle(api: map<string, PyValue>)
    ensures var p0 := InitialPoll(Named("Living room TV"), api);
      && UpdateStateStep(p0, PlayingOracle).after.state == Playing
      && Run(p0, [PlayingOracle, StandbyOracle, PlayingOracle]).state == Off
      && !Run(p0, [PlayingOracle, StandbyOracle, PlayingOracle]).initialized
  {
    var p0 := InitialPoll(Named("Living room TV"), api);
    var p1 := UpdateStateStep(p0, PlayingOracle).after;
    assert p1.friendlyName == Deleted && p1.state == Playing;
    var p2 := UpdateStateStep(p1, StandbyOracle).after;
    assert p2.state == Off && !p2.initialized && p2.friendlyName == Deleted;
    var p3 := UpdateStateStep(p2, PlayingOracle).after;
    assert !p3.initialized && p3.state == Off;
    var cycle := [PlayingOracle, StandbyOracle, PlayingOracle];
    assert cycle[1..] == [StandbyOracle, PlayingOracle];
    assert cycle[1..][1..] == [PlayingOracle];
    assert Run(p0, cycle) == Run(p1, cycle[1..]) == Run(p2, cycle[1..][1..]) == Run(p3, []) == p3;
  }

  /** With the intended `init_device`, a device that is not initialized is
      initialized again by any tick whose probe and library initialisation
      succeed, and its power and playback are read as on the first tick. */
  lemma IntendedReinitializes(p: Poll, o: Oracle)
    requires p.friendlyName != Deleted && !p.initialized
    requires o.probe == ProbeOk && o.libInit == InitOk
    requires o.power == PowerStatus(true) && o.volume.VolumeReading? && o.playback.PlaybackStatus?
    ensures UpdateStateIntended(p, o).after.initialized
    ensures UpdateStateIntended(p, o).after.state == PlaybackState(o.playback.status)
  {
  }

  /** With the intended `init_device`, the name is never left deleted, so the
      power cycle above ends playing. */
  lemma {:induction false} IntendedNeverDeletes(p: Poll, os: seq<Oracle>)
    requires p.friendlyName != Deleted
    ensures RunIntended(p, os).friendlyName != Deleted
    decreases |os|
  {
    if os != [] {
      IntendedNeverDeletes(UpdateStateIntended(p, os[0]).after, os[1..]);
    }
  }

  /** With the intended `init_device` too, once the name is forgotten no tick
      changes it or the library object's attributes. */
  lemma {:induction false} IntendedNameAppliedAtMostOnce(p: Poll, os: seq<Oracle>)
    requires !p.friendlyName.Named? && p.friendlyName != Deleted
    ensures RunIntended(p, os).friendlyName == p.friendlyName
    ensures RunIntended(p, os).api == p.api
    decreases |os|
  {
    if os != [] {
      IntendedNameAppliedAtMostOnce(UpdateStateIntended(p, os[0]).after, os[1..]);
    }
  }

  lemma IntendedPowerCycle(api: map<string, PyValue>)
    ensures RunIntended(InitialPoll(Named("Living room TV"), api), [PlayingOracle, StandbyOracle, PlayingOracle]).state == Playing
  {
    var p0 := InitialPoll(Named("Living room TV"), api);
    var p1 := UpdateStateIntended(p0, PlayingOracle).after;
    var p2 := UpdateStateIntended(p1, StandbyOracle).after;
    var p3 := UpdateStateIntended(p2, PlayingOracle).after;
    assert p3.state == Playing;
    var cycle := [PlayingOracle, StandbyOracle, PlayingOracle];
    assert cycle[1..] == [StandbyOracle, PlayingOracle];
    assert cycle[1..][1..] == [PlayingOracle];
    assert RunIntended(p0, cycle) == RunIntended(p1, cycle[1..]) == RunIntended(p2, cycle[1..][1..]) == RunIntended(p3, []) == p3;
  }

  // ---------------------------------------------------------------------------
  // The objects

  class SonyCoordinator {
    /** `self.friendly_name`, deleted after its first use. */
    var friendlyName: FriendlyName
    /** `vars(self.api)`: the attributes of the library object. */
    var api: map<string, PyValue>
    /** The calls made to the library object by the polls, in order. */
    var calls: seq<Event>
    /** `self.data`: the last snapshot handed to the entities. */
    var data: map<string, PyValue>
    var deviceData: SonyDeviceData?

    ghost predicate Valid()
      reads this, deviceData
    {
      deviceData != null && deviceData.coordinator == this && deviceData.Valid()
    }

    function Polled(): Poll
      reads this, deviceData
      requires Valid()
    {
      deviceData.Polled()
    }

    constructor (friendlyName: FriendlyName, api: map<string, PyValue>)
      requires friendlyName != Deleted
      ensures Valid() && fresh(deviceData)
      ensures Polled() == InitialPoll(friendlyName, api)
      ensures calls == [] && data == map[]
    {
      this.friendlyName := friendlyName;
      this.api := api;
      calls := [];
      data := map[];
      deviceData := null;
      new;
      deviceData := new SonyDeviceData(this);
    }

    /** `_async_update_data`. */
    method AsyncUpdateData(o: Oracle) returns (r: Refresh)
      requires Valid()
      modifies this, deviceData
      ensures Valid() && deviceData == old(deviceData)
      ensures var t := UpdateDataStep(old(Polled()), o);
        && Polled() == t.step.after.(api := api)
        && calls == old(calls) + t.step.calls
        && r == t.result
        && data == (if r.Refreshed? then r.data else old(data))
        // `self.data` is the library object's own attribute dictionary, so
        // the device data's attributes are written onto that object too
        && api == (if r.Refreshed? then r.data else t.step.after.api)
    {
      var c := deviceData.UpdateState(o);
      match c {
        case Normal =>
          data := Overlay(api, DeviceVars(deviceData.Polled()));
          api := data;
          r := Refreshed(data);
        case Raised(e) =>
          r := UpdateFailed(e);
      }
    }
  }

  class SonyDeviceData {
    const coordinator: SonyCoordinator
    var state: PlayState
    var volume: real
    var muted: bool
    /** `_init` */
    var initialized: bool

    ghost predicate Valid()
      reads this
    {
      !initialized ==> state == Off
    }

    function Polled(): Poll
      reads this, coordinator
    {
      Poll(state, volume, muted, initialized, coordinator.friendlyName, coordinator.api)
    }

    constructor (coordinator: SonyCoordinator)
      ensures this.coordinator == coordinator && Valid()
      ensures state == Off && volume == 0.0 && !muted && !initialized
    {
      this.coordinator := coordinator;
      state := Off;
      volume := 0.0;
      muted := false;
      initialized := false;
    }

    /** `init_device`. */
    method InitDevice(probe: ProbeOutcome, lib: LibInitOutcome) returns (c: Completion)
      modifies this`initialized, coordinator`friendlyName, coordinator`api, coordinator`calls
      ensures var s := InitDeviceStep(old(Polled()), probe, lib);
        && Polled() == s.after
        && coordinator.calls == old(coordinator.calls) + s.calls
        && c == s.outcome
    {
      coordinator.calls := coordinator.calls + [SendHttpDmr];
      var response: bool;
      match probe {
        case ProbeOk => response := true;
        case ProbeEmpty => response := false;
        case ProbeConnectionError => response := false;
        case ProbeRequestError => return Normal;
        case ProbeOtherError => return Raised(ProbeFailed);
      }
      if response {
        coordinator.calls := coordinator.calls + [InitLibrary];
        if lib == InitRaises {
          return Normal;
        }
        match coordinator.friendlyName {
          case Deleted =>
            // reading the deleted attribute raises; the `except` swallows it
            return Normal;
          case Unnamed =>
          case Named(n) =>
            if n != "" {
              coordinator.api := coordinator.api["friendly_name" := Str(n)];
              coordinator.friendlyName := Deleted;
            }
        }
        initialized := true;
      }
      c := Normal;
    }

    /** `update_volume`; a failing `get_volume` leaves the method. */
    method UpdateVolume(v: VolumeOutcome) returns (c: Completion)
      modifies this`volume, coordinator`calls
      ensures coordinator.calls == old(coordinator.calls) + [GetVolume]
      ensures v.VolumeRaises? ==> c == Raised(VolumeFailed) && volume == old(volume)
      ensures v.VolumeReading? ==> c == Normal && volume == Normalize(v.level)
    {
      coordinator.calls := coordinator.calls + [GetVolume];
      match v {
        case VolumeRaises => c := Raised(VolumeFailed);
        case VolumeReading(level) =>
          volume := level as real / 100.0;
          c := Normal;
      }
    }

    /** `update_state`. */
    method UpdateState(o: Oracle) returns (c: Completion)
      requires Valid()
      modifies this, coordinator`friendlyName, coordinator`api, coordinator`calls
      ensures Valid()
      ensures var s := UpdateStateStep(old(Polled()), o);
        && Polled() == s.after
        && coordinator.calls == old(coordinator.calls) + s.calls
        && c == s.outcome
    {
      if !initialized {
        c := InitDevice(o.probe, o.libInit);
        if c.Raised? {
          return;
        }
      }
      if !initialized {
        return Normal;
      }
      coordinator.calls := coordinator.calls + [GetPowerStatus];
      match o.power {
        case PowerRaises => return Raised(PowerFailed);
        case PowerStatus(on) =>
          if !on {
            state := Off;
            initialized := false;
            return Normal;
          }
      }
      state := On;
      c := UpdateVolume(o.volume);
      if c.Raised? {
        return;
      }
      coordinator.calls := coordinator.calls + [GetPlayingStatus];
      match o.playback {
        case PlaybackStatus(info) =>
          if info == "PLAYING" {
            state := Playing;
          } else if info == "PAUSED_PLAYBACK" {
            state := Paused;
          } else {
            state := On;
          }
        case PlaybackRaises =>
          state := Off;
          initialized := false;
      }
      c := Normal;
    }
  }
}
