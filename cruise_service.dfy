/**
 * The cruise scheduler: a per-device registry of cruise sessions that move a
 * device from a start position toward a target, with an
 * Idle/Running/Paused/Arrived/Stopped state machine.
 *
 * The movement loop is modelled one iteration at a time (`Tick`): the clock
 * is a parameter, the destination-point computation is an abstract function,
 * and the calls into the location setter and the event emitter are appended
 * to the ghost log `calls`.
 */
module Cruise {
  import opened Geo
  import opened Replies

  /** `ARRIVAL_THRESHOLD_KM`: closer than five metres counts as arrived. */
  const ArrivalThresholdKm: real := 0.005

  datatype CruiseState = Idle | Running | Paused | Arrived | Stopped

  /** The state's `value` as the answers spell it. */
  function StateValue(s: CruiseState): string
  {
    match s
    case Idle => "idle"
    case Running => "running"
    case Paused => "paused"
    case Arrived => "arrived"
    case Stopped => "stopped"
  }

  /**
   * `move_location` along `bearing_to(current, target)`: where a device at
   * `current` heading for `target` is after `seconds` at `speedKmh`.
   */
  type Mover = (Pos, Pos, real, real) -> Pos

  /** A call into the location setter, or an event sent to the frontend. */
  datatype Call = SetLocation(device: string, pos: Pos) | Emit(device: string, event: string)

  /** What `get_cruise_status` reports: the idle answer, or the session's `to_dict`. */
  datatype Status =
    | IdleStatus(deviceId: string)
    | SessionStatus(deviceId: string, state: CruiseState, location: Pos, target: Pos, speedKmh: real,
                    remainingKm: real, distanceTraveledKm: real, durationSeconds: real)

  /** `max(1, min(50, v))`: the speed `set_cruise_speed` keeps. */
  function ClampSpeed(v: real): (s: real)
    ensures 1.0 <= s <= 50.0
    ensures 1.0 <= v <= 50.0 ==> s == v
    ensures v < 1.0 ==> s == 1.0
    ensures v > 50.0 ==> s == 50.0
  {
    if v < 1.0 then 1.0 else if v > 50.0 then 50.0 else v
  }

  /** One event, when an emitter is set. */
  function Emitted(on: bool, dev: string, event: string): (cs: seq<Call>)
    ensures |cs| == (if on then 1 else 0)
  {
    if on then [Emit(dev, event)] else []
  }

  /** The events `stop_all` emits for the devices `ks`, stopped in that order: one `cruiseStopped` each, when an emitter is set. */
  function StopEvents(on: bool, ks: seq<string>): seq<Call>
  {
    if on then seq(|ks|, i requires 0 <= i < |ks| => Emit(ks[i], "cruiseStopped")) else []
  }

  /** Stopping one more device appends its event to the calls made so far. */
  lemma StopEventsSnoc(before: seq<Call>, on: bool, ks: seq<string>, k: string)
    ensures before + StopEvents(on, ks + [k]) == before + StopEvents(on, ks) + Emitted(on, k, "cruiseStopped")
  {
    if on {
      assert StopEvents(on, ks + [k]) == StopEvents(on, ks) + [Emit(k, "cruiseStopped")];
    }
  }

  /**
   * Once the devices `ks` stopped are exactly `devices`, the calls after
   * `before` are one `cruiseStopped` per device when an emitter is set, and
   * every device has one.
   */
  lemma StopEventsDone(before: seq<Call>, on: bool, ks: seq<string>, devices: set<string>)
    requires |ks| == |devices| && forall i :: 0 <= i < |ks| ==> ks[i] in devices
    requires forall k :: k in devices ==> k in ks
    ensures var cs := before + StopEvents(on, ks);
      && |cs| == |before| + (if on then |devices| else 0) && cs[..|before|] == before
      && (forall i :: |before| <= i < |cs| ==> cs[i].Emit? && cs[i].event == "cruiseStopped" && cs[i].device in devices)
      && (on ==> forall k :: k in devices ==> exists i :: |before| <= i < |cs| && cs[i].device == k)
  {
    var cs := before + StopEvents(on, ks);
    assert cs[..|before|] == before;
    if on {
      forall k | k in devices
        ensures exists i :: |before| <= i < |cs| && cs[i].device == k
      {
        var j :| 0 <= j < |ks| && ks[j] == k;
        assert cs[|before| + j].device == k;
      }
    }
  }

  /** One location update, when a location setter is set. */
  function Located(on: bool, dev: string, p: Pos): (cs: seq<Call>)
    ensures |cs| == (if on then 1 else 0)
  {
    if on then [SetLocation(dev, p)] else []
  }

  /** The per-device state of one cruise. */
  class CruiseSession {
    const deviceId: string
    const start: Pos
    const target: Pos
    const startTime: real
    var speedKmh: real
    var state: CruiseState
    var current: Pos
    var distanceTraveledKm: real
    var lastUpdateTime: real

    /** The dataclass constructor and `__post_init__`: idle, at the start, nothing travelled, both clocks at `now`. */
    constructor (deviceId: string, start: Pos, target: Pos, speedKmh: real, now: real)
      ensures this.deviceId == deviceId && this.start == start && this.target == target && this.speedKmh == speedKmh
      ensures state == Idle && current == start && distanceTraveledKm == 0.0
      ensures startTime == now && lastUpdateTime == now
    {
      this.deviceId := deviceId;
      this.start := start;
      this.target := target;
      this.speedKmh := speedKmh;
      state := Idle;
      current := start;
      distanceTraveledKm := 0.0;
      startTime := now;
      lastUpdateTime := now;
    }

    /** `to_dict` at time `now`. */
    function ToStatus(dist: Distance, now: real): (st: Status)
      reads this
      ensures st.SessionStatus? && st.deviceId == deviceId && st.state == state && st.location == current
      ensures st.remainingKm >= 0.0 && (current == target ==> st.remainingKm == 0.0)
    {
      SessionStatus(deviceId, state, current, target, speedKmh, dist(current, target), distanceTraveledKm, now - startTime)
    }
  }

  class CruiseService {
    const dist: Distance
    /** Per-device sessions, only while a cruise is running or paused. */
    var sessions: map<string, CruiseSession>
    /** Whether a location setter has been set (`_set_location`). */
    var locationSet: bool
    /** Whether an event emitter has been set (`_emit_event`). */
    var emitterSet: bool
    ghost var calls: seq<Call>

    /** Every session is filed under its own device. */
    predicate Valid()
      reads this
    {
      forall k :: k in sessions ==> sessions[k].deviceId == k
    }

    constructor (dist: Distance)
      ensures this.dist == dist && sessions == map[] && !locationSet && !emitterSet && calls == []
      ensures Valid()
    {
      this.dist := dist;
      sessions := map[];
      locationSet := false;
      emitterSet := false;
      calls := [];
    }

    method SetLocationCallback()
      modifies this
      ensures locationSet && emitterSet == old(emitterSet) && sessions == old(sessions) && calls == old(calls)
    {
      locationSet := true;
    }

    method SetEventEmitter()
      modifies this
      ensures emitterSet && locationSet == old(locationSet) && sessions == old(sessions) && calls == old(calls)
    {
      emitterSet := true;
    }

    /**
     * `start_cruise`: first stops the device's cruise if it has one, even
     * when the start then fails; fails without a location setter, or when
     * the start is already within the arrival threshold of the target;
     * otherwise files a running session at the start.
     */
    method StartCruise(dev: string, start: Pos, target: Pos, speedKmh: real, now: real) returns (r: Response)
      requires Valid()
      modifies this, if dev in sessions then {sessions[dev]} else {}
      ensures Valid() && locationSet == old(locationSet) && emitterSet == old(emitterSet)
      ensures old(dev in sessions) ==> old(sessions[dev]).state == Stopped
      ensures var stopped := if old(dev in sessions) then Emitted(emitterSet, dev, "cruiseStopped") else [];
        if !locationSet then
          r == Failure("Location callback not configured") && sessions == old(sessions) - {dev} && calls == old(calls) + stopped
        else if dist(start, target) < ArrivalThresholdKm then
          r == Failure("Already at target location") && sessions == old(sessions) - {dev} && calls == old(calls) + stopped
        else
          r == Success && dev in sessions && sessions == old(sessions)[dev := sessions[dev]] && fresh(sessions[dev])
          && sessions[dev].state == Running && sessions[dev].current == start && sessions[dev].target == target
          && sessions[dev].speedKmh == speedKmh && sessions[dev].distanceTraveledKm == 0.0 && sessions[dev].lastUpdateTime == now
          && calls == old(calls) + stopped + Emitted(emitterSet, dev, "cruiseStarted")
    {
      if dev in sessions {
        var _ := StopCruise(dev);
      }
      if !locationSet {
        return Failure("Location callback not configured");
      }
      var distance := dist(start, target);
      if distance < ArrivalThresholdKm {
        return Failure("Already at target location");
      }
      var session := new CruiseSession(dev, start, target, speedKmh, now);
      session.state := Running;
      sessions := sessions[dev := session];
      calls := calls + Emitted(emitterSet, dev, "cruiseStarted");
      return Success;
    }

    /** `stop_cruise`: removes and stops the device's session; without one it is a successful no-op. */
    method StopCruise(dev: string) returns (r: Response)
      requires Valid()
      modifies this, if dev in sessions then {sessions[dev]} else {}
      ensures Valid() && locationSet == old(locationSet) && emitterSet == old(emitterSet)
      ensures old(dev !in sessions) ==> r == Notice("No active cruise") && sessions == old(sessions) && calls == old(calls)
      ensures old(dev in sessions) ==>
        r == Success && sessions == old(sessions) - {dev} && old(sessions[dev]).state == Stopped
        && calls == old(calls) + Emitted(emitterSet, dev, "cruiseStopped")
    {
      if dev !in sessions {
        return Notice("No active cruise");
      }
      var session := sessions[dev];
      session.state := Stopped;
      sessions := sessions - {dev};
      calls := calls + Emitted(emitterSet, dev, "cruiseStopped");
      return Success;
    }

    /** `pause_cruise`: legal only from running; a refused call changes nothing. */
    method PauseCruise(dev: string) returns (r: Response)
      modifies this, if dev in sessions then {sessions[dev]} else {}
      ensures sessions == old(sessions) && locationSet == old(locationSet) && emitterSet == old(emitterSet)
      ensures old(dev !in sessions) ==> r == Failure("No active cruise") && calls == old(calls)
      ensures old(dev in sessions && sessions[dev].state != Running) ==>
        r == Failure("Cannot pause: cruise is " + StateValue(old(sessions[dev].state)))
        && sessions[dev].state == old(sessions[dev].state) && calls == old(calls)
      ensures old(dev in sessions && sessions[dev].state == Running) ==>
        r == Success && sessions[dev].state == Paused && calls == old(calls) + Emitted(emitterSet, dev, "cruisePaused")
      ensures dev in sessions ==>
        sessions[dev].current == old(sessions[dev].current) && sessions[dev].speedKmh == old(sessions[dev].speedKmh)
        && sessions[dev].distanceTraveledKm == old(sessions[dev].distanceTraveledKm)
        && sessions[dev].lastUpdateTime == old(sessions[dev].lastUpdateTime)
    {
      if dev !in sessions {
        return Failure("No active cruise");
      }
      var session := sessions[dev];
      if session.state != Running {
        return Failure("Cannot pause: cruise is " + StateValue(session.state));
      }
      session.state := Paused;
      calls := calls + Emitted(emitterSet, dev, "cruisePaused");
      return Success;
    }

    /** `resume_cruise`: legal only from paused; restarts the movement clock at `now`; a refused call changes nothing. */
    method ResumeCruise(dev: string, now: real) returns (r: Response)
      modifies this, if dev in sessions then {sessions[dev]} else {}
      ensures sessions == old(sessions) && locationSet == old(locationSet) && emitterSet == old(emitterSet)
      ensures old(dev !in sessions) ==> r == Failure("No active cruise") && calls == old(calls)
      ensures old(dev in sessions && sessions[dev].state != Paused) ==>
        r == Failure("Cannot resume: cruise is " + StateValue(old(sessions[dev].state)))
        && sessions[dev].state == old(sessions[dev].state) && sessions[dev].lastUpdateTime == old(sessions[dev].lastUpdateTime)
        && calls == old(calls)
      ensures old(dev in sessions && sessions[dev].state == Paused) ==>
        r == Success && sessions[dev].state == Running && sessions[dev].lastUpdateTime == now
        && calls == old(calls) + Emitted(emitterSet, dev, "cruiseResumed")
      ensures dev in sessions ==>
        sessions[dev].current == old(sessions[dev].current) && sessions[dev].speedKmh == old(sessions[dev].speedKmh)
        && sessions[dev].distanceTraveledKm == old(sessions[dev].distanceTraveledKm)
    {
      if dev !in sessions {
        return Failure("No active cruise");
      }
      var session := sessions[dev];
      if session.state != Paused {
        return Failure("Cannot resume: cruise is " + StateValue(session.state));
      }
      session.state := Running;
      session.lastUpdateTime := now;
      calls := calls + Emitted(emitterSet, dev, "cruiseResumed");
      return Success;
    }

    /** `set_cruise_speed`: fails without a session; otherwise keeps the speed clamped to [1, 50]. */
    method SetCruiseSpeed(dev: string, speedKmh: real) returns (r: Response)
      modifies if dev in sessions then {sessions[dev]} else {}
      ensures old(dev !in sessions) ==> r == Failure("No active cruise")
      ensures old(dev in sessions) ==>
        r == SpeedSet(ClampSpeed(speedKmh)) && sessions[dev].speedKmh == ClampSpeed(speedKmh)
        && sessions[dev].state == old(sessions[dev].state) && sessions[dev].current == old(sessions[dev].current)
        && sessions[dev].distanceTraveledKm == old(sessions[dev].distanceTraveledKm)
        && sessions[dev].lastUpdateTime == old(sessions[dev].lastUpdateTime)
    {
      if dev !in sessions {
        return Failure("No active cruise");
      }
      var session := sessions[dev];
      var v := ClampSpeed(speedKmh);
      session.speedKmh := v;
      return SpeedSet(v);
    }

    /** `get_cruise_status`: the idle answer for a device without a session, the session's status otherwise. */
    function CruiseStatus(dev: string, now: real): (st: Status)
      requires Valid()
      reads this, if dev in sessions then {sessions[dev]} else {}
      ensures st.deviceId == dev
      ensures st.IdleStatus? <==> dev !in sessions
      ensures dev in sessions ==> st.state == sessions[dev].state && st.location == sessions[dev].current
    {
      if dev !in sessions then IdleStatus(dev) else sessions[dev].ToStatus(dist, now)
    }

    /** `stop_all`: stops every session, one device at a time, until the registry is empty. */
    method StopAll()
      requires Valid()
      modifies this, sessions.Values
      ensures Valid() && sessions == map[] && locationSet == old(locationSet) && emitterSet == old(emitterSet)
      ensures forall k :: k in old(sessions) ==> old(sessions[k]).state == Stopped
      ensures |calls| == |old(calls)| + (if emitterSet then |old(sessions).Keys| else 0)
      ensures calls[..|old(calls)|] == old(calls)
      ensures forall i :: |old(calls)| <= i < |calls| ==> calls[i].Emit? && calls[i].event == "cruiseStopped" && calls[i].device in old(sessions)
      ensures emitterSet ==> forall k :: k in old(sessions) ==> exists i :: |old(calls)| <= i < |calls| && calls[i].device == k
    {
      ghost var s0 := sessions;
      ghost var c0 := calls;
      ghost var order: seq<string> := [];
      while sessions != map[]
        invariant Valid() && locationSet == old(locationSet) && emitterSet == old(emitterSet)
        invariant sessions.Keys <= s0.Keys && forall k :: k in sessions ==> sessions[k] == s0[k]
        invariant forall k :: k in s0 && k !in sessions ==> s0[k].state == Stopped
        invariant calls == c0 + StopEvents(emitterSet, order)
        invariant |order| == |s0.Keys| - |sessions.Keys|
        invariant forall i :: 0 <= i < |order| ==> order[i] in s0
        invariant forall k :: k in s0 && k !in sessions ==> k in order
        decreases |sessions.Keys|
      {
        var k := StopOne();
        StopEventsSnoc(c0, emitterSet, order, k);
        order := order + [k];
      }
      StopEventsDone(c0, emitterSet, order, s0.Keys);
    }

    /** One turn of `stop_all`: the session of some device `k` is stopped and leaves the registry. */
    method StopOne() returns (k: string)
      requires Valid() && sessions != map[]
      modifies this, sessions.Values
      ensures Valid() && locationSet == old(locationSet) && emitterSet == old(emitterSet)
      ensures k in old(sessions) && sessions == old(sessions) - {k} && old(sessions[k]).state == Stopped
      ensures calls == old(calls) + Emitted(emitterSet, k, "cruiseStopped")
      ensures forall j :: j in sessions ==> sessions[j].state == old(sessions[j].state)
      ensures |sessions.Keys| == |old(sessions).Keys| - 1
    {
      k :| k in sessions;
      ghost var keys := sessions.Keys;
      var _ := StopCruise(k);
      assert sessions.Keys == keys - {k};
    }

    /**
     * One iteration of `_cruise_loop` after its sleep, at time `now`: a
     * paused session waits; a session neither running nor paused ends the
     * loop; a running session within the threshold snaps to the target,
     * arrives and leaves the registry; any other running session moves by
     * `move` for the elapsed time and adds the step's length. The result says
     * whether the loop goes on.
     */
    method Tick(session: CruiseSession, now: real, move: Mover) returns (goOn: bool)
      modifies this, session
      ensures locationSet == old(locationSet) && emitterSet == old(emitterSet) && session.speedKmh == old(session.speedKmh)
      ensures old(session.state) == Paused ==>
        goOn && session.state == Paused && session.current == old(session.current)
        && session.distanceTraveledKm == old(session.distanceTraveledKm) && session.lastUpdateTime == old(session.lastUpdateTime)
        && sessions == old(sessions) && calls == old(calls)
      ensures old(session.state) != Paused && old(session.state) != Running ==>
        !goOn && session.state == old(session.state) && session.current == old(session.current)
        && session.distanceTraveledKm == old(session.distanceTraveledKm) && sessions == old(sessions) && calls == old(calls)
      ensures old(session.state) == Running ==> session.lastUpdateTime == now && session.distanceTraveledKm >= old(session.distanceTraveledKm)
      ensures old(session.state) == Running && dist(old(session.current), session.target) < ArrivalThresholdKm ==>
        var dev := session.deviceId;
        !goOn && session.current == session.target && session.distanceTraveledKm == old(session.distanceTraveledKm)
        && (old(dev in sessions) ==>
          session.state == Arrived && sessions == old(sessions) - {dev}
          && calls == old(calls) + Located(locationSet, dev, session.target) + Emitted(emitterSet, dev, "cruiseArrived"))
        && (old(dev !in sessions) ==>
          session.state == Stopped && sessions == old(sessions)
          && calls == old(calls) + Located(locationSet, dev, session.target) + Emitted(emitterSet, dev, "cruiseError"))
      ensures old(session.state) == Running && dist(old(session.current), session.target) >= ArrivalThresholdKm ==>
        var dev := session.deviceId;
        var next := move(old(session.current), session.target, session.speedKmh, now - old(session.lastUpdateTime));
        goOn && session.state == Running && session.current == next
        && session.distanceTraveledKm == old(session.distanceTraveledKm) + dist(old(session.current), next)
        && sessions == old(sessions)
        && calls == old(calls) + Located(locationSet, dev, next) + Emitted(emitterSet, dev, "cruiseUpdate")
    {
      if session.state == Paused {
        return true;
      }
      if session.state != Running {
        return false;
      }
      var dev := session.deviceId;
      var duration := now - session.lastUpdateTime;
      session.lastUpdateTime := now;
      var distance := dist(session.current, session.target);
      if distance < ArrivalThresholdKm {
        session.current := session.target;
        calls := calls + Located(locationSet, dev, session.target);
        session.state := Arrived;
        if dev in sessions {
          sessions := sessions - {dev};
          calls := calls + Emitted(emitterSet, dev, "cruiseArrived");
        } else {
          // `del` on a missing key raises; the handler stops the session and reports the error
          session.state := Stopped;
          calls := calls + Emitted(emitterSet, dev, "cruiseError");
        }
        return false;
      }
      var next := move(session.current, session.target, session.speedKmh, duration);
      var step := dist(session.current, next);
      session.distanceTraveledKm := session.distanceTraveledKm + step;
      session.current := next;
      calls := calls + Located(locationSet, dev, next);
      calls := calls + Emitted(emitterSet, dev, "cruiseUpdate");
      return true;
    }
  }
}
