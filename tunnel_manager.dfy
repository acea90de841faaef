/**
 * The tunnel manager's bookkeeping: the last known tunnel state of every
 * device, in the insertion order of the `_last_status` dictionary, and the
 * last error. The same bookkeeping appears in both the backend and the
 * python-backend tunnel managers; `StartTunnel` and `StopTunnel` are the
 * python-backend's.
 *
 * tunneld's decoded answer, the outcome of starting a new tunnel with
 * administrator rights and the clock are parameters.
 */
module TunnelManagement {
  import opened Wrappers
  import opened Text
  import opened Json
  import opened Models
  import opened Tunnels
  import Replies

  const ConnectionFailed := "Connection failed"
  const NoActiveTunnels := "No active tunnels"

  /** The state `_update_status` leaves: the new status, tunnel and error, and the clock reading when connected. */
  function Updated(s: TunnelState, status: TunnelStatus, tunnel: Option<RSDTunnel>, error: Option<string>, now: real): (r: TunnelState)
    ensures r.udid == s.udid && r.status == status && r.tunnelInfo == tunnel && r.error == error
    ensures r.lastQueried == s.lastQueried
    ensures r.lastValidated == if status == TunnelConnected then now else s.lastValidated
  {
    s.(status := status, tunnelInfo := tunnel, error := error,
       lastValidated := if status == TunnelConnected then now else s.lastValidated)
  }

  /** A state the legacy status reports as a running tunnel. */
  predicate Running(s: TunnelState)
  {
    s.status == TunnelConnected && s.tunnelInfo.Some?
  }

  /** The dictionary the legacy status answers with, its six keys in order. */
  function StatusObject(running: Value, address: Value, port: Value, udid: Value, message: Value, status: Value): (v: Value)
    ensures v.Obj? && Keys(v.fields) == ["running", "address", "port", "udid", "message", "status"]
  {
    Obj([("running", running), ("address", address), ("port", port), ("udid", udid),
         ("message", message), ("status", status)])
  }

  /** The values under `running`, `message` and `status` are the ones the dictionary was built with. */
  lemma StatusObjectFields(running: Value, address: Value, port: Value, udid: Value, message: Value, status: Value)
    ensures var r := StatusObject(running, address, port, udid, message, status).fields;
      Get(r, "running") == Some(running) && Get(r, "message") == Some(message) && Get(r, "status") == Some(status)
  {
    var r := StatusObject(running, address, port, udid, message, status).fields;
    GetAt(r, 0);
    assert forall j :: 0 <= j < 4 ==> r[j].0 != "message";
    GetAt(r, 4);
    assert forall j :: 0 <= j < 5 ==> r[j].0 != "status";
    GetAt(r, 5);
  }

  /** The legacy status of a connected tunnel. */
  function RunningStatus(s: TunnelState): (v: Value)
    requires Running(s)
    ensures v.Obj? && Keys(v.fields) == ["running", "address", "port", "udid", "message", "status"]
  {
    var t := s.tunnelInfo.value;
    StatusObject(Bool(true), Str(t.address), Int(t.port), Str(s.udid),
                 Str("Connected: " + t.address + ":" + IntToString(t.port)), Str(TunnelStatusValue(s.status)))
  }

  /** `self._last_error or "No active tunnels"`. */
  function IdleMessage(lastError: Option<string>): (m: string)
    ensures lastError.Some? && lastError.value != "" ==> m == lastError.value
    ensures lastError.None? || lastError.value == "" ==> m == NoActiveTunnels
  {
    if lastError.Some? && lastError.value != "" then lastError.value else NoActiveTunnels
  }

  /** The legacy status when no tunnel is connected. */
  function IdleStatus(lastError: Option<string>): (v: Value)
    ensures v.Obj? && Keys(v.fields) == ["running", "address", "port", "udid", "message", "status"]
  {
    StatusObject(Bool(false), Null, Null, Null, Str(IdleMessage(lastError)), Str(TunnelStatusValue(NoTunnel)))
  }

  /** The legacy status of a connected tunnel says it runs, with status "connected". */
  lemma RunningStatusFields(s: TunnelState)
    requires Running(s)
    ensures Get(RunningStatus(s).fields, "running") == Some(Bool(true))
    ensures Get(RunningStatus(s).fields, "status") == Some(Str("connected"))
  {
    var t := s.tunnelInfo.value;
    StatusObjectFields(Bool(true), Str(t.address), Int(t.port), Str(s.udid),
                       Str("Connected: " + t.address + ":" + IntToString(t.port)), Str(TunnelStatusValue(s.status)));
  }

  /** The idle legacy status says no tunnel runs, with status "no_tunnel" and the idle message. */
  lemma IdleStatusFields(lastError: Option<string>)
    ensures Get(IdleStatus(lastError).fields, "running") == Some(Bool(false))
    ensures Get(IdleStatus(lastError).fields, "message") == Some(Str(IdleMessage(lastError)))
    ensures Get(IdleStatus(lastError).fields, "status") == Some(Str("no_tunnel"))
  {
    StatusObjectFields(Bool(false), Null, Null, Null, Str(IdleMessage(lastError)), Str(TunnelStatusValue(NoTunnel)));
  }

  /** `{"success": True, ...}` for a tunnel that is up. */
  function StartedReply(t: RSDTunnel, udid: string): Value
  {
    Obj([("success", Bool(true)), ("address", Str(t.address)), ("port", Int(t.port)), ("udid", Str(udid)),
         ("status", Str(TunnelStatusValue(TunnelConnected)))])
  }

  function FailedReply(error: string): Value
  {
    Obj([("success", Bool(false)), ("error", Str(error))])
  }

  /** What starting a new tunnel (`_start_new_tunnel`) gives: the tunnel, if one came up, and the last error it left. */
  datatype StartAttempt = StartAttempt(tunnel: Option<RSDTunnel>, error: Option<string>)

  predicate Distinct(s: seq<string>)
  {
    forall i, j :: 0 <= i < j < |s| ==> s[i] != s[j]
  }

  /** `s` without `k`, the others in their order. */
  function Without(s: seq<string>, k: string): (r: seq<string>)
    ensures forall x :: x in r <==> x in s && x != k
    ensures Distinct(s) ==> Distinct(r)
  {
    if s == [] then []
    else if s[0] == k then Without(s[1..], k)
    else
      var r := [s[0]] + Without(s[1..], k);
      assert forall i :: 1 <= i < |r| ==> r[i] in Without(s[1..], k);
      r
  }

  class TunnelManager {
    /** `_last_status`: the states, and the order in which their devices were first recorded. */
    var status: map<string, TunnelState>
    var order: seq<string>
    var lastError: Option<string>

    /** The order lists every recorded device exactly once, and every state belongs to the device it is filed under. */
    predicate Valid()
      reads this
    {
      Distinct(order)
      && (forall k :: k in status ==> k in order)
      && (forall i :: 0 <= i < |order| ==> order[i] in status)
      && (forall k :: k in status ==> status[k].udid == k)
    }

    constructor ()
      ensures Valid() && status == map[] && order == [] && lastError.None?
    {
      status := map[];
      order := [];
      lastError := None;
    }

    /** The recorded state of a device, or the default state for it. */
    function Entry(udid: string): (s: TunnelState)
      reads this
      requires Valid()
      ensures s.udid == udid
      ensures udid !in status ==> s == DefaultTunnelState(udid)
    {
      if udid in status then status[udid] else DefaultTunnelState(udid)
    }

    /**
     * `_update_status`: the device's entry is created when missing (at the
     * end of the order) and gets the new status, tunnel and error; the
     * validation time moves only for a connected tunnel.
     */
    method UpdateStatus(udid: string, st: TunnelStatus, tunnel: Option<RSDTunnel>, error: Option<string>, now: real)
      requires Valid()
      modifies this
      ensures Valid()
      ensures status == old(status)[udid := Updated(old(Entry(udid)), st, tunnel, error, now)]
      ensures order == if udid in old(status) then old(order) else old(order) + [udid]
      ensures lastError == old(lastError)
    {
      var s := Entry(udid);
      if udid !in status {
        order := order + [udid];
      }
      status := status[udid := Updated(s, st, tunnel, error, now)];
    }

    /** `invalidate`: a recorded device is marked disconnected with "Connection failed"; anything else is left alone. */
    method Invalidate(udid: string)
      requires Valid()
      modifies this
      ensures Valid() && order == old(order) && lastError == old(lastError)
      ensures udid in old(status) ==>
        status == old(status)[udid := old(status)[udid].(status := TunnelDisconnected, error := Some(ConnectionFailed))]
      ensures udid !in old(status) ==> status == old(status)
    {
      if udid in status {
        var s := status[udid];
        status := status[udid := s.(status := TunnelDisconnected, error := Some(ConnectionFailed))];
      }
    }

    /**
     * `get_status`: for a device, its recorded state or the default one;
     * without a device (or with an empty udid), the first running tunnel
     * in dictionary order, else the idle status with the last error.
     */
    method GetStatus(udid: Option<string>) returns (v: Value)
      requires Valid()
      ensures udid.Some? && udid.value != "" ==> v == TunnelStateToDict(Entry(udid.value))
      ensures (udid.None? || udid.value == "") && (exists i :: 0 <= i < |order| && Running(status[order[i]])) ==>
        exists i :: 0 <= i < |order| && Running(status[order[i]]) && v == RunningStatus(status[order[i]])
          && forall j :: 0 <= j < i ==> !Running(status[order[j]])
      ensures (udid.None? || udid.value == "") && (forall i :: 0 <= i < |order| ==> !Running(status[order[i]])) ==>
        v == IdleStatus(lastError)
    {
      if udid.Some? && udid.value != "" {
        return TunnelStateToDict(Entry(udid.value));
      }
      var i := 0;
      while i < |order|
        invariant 0 <= i <= |order|
        invariant forall j :: 0 <= j < i ==> !Running(status[order[j]])
        decreases |order| - i
      {
        var s := status[order[i]];
        if s.status == TunnelConnected && s.tunnelInfo.Some? {
          return RunningStatus(s);
        }
        i := i + 1;
      }
      return IdleStatus(lastError);
    }

    /**
     * `get_tunnel`: an empty udid is refused with nothing recorded;
     * otherwise tunneld's answer is returned and recorded as connected, or
     * as no tunnel when there is none.
     */
    method GetTunnel(udid: string, response: Option<Value>, repr: Value -> string, now: real) returns (t: Option<RSDTunnel>)
      requires Valid()
      modifies this
      ensures Valid() && lastError == old(lastError)
      ensures udid == "" ==> t.None? && status == old(status) && order == old(order)
      ensures udid != "" ==> t == Answer(response, udid, repr)
      ensures udid != "" ==>
        status == old(status)[udid := Updated(old(Entry(udid)), if t.Some? then TunnelConnected else NoTunnel, t, None, now)]
        && order == if udid in old(status) then old(order) else old(order) + [udid]
    {
      if udid == "" {
        return None;
      }
      t := QueryTunneld(response, udid, repr);
      UpdateStatus(udid, if t.Some? then TunnelConnected else NoTunnel, t, None, now);
    }

    /**
     * `start_tunnel`: an empty udid is refused with nothing changed. The
     * last error is cleared; a tunnel tunneld already knows is recorded
     * and reported; otherwise a new tunnel is started, and its tunnel, or
     * its failure with the error it left, is recorded and reported.
     */
    method StartTunnel(udid: string, response: Option<Value>, repr: Value -> string, attempt: StartAttempt, now: real)
      returns (v: Value)
      requires Valid()
      modifies this
      ensures Valid()
      ensures udid == "" ==>
        v == FailedReply("UDID required") && status == old(status) && order == old(order) && lastError == old(lastError)
      ensures udid != "" ==> order == if udid in old(status) then old(order) else old(order) + [udid]
      ensures udid != "" && Answer(response, udid, repr).Some? ==>
        var t := Answer(response, udid, repr).value;
        v == StartedReply(t, udid) && lastError.None?
        && status == old(status)[udid := Updated(old(Entry(udid)), TunnelConnected, Some(t), None, now)]
      ensures udid != "" && Answer(response, udid, repr).None? && attempt.tunnel.Some? ==>
        var t := attempt.tunnel.value;
        v == StartedReply(t, udid) && lastError == attempt.error
        && status == old(status)[udid := Updated(old(Entry(udid)), TunnelConnected, Some(t), None, now)]
      ensures udid != "" && Answer(response, udid, repr).None? && attempt.tunnel.None? ==>
        v == FailedReply(if attempt.error.Some? && attempt.error.value != "" then attempt.error.value else "Unknown error")
        && lastError == attempt.error
        && status == old(status)[udid := Updated(old(Entry(udid)), TunnelError, None, attempt.error, now)]
    {
      if udid == "" {
        return FailedReply("UDID required");
      }
      lastError := None;
      var t := QueryTunneld(response, udid, repr);
      v := StartFromQuery(udid, t, attempt, now);
    }

    /**
     * `start_tunnel` after its query: a tunnel the daemon already has is
     * recorded as connected and the last error stays cleared; otherwise a new
     * tunnel is started.
     */
    method StartFromQuery(udid: string, found: Option<RSDTunnel>, attempt: StartAttempt, now: real) returns (v: Value)
      requires Valid() && lastError.None?
      modifies this
      ensures Valid()
      ensures order == if udid in old(status) then old(order) else old(order) + [udid]
      ensures found.Some? ==>
        v == StartedReply(found.value, udid) && lastError.None?
        && status == old(status)[udid := Updated(old(Entry(udid)), TunnelConnected, found, None, now)]
      ensures found.None? && attempt.tunnel.Some? ==>
        v == StartedReply(attempt.tunnel.value, udid) && lastError == attempt.error
        && status == old(status)[udid := Updated(old(Entry(udid)), TunnelConnected, attempt.tunnel, None, now)]
      ensures found.None? && attempt.tunnel.None? ==>
        v == FailedReply(if attempt.error.Some? && attempt.error.value != "" then attempt.error.value else "Unknown error")
        && lastError == attempt.error
        && status == old(status)[udid := Updated(old(Entry(udid)), TunnelError, None, attempt.error, now)]
    {
      if found.Some? {
        UpdateStatus(udid, TunnelConnected, found, None, now);
        return StartedReply(found.value, udid);
      }
      v := StartNewTunnel(udid, attempt, now);
    }

    /**
     * The second step of `start_tunnel`, once `_start_new_tunnel` has run and
     * left its tunnel, if any, and its last error: a tunnel is recorded as
     * connected; otherwise the device is recorded in error with that error.
     */
    method StartNewTunnel(udid: string, attempt: StartAttempt, now: real) returns (v: Value)
      requires Valid()
      modifies this
      ensures Valid() && lastError == attempt.error
      ensures order == if udid in old(status) then old(order) else old(order) + [udid]
      ensures attempt.tunnel.Some? ==>
        v == StartedReply(attempt.tunnel.value, udid)
        && status == old(status)[udid := Updated(old(Entry(udid)), TunnelConnected, attempt.tunnel, None, now)]
      ensures attempt.tunnel.None? ==>
        v == FailedReply(if attempt.error.Some? && attempt.error.value != "" then attempt.error.value else "Unknown error")
        && status == old(status)[udid := Updated(old(Entry(udid)), TunnelError, None, attempt.error, now)]
    {
      lastError := attempt.error;
      if attempt.tunnel.Some? {
        UpdateStatus(udid, TunnelConnected, attempt.tunnel, None, now);
        return StartedReply(attempt.tunnel.value, udid);
      }
      UpdateStatus(udid, TunnelError, None, lastError, now);
      return FailedReply(if lastError.Some? && lastError.value != "" then lastError.value else "Unknown error");
    }

    /**
     * `stop_tunnel`: with a udid, only that device's state is forgotten;
     * without one, every state is. Either way the answer is success.
     */
    method StopTunnel(udid: Option<string>) returns (r: Replies.Response)
      requires Valid()
      modifies this
      ensures Valid() && r == Replies.Success && lastError == old(lastError)
      ensures udid.Some? && udid.value != "" ==>
        status == old(status) - {udid.value} && order == Without(old(order), udid.value)
      ensures udid.None? || udid.value == "" ==> status == map[] && order == []
    {
      if udid.Some? && udid.value != "" {
        status := status - {udid.value};
        order := Without(order, udid.value);
        forall i | 0 <= i < |order|
          ensures order[i] in old(order) && order[i] != udid.value
        {
          assert order[i] in order;
        }
      } else {
        status := map[];
        order := [];
      }
      return Replies.Success;
    }
  }

  /** A freshly recorded device starts from the defaults: only a connected status stamps the validation time. */
  lemma FreshEntry(udid: string, status: TunnelStatus, tunnel: Option<RSDTunnel>, error: Option<string>, now: real)
    ensures var s := Updated(DefaultTunnelState(udid), status, tunnel, error, now);
      s.lastQueried == 0.0 && (s.lastValidated == if status == TunnelConnected then now else 0.0)
  {
  }
}
