/**
 * The hub's websocket endpoint and REST handlers. Each frame a controller sends is classified by
 * `Dispatch`; a session's frames become a log of registry calls (`SessionCalls`), which
 * `ServeSession` applies to the registry object. The endpoint as written names registry members
 * that do not exist; `EndpointAsWritten` models that, and `ServeSession` the evidently intended
 * composition with the real registry.
 */
module HubApp {
  import opened Wrappers
  import opened Json
  import opened Models
  import opened Registry

  /** A text frame: either it does not decode as JSON, or it decodes to a value. */
  datatype Frame = Undecodable | Decoded(value: Value)

  /** One outcome of `receive_text`, with the time at which it happened. */
  datatype Receive = Text(frame: Frame, at: int) | Closed(at: int) | Failed(at: int)

  /** What the endpoint does with one decoded frame. */
  datatype Action =
    | Skip                           // undecodable, or `type` missing or falsy: next frame
    | Abort                          // not a JSON object: `.get` raises, the session ends
    | ApplyStatus(status: StatusMessage)
    | RejectStatus                   // a status frame that fails validation: logged, next frame
    | Refresh                        // heartbeat
    | Ignore                         // any other type: logged, next frame

  function Dispatch(f: Frame): Action {
    match f
    case Undecodable => Skip
    case Decoded(v) =>
      if !v.Obj? then Abort
      else
        var t := Get(v.fields, "type");
        if !Truthy(t) then Skip
        else if t == Str(Tag(Status)) then
          (match ParseStatusMessage(v.fields)
           case Ok(status) => ApplyStatus(status)
           case Err(_) => RejectStatus)
        else if t == Str(Tag(Heartbeat)) then Refresh
        else Ignore
  }

  /** Only a status or heartbeat frame reaches the registry, and only a non-object frame ends the session. */
  lemma DispatchCases(f: Frame)
    ensures Dispatch(f).ApplyStatus? || Dispatch(f).RejectStatus? ==>
      f.Decoded? && f.value.Obj? && Get(f.value.fields, "type") == Str("status")
    ensures Dispatch(f) == Refresh <==> f.Decoded? && f.value.Obj? && Get(f.value.fields, "type") == Str("heartbeat")
    ensures Dispatch(f) == Abort <==> f.Decoded? && !f.value.Obj?
    ensures f.Decoded? && f.value.Obj? && !Truthy(Get(f.value.fields, "type")) ==> Dispatch(f) == Skip
    ensures f.Decoded? && f.value.Obj? && Get(f.value.fields, "type") == Str("status") ==>
      (Dispatch(f).ApplyStatus? <==> ParseStatusMessage(f.value.fields).Ok?)
  {
  }

  // ---------------------------------------------------------------------------
  // The calls a session makes on the registry
  // ---------------------------------------------------------------------------

  datatype Call =
    | ConnectCall(id: string, at: int)
    | UpdateCall(id: string, program: Option<string>, random: Option<bool>, speed: Option<int>,
                 direction: Option<string>, color: Option<string>, at: int)
    | HeartbeatCall(id: string, at: int)
    | DisconnectCall(id: string, at: int)

  /** A receive that ends the session: a disconnect, a receive error, or a frame whose handling raises. */
  predicate Ends(r: Receive) {
    !r.Text? || Dispatch(r.frame) == Abort
  }

  /** The registry calls the frame loop makes for `receives`, up to and including the one that ends the session. */
  function FrameCalls(id: string, receives: seq<Receive>): seq<Call>
    decreases |receives|
  {
    if receives == [] then []
    else
      var r := receives[0];
      if !r.Text? then [DisconnectCall(id, r.at)]
      else
        match Dispatch(r.frame)
        case Abort => [DisconnectCall(id, r.at)]
        case ApplyStatus(s) =>
          [UpdateCall(id, s.program, s.random, s.speed, s.direction, s.color, r.at)] + FrameCalls(id, receives[1..])
        case Refresh => [HeartbeatCall(id, r.at)] + FrameCalls(id, receives[1..])
        case _ => FrameCalls(id, receives[1..])
  }

  /** A whole session: connect first, then the frame loop. */
  function SessionCalls(id: string, now: int, receives: seq<Receive>): seq<Call> {
    [ConnectCall(id, now)] + FrameCalls(id, receives)
  }

  predicate SomeEnd(receives: seq<Receive>) {
    exists k :: 0 <= k < |receives| && Ends(receives[k])
  }

  /** Past a first receive that does not end the session, the session ends exactly when the rest ends it. */
  lemma SomeEndLater(receives: seq<Receive>)
    requires receives != [] && !Ends(receives[0])
    ensures SomeEnd(receives) <==> SomeEnd(receives[1..])
  {
    var rest := receives[1..];
    if SomeEnd(receives) {
      var k :| 0 <= k < |receives| && Ends(receives[k]);
      assert k > 0 && Ends(rest[k - 1]);
    }
    if SomeEnd(rest) {
      var k :| 0 <= k < |rest| && Ends(rest[k]);
      assert Ends(receives[k + 1]);
    }
  }

  /**
   * The frame loop disconnects exactly when some receive ends the session; the disconnect is its last
   * call and nothing before it is a disconnect; every call is about this session's id.
   */
  lemma {:induction false} DisconnectIffEnded(id: string, receives: seq<Receive>)
    ensures var calls := FrameCalls(id, receives);
      && (SomeEnd(receives) <==> |calls| > 0 && calls[|calls| - 1].DisconnectCall?)
      && (forall j :: 0 <= j < |calls| - 1 ==> !calls[j].DisconnectCall? && !calls[j].ConnectCall?)
      && (forall j :: 0 <= j < |calls| ==> calls[j].id == id)
      && |calls| <= |receives|
    decreases |receives|
  {
    if receives != [] {
      var r := receives[0];
      var rest := receives[1..];
      DisconnectIffEnded(id, rest);
      if !Ends(r) {
        var tail := FrameCalls(id, rest);
        var calls := FrameCalls(id, receives);
        assert calls == tail || calls[1..] == tail;
        SomeEndLater(receives);
      } else {
        assert Ends(receives[0]);
      }
    }
  }

  /** Frames that are skipped, rejected or ignored leave no trace in the registry calls. */
  lemma {:induction false} QuietFramesNoCalls(id: string, receives: seq<Receive>)
    requires forall k :: 0 <= k < |receives| ==>
      receives[k].Text? && Dispatch(receives[k].frame) in {Skip, RejectStatus, Ignore}
    ensures FrameCalls(id, receives) == []
    decreases |receives|
  {
    if receives != [] {
      QuietFramesNoCalls(id, receives[1..]);
    }
  }

  /** The frame loop over `receives`, collecting the calls it makes on the registry. */
  method FrameLoop(id: string, receives: seq<Receive>) returns (calls: seq<Call>)
    ensures calls == FrameCalls(id, receives)
  {
    calls := [];
    var pending := receives;
    while pending != []
      invariant calls + FrameCalls(id, pending) == FrameCalls(id, receives)
      decreases |pending|
    {
      var r := pending[0];
      pending := pending[1..];
      if !r.Text? {
        calls := calls + [DisconnectCall(id, r.at)];
        return;
      }
      var action := Dispatch(r.frame);
      match action {
        case Abort =>
          calls := calls + [DisconnectCall(id, r.at)];
          return;
        case ApplyStatus(s) =>
          calls := calls + [UpdateCall(id, s.program, s.random, s.speed, s.direction, s.color, r.at)];
        case Refresh =>
          calls := calls + [HeartbeatCall(id, r.at)];
        case _ =>
      }
    }
  }

  // ---------------------------------------------------------------------------
  // The endpoint against the registry as it is written
  // ---------------------------------------------------------------------------

  /** The registry's public methods, and the keyword parameters its `update_state` accepts. */
  const RegistryMethodNames: set<string> := {
    "connect", "disconnect", "disconnect_all", "is_connected", "get_state", "get_all_states",
    "update_state", "update_heartbeat", "send_command", "cleanup_stale_connections"}
  const UpdateStateKeywords: set<string> := {"program", "speed", "direction", "color"}

  /** Whether the registry accepts a call under the name and keywords the endpoint uses. */
  predicate Resolves(c: Call) {
    match c
    case ConnectCall(_, _) => "connect_controller" in RegistryMethodNames
    case UpdateCall(_, _, _, _, _, _, _) => "update_state" in RegistryMethodNames && "random" in UpdateStateKeywords
    case HeartbeatCall(_, _) => "update_heartbeat" in RegistryMethodNames
    case DisconnectCall(_, _) => "disconnect_controller" in RegistryMethodNames
  }

  datatype Outcome = Served(applied: seq<Call>) | Raised(failed: Call)

  /**
   * Runs a call log against the registry as written. A status update that is refused raises inside the
   * status handler's `try` and is swallowed; any other refused call escapes the endpoint.
   */
  function RunAsWritten(calls: seq<Call>): Outcome
    decreases |calls|
  {
    if calls == [] then Served([])
    else if Resolves(calls[0]) then
      match RunAsWritten(calls[1..])
      case Served(rest) => Served([calls[0]] + rest)
      case Raised(c) => Raised(c)
    else if calls[0].UpdateCall? then RunAsWritten(calls[1..])
    else Raised(calls[0])
  }

  function EndpointAsWritten(id: string, now: int, receives: seq<Receive>): Outcome {
    RunAsWritten(SessionCalls(id, now, receives))
  }

  /**
   * As written, every session fails at its first call, before any frame is read: no controller is ever
   * registered. Even past that, no status update could be applied and no disconnect recorded.
   */
  lemma AsWrittenNeverConnects(id: string, now: int, receives: seq<Receive>)
    ensures EndpointAsWritten(id, now, receives) == Raised(ConnectCall(id, now))
    ensures forall c: Call :: (c.UpdateCall? || c.DisconnectCall? || c.ConnectCall?) ==> !Resolves(c)
  {
  }

  // ---------------------------------------------------------------------------
  // The endpoint against the real registry
  // ---------------------------------------------------------------------------

  datatype Snapshot = Snapshot(active: map<string, Session>, states: map<string, CandlestickState>)

  /** What the registry's own operation for a call does to its two maps (`random` is not stored). */
  function ApplyCall(s: Snapshot, session: Session, c: Call): Snapshot {
    match c
    case ConnectCall(id, at) => Snapshot(s.active[id := session], ConnectedStates(s.states, id, at))
    case UpdateCall(id, program, _, speed, direction, color, at) =>
      if id in s.states then Snapshot(s.active, s.states[id := Merge(s.states[id], program, speed, direction, color, at)])
      else s
    case HeartbeatCall(id, at) =>
      if id in s.states then Snapshot(s.active, s.states[id := s.states[id].(lastSeen := at)]) else s
    case DisconnectCall(id, at) => Snapshot(s.active - {id}, DisconnectedStates(s.states, {id}, at))
  }

  function ApplyCalls(s: Snapshot, session: Session, calls: seq<Call>): Snapshot
    decreases |calls|
  {
    if calls == [] then s else ApplyCalls(ApplyCall(s, session, calls[0]), session, calls[1..])
  }

  /** Applying a call log keeps the registry invariant and never forgets a state. */
  lemma {:induction false} ApplyCallsCoherent(s: Snapshot, session: Session, calls: seq<Call>)
    requires Coherent(s.active, s.states)
    ensures Coherent(ApplyCalls(s, session, calls).active, ApplyCalls(s, session, calls).states)
    ensures s.states.Keys <= ApplyCalls(s, session, calls).states.Keys
    decreases |calls|
  {
    if calls != [] {
      var c := calls[0];
      match c {
        case ConnectCall(id, at) => ConnectKeepsCoherent(s.active, s.states, session, id, at);
        case DisconnectCall(id, at) => DisconnectKeepsCoherent(s.active, s.states, {id}, at);
        case _ =>
      }
      ApplyCallsCoherent(ApplyCall(s, session, c), session, calls[1..]);
    }
  }

  /** Applying a log whose last call is a disconnect of `id` leaves `id` known, disconnected and without a session. */
  lemma {:induction false} EndedSessionDisconnected(s: Snapshot, session: Session, calls: seq<Call>, id: string)
    requires Coherent(s.active, s.states)
    requires id in s.states
    requires |calls| > 0 && calls[|calls| - 1] == DisconnectCall(id, calls[|calls| - 1].at)
    ensures var after := ApplyCalls(s, session, calls);
      id !in after.active && id in after.states && !after.states[id].connected
    decreases |calls|
  {
    if |calls| > 1 {
      var next := ApplyCall(s, session, calls[0]);
      ApplyCallsCoherent(s, session, calls[..1]);
      assert ApplyCalls(s, session, calls[..1]) == ApplyCalls(next, session, []);
      assert calls[1..][|calls[1..]| - 1] == calls[|calls| - 1];
      EndedSessionDisconnected(next, session, calls[1..], id);
    }
  }

  /**
   * A session served against the real registry: once some receive ends it, its controller is known and
   * no longer connected.
   */
  lemma SessionEndsDisconnected(s: Snapshot, session: Session, id: string, now: int, receives: seq<Receive>)
    requires Coherent(s.active, s.states)
    requires SomeEnd(receives)
    ensures var after := ApplyCalls(s, session, SessionCalls(id, now, receives));
      id !in after.active && id in after.states && !after.states[id].connected
  {
    var calls := SessionCalls(id, now, receives);
    var first := ApplyCall(s, session, calls[0]);
    ConnectKeepsCoherent(s.active, s.states, session, id, now);
    DisconnectIffEnded(id, receives);
    assert calls[1..] == FrameCalls(id, receives);
    var frames := FrameCalls(id, receives);
    assert frames[|frames| - 1] == DisconnectCall(id, frames[|frames| - 1].at);
    EndedSessionDisconnected(first, session, frames, id);
  }

  /**
   * The endpoint composed with the real registry: accept and register the controller, then run the
   * frame loop, applying each frame's call to the registry as it comes. If accepting fails nothing changes.
   */
  method ServeSession(m: ConnectionManager, session: Session, id: string, now: int, acceptOk: bool,
                      receives: seq<Receive>)
    requires m.Valid()
    modifies m
    ensures m.Valid()
    ensures !acceptOk ==> m.activeConnections == old(m.activeConnections) && m.states == old(m.states)
    ensures acceptOk ==>
      Snapshot(m.activeConnections, m.states) ==
        ApplyCalls(Snapshot(old(m.activeConnections), old(m.states)), session, SessionCalls(id, now, receives))
    ensures m.outbox == old(m.outbox)
  {
    m.Connect(session, id, now, acceptOk);
    if !acceptOk {
      return;
    }
    ghost var goal := ApplyCalls(Snapshot(old(m.activeConnections), old(m.states)), session, SessionCalls(id, now, receives));
    assert SessionCalls(id, now, receives)[1..] == FrameCalls(id, receives);
    var pending := receives;
    while pending != []
      invariant m.Valid()
      invariant m.outbox == old(m.outbox)
      invariant ApplyCalls(Snapshot(m.activeConnections, m.states), session, FrameCalls(id, pending)) == goal
      decreases |pending|
    {
      var ended := ServeFrame(m, session, id, pending);
      if ended {
        return;
      }
      pending := pending[1..];
    }
  }

  /** One pass of the frame loop: the first pending frame's call is applied to the registry. */
  method ServeFrame(m: ConnectionManager, session: Session, id: string, pending: seq<Receive>) returns (ended: bool)
    requires m.Valid() && pending != []
    modifies m
    ensures m.Valid() && m.outbox == old(m.outbox)
    ensures ended ==>
      Snapshot(m.activeConnections, m.states) ==
      ApplyCalls(Snapshot(old(m.activeConnections), old(m.states)), session, FrameCalls(id, pending))
    ensures !ended ==>
      ApplyCalls(Snapshot(m.activeConnections, m.states), session, FrameCalls(id, pending[1..])) ==
      ApplyCalls(Snapshot(old(m.activeConnections), old(m.states)), session, FrameCalls(id, pending))
  {
    var r := pending[0];
    ghost var before := Snapshot(m.activeConnections, m.states);
    if Ends(r) {
      m.Disconnect(id, r.at);
      assert FrameCalls(id, pending) == [DisconnectCall(id, r.at)];
      assert ApplyCalls(before, session, [DisconnectCall(id, r.at)]) ==
        ApplyCalls(ApplyCall(before, session, DisconnectCall(id, r.at)), session, []);
      return true;
    }
    var action := Dispatch(r.frame);
    if action.ApplyStatus? {
      var status := action.status;
      m.UpdateState(id, status.program, status.speed, status.direction, status.color, r.at);
      ghost var c := UpdateCall(id, status.program, status.random, status.speed, status.direction, status.color, r.at);
      assert FrameCalls(id, pending) == [c] + FrameCalls(id, pending[1..]);
      assert ([c] + FrameCalls(id, pending[1..]))[1..] == FrameCalls(id, pending[1..]);
    } else if action == Refresh {
      m.UpdateHeartbeat(id, r.at);
      ghost var c := HeartbeatCall(id, r.at);
      assert FrameCalls(id, pending) == [c] + FrameCalls(id, pending[1..]);
      assert ([c] + FrameCalls(id, pending[1..]))[1..] == FrameCalls(id, pending[1..]);
    }
    return false;
  }

  // ---------------------------------------------------------------------------
  // REST handlers
  // ---------------------------------------------------------------------------

  /**
   * The command endpoint: 422 when the body is not a valid command, 404 without sending when the controller
   * is not connected, 200 when the send succeeds and 500 when it fails.
   */
  method PostCommand(m: ConnectionManager, id: string, body: Value, sendOk: bool, now: int) returns (status: int)
    requires m.Valid()
    modifies m
    ensures m.Valid()
    ensures var valid := body.Obj? && ParseCandlestickCommand(body.fields).Ok?;
      && (status == 422 <==> !valid)
      && (status == 404 <==> valid && id !in old(m.activeConnections))
      && (status == 200 <==> valid && id in old(m.activeConnections) && sendOk)
      && (status == 500 <==> valid && id in old(m.activeConnections) && !sendOk)
    ensures status != 200 ==> m.states == old(m.states) && m.outbox == old(m.outbox)
    ensures status == 200 ==> var cmd := ParseCandlestickCommand(body.fields).value;
      && m.outbox == old(m.outbox) + [(old(m.activeConnections)[id], CommandPayload(cmd))]
      && m.states == old(m.states)[id := Merge(old(m.states)[id], cmd.program, cmd.speed, cmd.direction, cmd.color, now)]
    ensures m.activeConnections == old(m.activeConnections)
  {
    if !body.Obj? || ParseCandlestickCommand(body.fields).Err? {
      return 422;
    }
    var cmd := ParseCandlestickCommand(body.fields).value;
    if !m.IsConnected(id) {
      return 404;
    }
    var r := m.SendCommand(id, cmd, sendOk, now);
    status := if r.Ok? then 200 else 500;
  }

  /** The single-controller endpoint: the stored state, or 404 when there is none. */
  function GetCandlestick(states: map<string, CandlestickState>, id: string): (r: Result<CandlestickState, int>)
    ensures r.Err? <==> id !in states
    ensures r.Err? ==> r.error == 404
    ensures r.Ok? ==> r.value == states[id]
  {
    if id in states then Ok(states[id]) else Err(404)
  }

  /** In a coherent registry the state returned for an id is that controller's own state. */
  lemma GetCandlestickOwnState(active: map<string, Session>, states: map<string, CandlestickState>, id: string)
    requires Coherent(active, states)
    ensures GetCandlestick(states, id).Ok? ==> GetCandlestick(states, id).value.id == id
    ensures GetCandlestick(states, id).Ok? && GetCandlestick(states, id).value.connected <==> id in active
  {
  }

  /** The health endpoint's `connected_candlesticks`: the number of stored states, connected or not. */
  function HealthCount(states: map<string, CandlestickState>): nat {
    |states|
  }

  function ConnectedIds(states: map<string, CandlestickState>): set<string> {
    set id | id in states && states[id].connected
  }

  lemma {:induction false} SubsetSmaller(a: set<string>, b: set<string>)
    requires a <= b
    ensures |a| <= |b|
    ensures |a| == |b| ==> a == b
    decreases |b|
  {
    if b != {} {
      var x :| x in b;
      SubsetSmaller(a - {x}, b - {x});
      assert |b - {x}| == |b| - 1;
      if x in a {
        assert |a - {x}| == |a| - 1;
        assert a == (a - {x}) + {x};
      } else {
        assert a - {x} == a;
      }
    }
  }

  /**
   * The health count never undercounts the live sessions, and equals them exactly when every stored
   * controller is connected.
   */
  lemma HealthCountsStoredStates(active: map<string, Session>, states: map<string, CandlestickState>)
    requires Coherent(active, states)
    ensures HealthCount(states) >= |active|
    ensures HealthCount(states) == |active| <==> forall id :: id in states ==> states[id].connected
  {
    assert active.Keys == ConnectedIds(states);
    SubsetSmaller(ConnectedIds(states), states.Keys);
    assert |states| == |states.Keys|;
    assert |active| == |active.Keys|;
    if forall id :: id in states ==> states[id].connected {
      assert ConnectedIds(states) == states.Keys;
    }
    if |active| == |states| {
      forall id | id in states ensures states[id].connected {
        assert id in ConnectedIds(states);
      }
    }
  }
}
