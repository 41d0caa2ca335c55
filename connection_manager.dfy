/**
 * The hub's registry of candlestick controllers: live websocket sessions and the last known
 * state of every controller, keyed by controller id. Time is an integer number of microseconds
 * passed in as `now`; a websocket is an opaque session handle, and whether accepting, sending
 * or closing on it succeeds is a parameter.
 */
module Registry {
  import opened Wrappers
  import opened Json
  import opened Models

  /** An opaque websocket session. */
  datatype Session = Session(handle: nat)

  const MicrosPerMinute: int := 60_000_000
  /** The sweep's default `timeout_minutes`. */
  const DefaultTimeoutMinutes: int := 5

  // ---------------------------------------------------------------------------
  // The registry's two maps, and what each operation makes of them
  // ---------------------------------------------------------------------------

  /**
   * The registry invariant: an id has a live session exactly when it has a state marked
   * connected, and every state is filed under its own id.
   */
  predicate Coherent(active: map<string, Session>, states: map<string, CandlestickState>) {
    && (forall id :: id in active ==> id in states && states[id].connected)
    && (forall id :: id in states ==> states[id].id == id && (states[id].connected ==> id in active))
  }

  /** The states after `connect`: a known id is marked connected and seen now, a new id gets a fresh state. */
  function ConnectedStates(states: map<string, CandlestickState>, id: string, now: int): map<string, CandlestickState> {
    if id in states then states[id := states[id].(connected := true, lastSeen := now)]
    else states[id := NewState(id, true, now)]
  }

  /** The states after `disconnect` of every id in `ids`: each known one is marked disconnected and seen now. */
  function DisconnectedStates(states: map<string, CandlestickState>, ids: set<string>, now: int): map<string, CandlestickState> {
    map id | id in states :: if id in ids then states[id].(connected := false, lastSeen := now) else states[id]
  }

  /** The `update_state` merge: each field changes only when its argument is present; last seen is always refreshed. */
  function Merge(s: CandlestickState, program: Option<string>, speed: Option<int>,
                 direction: Option<string>, color: Option<string>, now: int): CandlestickState {
    s.(program := if program.Some? then program else s.program,
       speed := if speed.Some? then speed else s.speed,
       direction := if direction.Some? then direction else s.direction,
       color := if color.Some? then color else s.color,
       lastSeen := now)
  }

  /** A state the sweep removes: disconnected and last seen strictly more than the timeout ago. */
  predicate IsStale(s: CandlestickState, now: int, timeoutMinutes: int) {
    !s.connected && now - s.lastSeen > timeoutMinutes * MicrosPerMinute
  }

  /** The states one cleanup sweep keeps. */
  function Swept(states: map<string, CandlestickState>, now: int, timeoutMinutes: int): map<string, CandlestickState> {
    map id | id in states && !IsStale(states[id], now, timeoutMinutes) :: states[id]
  }

  /** `o` with `key` set to `v`, unless `v` is null (Python's `exclude_none`). */
  function WithPresent(o: Object, key: string, v: Value): Object {
    if v == Null then o else o[key := v]
  }

  /** The command frame: `type` is "command", plus exactly the command's present fields. */
  function CommandPayload(cmd: CandlestickCommand): Object {
    var typed := map["type" := Str(Tag(Command))];
    var withProgram := WithPresent(typed, "program", OfString(cmd.program));
    var withSpeed := WithPresent(withProgram, "speed", OfInt(cmd.speed));
    var withDirection := WithPresent(withSpeed, "direction", OfString(cmd.direction));
    WithPresent(withDirection, "color", OfString(cmd.color))
  }

  // ---------------------------------------------------------------------------
  // Properties of the operations
  // ---------------------------------------------------------------------------

  /** `connect` keeps the invariant once the new session is filed under the id. */
  lemma ConnectKeepsCoherent(active: map<string, Session>, states: map<string, CandlestickState>,
                             session: Session, id: string, now: int)
    requires Coherent(active, states)
    ensures Coherent(active[id := session], ConnectedStates(states, id, now))
  {
  }

  /** Reconnecting a known id keeps everything it knew about the controller except the connection and the time. */
  lemma ReconnectKeepsSettings(states: map<string, CandlestickState>, id: string, now: int)
    requires id in states
    ensures var s := ConnectedStates(states, id, now)[id];
      && s.connected && s.lastSeen == now
      && s.program == states[id].program && s.speed == states[id].speed
      && s.direction == states[id].direction && s.color == states[id].color
      && s.random == states[id].random
    ensures ConnectedStates(states, id, now).Keys == states.Keys
  {
  }

  /** A first connection creates a state with every optional field unset. */
  lemma FirstConnectFresh(states: map<string, CandlestickState>, id: string, now: int)
    requires id !in states
    ensures ConnectedStates(states, id, now)[id] == CandlestickState(id, true, None, None, None, None, None, now)
    ensures ConnectedStates(states, id, now).Keys == states.Keys + {id}
  {
  }

  /** Disconnecting the ids in `ids` and dropping their sessions keeps the invariant, and no state is lost. */
  lemma DisconnectKeepsCoherent(active: map<string, Session>, states: map<string, CandlestickState>,
                                ids: set<string>, now: int)
    requires Coherent(active, states)
    ensures Coherent(active - ids, DisconnectedStates(states, ids, now))
    ensures DisconnectedStates(states, ids, now).Keys == states.Keys
  {
  }

  /** Disconnecting one id touches only that id's session and state. */
  lemma DisconnectOne(active: map<string, Session>, states: map<string, CandlestickState>, id: string, now: int)
    ensures id !in active ==> active - {id} == active
    ensures id in states ==> DisconnectedStates(states, {id}, now) == states[id := states[id].(connected := false, lastSeen := now)]
    ensures id !in states ==> DisconnectedStates(states, {id}, now) == states
  {
  }

  /** Disconnecting `id` after `ids` is disconnecting both at once. */
  lemma DisconnectedTwice(states: map<string, CandlestickState>, ids: set<string>, id: string, now: int)
    ensures DisconnectedStates(DisconnectedStates(states, ids, now), {id}, now) == DisconnectedStates(states, ids + {id}, now)
  {
  }

  /**
   * `disconnect_all` part way: the ids in `done` have been closed, in the order `closed` lists them
   * once each, and disconnected; the others are still live.
   */
  ghost predicate ClosingProgress(active0: map<string, Session>, states0: map<string, CandlestickState>,
                                  done: set<string>, closed: seq<string>,
                                  active: map<string, Session>, states: map<string, CandlestickState>, now: int)
  {
    && done <= active0.Keys && active == active0 - done
    && (forall id :: id in closed <==> id in done)
    && (forall i, j :: 0 <= i < j < |closed| ==> closed[i] != closed[j])
    && states == DisconnectedStates(states0, done, now)
  }

  /** Closing one more live id keeps the progress, and leaves fewer live ids. */
  lemma ClosingStep(active0: map<string, Session>, states0: map<string, CandlestickState>,
                    done: set<string>, closed: seq<string>,
                    active: map<string, Session>, states: map<string, CandlestickState>, id: string, now: int,
                    done': set<string>, closed': seq<string>,
                    active': map<string, Session>, states': map<string, CandlestickState>)
    requires ClosingProgress(active0, states0, done, closed, active, states, now) && id in active
    requires done' == done + {id} && closed' == closed + [id]
    requires active' == active - {id} && states' == DisconnectedStates(states, {id}, now)
    ensures ClosingProgress(active0, states0, done', closed', active', states', now)
    ensures |active'.Keys| < |active.Keys|
  {
    DisconnectedTwice(states0, done, id, now);
    assert forall x :: x in closed + [id] <==> x in closed || x == id;
    assert active'.Keys == active.Keys - {id};
  }

  /** With no live session left, every id has been closed once and disconnected. */
  lemma ClosingDone(active0: map<string, Session>, states0: map<string, CandlestickState>,
                    done: set<string>, closed: seq<string>, now: int)
    requires ClosingProgress(active0, states0, done, closed, map[], DisconnectedStates(states0, done, now), now)
    ensures done == active0.Keys
  {
    forall id | id in active0
      ensures id in done
    {
      assert id !in active0 - done;
    }
  }

  /** After every live session is disconnected, no state is marked connected. */
  lemma DisconnectAllLeavesNoneConnected(active: map<string, Session>, states: map<string, CandlestickState>, now: int)
    requires Coherent(active, states)
    ensures var after := DisconnectedStates(states, active.Keys, now);
      forall id :: id in after ==> !after[id].connected
  {
  }

  /** Disconnecting an unknown id changes no state. */
  lemma DisconnectUnknownNoChange(states: map<string, CandlestickState>, id: string, now: int)
    requires id !in states
    ensures DisconnectedStates(states, {id}, now) == states
  {
  }

  /** Applying the same merge twice is the same as applying it once, and it never touches id, connection or random. */
  lemma MergeIdempotent(s: CandlestickState, program: Option<string>, speed: Option<int>,
                        direction: Option<string>, color: Option<string>, now: int)
    ensures var once := Merge(s, program, speed, direction, color, now);
      && Merge(once, program, speed, direction, color, now) == once
      && once.id == s.id && once.connected == s.connected && once.random == s.random
  {
  }

  /** An all-absent merge only refreshes the timestamp, which is exactly what a heartbeat does. */
  lemma EmptyMergeIsHeartbeat(s: CandlestickState, now: int)
    ensures Merge(s, None, None, None, None, now) == s.(lastSeen := now)
  {
  }

  /** The sweep removes exactly the stale states, keeps the others unchanged, and keeps the invariant. */
  lemma SweptExactly(active: map<string, Session>, states: map<string, CandlestickState>, now: int, timeoutMinutes: int)
    requires Coherent(active, states)
    ensures forall id :: id in Swept(states, now, timeoutMinutes) <==> id in states && !IsStale(states[id], now, timeoutMinutes)
    ensures forall id :: id in Swept(states, now, timeoutMinutes) ==> Swept(states, now, timeoutMinutes)[id] == states[id]
    ensures forall id :: id in active ==> id in Swept(states, now, timeoutMinutes)
    ensures Coherent(active, Swept(states, now, timeoutMinutes))
  {
  }

  /** A second sweep at the same instant removes nothing more. */
  lemma SweptIdempotent(states: map<string, CandlestickState>, now: int, timeoutMinutes: int)
    ensures Swept(Swept(states, now, timeoutMinutes), now, timeoutMinutes) == Swept(states, now, timeoutMinutes)
  {
  }

  /**
   * With the default timeout, a controller that disconnected at `t` survives a sweep at `now` exactly when
   * at most five minutes have passed.
   */
  lemma StaleAfterFiveMinutes(states: map<string, CandlestickState>, id: string, t: int, now: int)
    requires id in states
    ensures var s := DisconnectedStates(states, {id}, t);
      id in Swept(s, now, DefaultTimeoutMinutes) <==> now - t <= 300_000_000
  {
  }

  /** The command frame holds `type` and exactly the present fields of the command, each under its own key. */
  lemma CommandPayloadFields(cmd: CandlestickCommand)
    ensures var p := CommandPayload(cmd);
      && p.Keys == {"type"} + (if cmd.program.Some? then {"program"} else {})
           + (if cmd.speed.Some? then {"speed"} else {})
           + (if cmd.direction.Some? then {"direction"} else {})
           + (if cmd.color.Some? then {"color"} else {})
      && p["type"] == Str("command")
      && Get(p, "program") == OfString(cmd.program) && Get(p, "speed") == OfInt(cmd.speed)
      && Get(p, "direction") == OfString(cmd.direction) && Get(p, "color") == OfString(cmd.color)
  {
  }

  /** The command frame parses back, as a command message, to the command it was built from. */
  lemma CommandPayloadRoundTrip(cmd: CandlestickCommand)
    ensures ParseCommandMessage(CommandPayload(cmd)) ==
      Ok(CommandMessage(Command, cmd.program, cmd.speed, cmd.direction, cmd.color))
  {
    var p := CommandPayload(cmd);
    CommandPayloadFields(cmd);
    assert TypeField(p, Command) == Ok(Command);
    assert OptionalString(p, "program") == Ok(cmd.program);
    assert OptionalInt(p, "speed") == Ok(cmd.speed);
    assert OptionalString(p, "direction") == Ok(cmd.direction);
    assert OptionalString(p, "color") == Ok(cmd.color);
  }

  // ---------------------------------------------------------------------------
  // The registry object
  // ---------------------------------------------------------------------------

  datatype SendError = NotConnected | SendFailed

  class ConnectionManager {
    var activeConnections: map<string, Session>
    var states: map<string, CandlestickState>
    /** Every frame sent successfully, with the session it went to, in order. */
    var outbox: seq<(Session, Object)>

    predicate Valid()
      reads this
    {
      Coherent(activeConnections, states)
    }

    constructor()
      ensures Valid()
      ensures activeConnections == map[] && states == map[] && outbox == []
    {
      activeConnections := map[];
      states := map[];
      outbox := [];
    }

    /** Accepts `session` for `id`; when accepting fails nothing changes. A repeat connect replaces the stored session. */
    method Connect(session: Session, id: string, now: int, acceptOk: bool)
      requires Valid()
      modifies this
      ensures Valid()
      ensures !acceptOk ==> activeConnections == old(activeConnections) && states == old(states)
      ensures acceptOk ==> activeConnections == old(activeConnections)[id := session]
      ensures acceptOk ==> states == ConnectedStates(old(states), id, now)
      ensures outbox == old(outbox)
    {
      if !acceptOk {
        return;
      }
      ConnectKeepsCoherent(activeConnections, states, session, id, now);
      activeConnections := activeConnections[id := session];
      if id in states {
        states := states[id := states[id].(connected := true, lastSeen := now)];
      } else {
        states := states[id := NewState(id, true, now)];
      }
    }

    /** Drops the session of `id`, if any, and marks a known state disconnected; the state itself is kept. */
    method Disconnect(id: string, now: int)
      requires Valid()
      modifies this
      ensures Valid()
      ensures activeConnections == old(activeConnections) - {id}
      ensures states == DisconnectedStates(old(states), {id}, now)
      ensures outbox == old(outbox)
    {
      DisconnectKeepsCoherent(activeConnections, states, {id}, now);
      DisconnectOne(activeConnections, states, id, now);
      if id in activeConnections {
        activeConnections := activeConnections - {id};
      }
      if id in states {
        states := states[id := states[id].(connected := false, lastSeen := now)];
      }
    }

    /**
     * Closes and disconnects every live session, one id at a time; a failing close is ignored.
     * Returns the ids in the order they were closed. States are kept.
     */
    method DisconnectAll(now: int) returns (closed: seq<string>)
      requires Valid()
      modifies this
      ensures Valid()
      ensures activeConnections == map[]
      ensures states == DisconnectedStates(old(states), old(activeConnections).Keys, now)
      ensures forall id :: id in closed <==> id in old(activeConnections)
      ensures forall i, j :: 0 <= i < j < |closed| ==> closed[i] != closed[j]
      ensures outbox == old(outbox)
    {
      closed := [];
      ghost var active0 := activeConnections;
      ghost var states0 := states;
      ghost var done: set<string> := {};
      while activeConnections != map[]
        invariant Valid() && outbox == old(outbox)
        invariant ClosingProgress(active0, states0, done, closed, activeConnections, states, now)
        decreases |activeConnections.Keys|
      {
        var id :| id in activeConnections;
        ghost var active, before, closedBefore, doneBefore := activeConnections, states, closed, done;
        Disconnect(id, now);
        closed := closed + [id];
        done := done + {id};
        ClosingStep(active0, states0, doneBefore, closedBefore, active, before, id, now,
                    done, closed, activeConnections, states);
      }
      ClosingDone(active0, states0, done, closed, now);
    }

    function IsConnected(id: string): (r: bool)
      reads this
      requires Valid()
      ensures r <==> id in states && states[id].connected
    {
      id in activeConnections
    }

    function GetState(id: string): (r: Option<CandlestickState>)
      reads this
      ensures r.Some? <==> id in states
      ensures r.Some? ==> r.value == states[id]
    {
      if id in states then Some(states[id]) else None
    }

    /** Merges the present fields into the state of a known id; an unknown id is ignored. */
    method UpdateState(id: string, program: Option<string>, speed: Option<int>,
                       direction: Option<string>, color: Option<string>, now: int)
      requires Valid()
      modifies this
      ensures Valid()
      ensures id !in old(states) ==> states == old(states)
      ensures id in old(states) ==> states == old(states)[id := Merge(old(states)[id], program, speed, direction, color, now)]
      ensures activeConnections == old(activeConnections) && outbox == old(outbox)
    {
      if id !in states {
        return;
      }
      var state := states[id];
      if program.Some? {
        state := state.(program := program);
      }
      if speed.Some? {
        state := state.(speed := speed);
      }
      if direction.Some? {
        state := state.(direction := direction);
      }
      if color.Some? {
        state := state.(color := color);
      }
      state := state.(lastSeen := now);
      states := states[id := state];
    }

    /** Refreshes only the timestamp of a known id. */
    method UpdateHeartbeat(id: string, now: int)
      requires Valid()
      modifies this
      ensures Valid()
      ensures id !in old(states) ==> states == old(states)
      ensures id in old(states) ==> states == old(states)[id := old(states)[id].(lastSeen := now)]
      ensures activeConnections == old(activeConnections) && outbox == old(outbox)
    {
      if id in states {
        states := states[id := states[id].(lastSeen := now)];
      }
    }

    /**
     * Sends `cmd` to the live session of `id`. Without a session it fails with nothing sent; a failing
     * send changes nothing; a successful one records the frame and mirrors the command into the state.
     */
    method SendCommand(id: string, cmd: CandlestickCommand, sendOk: bool, now: int) returns (r: Result<(), SendError>)
      requires Valid()
      modifies this
      ensures Valid()
      ensures r == Err(NotConnected) <==> id !in old(activeConnections)
      ensures r == Err(SendFailed) <==> id in old(activeConnections) && !sendOk
      ensures r.Ok? <==> id in old(activeConnections) && sendOk
      ensures r.Err? ==> states == old(states) && outbox == old(outbox)
      ensures r.Ok? ==> outbox == old(outbox) + [(old(activeConnections)[id], CommandPayload(cmd))]
      ensures r.Ok? ==> states == old(states)[id := Merge(old(states)[id], cmd.program, cmd.speed, cmd.direction, cmd.color, now)]
      ensures activeConnections == old(activeConnections)
    {
      if id !in activeConnections {
        return Err(NotConnected);
      }
      var session := activeConnections[id];
      var message := CommandPayload(cmd);
      if !sendOk {
        return Err(SendFailed);
      }
      outbox := outbox + [(session, message)];
      UpdateState(id, cmd.program, cmd.speed, cmd.direction, cmd.color, now);
      r := Ok(());
    }

    /** The ids of the stale states, each once, in some order. */
    method CollectStale(now: int, timeoutMinutes: int) returns (staleIds: seq<string>)
      ensures forall id :: id in staleIds <==> id in states && IsStale(states[id], now, timeoutMinutes)
      ensures forall i, j :: 0 <= i < j < |staleIds| ==> staleIds[i] != staleIds[j]
    {
      staleIds := [];
      var unvisited := states.Keys;
      while unvisited != {}
        invariant unvisited <= states.Keys
        invariant forall id :: id in staleIds ==> id in states && IsStale(states[id], now, timeoutMinutes) && id !in unvisited
        invariant forall id :: id in states && id !in unvisited && IsStale(states[id], now, timeoutMinutes) ==> id in staleIds
        invariant forall i, j :: 0 <= i < j < |staleIds| ==> staleIds[i] != staleIds[j]
        decreases |unvisited|
      {
        var id :| id in unvisited;
        if IsStale(states[id], now, timeoutMinutes) {
          staleIds := staleIds + [id];
        }
        unvisited := unvisited - {id};
      }
    }

    /**
     * Deletes the states of `ids`, one at a time (`del` of a listed key). An id with no state is
     * skipped here, where `del` would raise KeyError; the sweep passes only distinct stored ids
     * (`CollectStale`), so that case does not arise there.
     */
    method DeleteStates(ids: seq<string>)
      modifies this
      ensures states == map id | id in old(states) && id !in ids :: old(states)[id]
      ensures activeConnections == old(activeConnections) && outbox == old(outbox)
    {
      var i := 0;
      while i < |ids|
        invariant 0 <= i <= |ids|
        invariant activeConnections == old(activeConnections) && outbox == old(outbox)
        invariant states == map id | id in old(states) && id !in ids[..i] :: old(states)[id]
      {
        states := states - {ids[i]};
        assert ids[..i + 1] == ids[..i] + [ids[i]];
        i := i + 1;
      }
      assert ids[..i] == ids;
    }

    /**
     * One iteration of the cleanup task: collect the ids of stale states, then delete each of them.
     * Sessions are never touched.
     */
    method CleanupSweep(now: int, timeoutMinutes: int)
      requires Valid()
      modifies this
      ensures Valid()
      ensures states == Swept(old(states), now, timeoutMinutes)
      ensures activeConnections == old(activeConnections) && outbox == old(outbox)
    {
      var staleIds := CollectStale(now, timeoutMinutes);
      SweptExactly(activeConnections, states, now, timeoutMinutes);
      DeleteStates(staleIds);
      assert states == Swept(old(states), now, timeoutMinutes);
    }
  }
}
