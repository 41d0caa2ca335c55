/**
 * The controller's websocket client: the `connected` and running flags, the guards on sending, the
 * routing of received frames to the command callback, and the reconnect loop. The transport is an
 * oracle: whether connecting or sending succeeds, which frames arrive and how the receive loop ends
 * are parameters. Frames sent are recorded in `sent`, objects handed to the callback in `delivered`.
 */
module DeviceClient {
  import opened Wrappers
  import opened Json
  import opened Models
  import opened Registry
  import opened HubApp

  const ReconnectDelay: int := 5
  const HeartbeatInterval: int := 30

  /** The status frame: `type` "status" and all five state keys, absent ones as null. */
  function StatusObject(program: Option<string>, random: Option<bool>, speed: Option<int>,
                        direction: Option<string>, color: Option<string>): Object {
    map["type" := Str(Tag(Status)), "program" := OfString(program), "random" := OfBool(random),
        "speed" := OfInt(speed), "direction" := OfString(direction), "color" := OfString(color)]
  }

  function HeartbeatObject(): Object {
    map["type" := Str(Tag(Heartbeat))]
  }

  /** A status frame always carries the same six keys, and the hub applies exactly the fields it was built from. */
  lemma StatusRoundTrip(program: Option<string>, random: Option<bool>, speed: Option<int>,
                        direction: Option<string>, color: Option<string>)
    ensures StatusObject(program, random, speed, direction, color).Keys ==
      {"type", "program", "random", "speed", "direction", "color"}
    ensures ParseStatusMessage(StatusObject(program, random, speed, direction, color)) ==
      Ok(StatusMessage(Status, program, random, speed, direction, color))
    ensures Dispatch(Decoded(Obj(StatusObject(program, random, speed, direction, color)))) ==
      ApplyStatus(StatusMessage(Status, program, random, speed, direction, color))
  {
    StatusFields(program, random, speed, direction, color);
  }

  /** Each field of the status object reads back as the value it was built from. */
  lemma StatusFields(program: Option<string>, random: Option<bool>, speed: Option<int>,
                     direction: Option<string>, color: Option<string>)
    ensures var o := StatusObject(program, random, speed, direction, color);
      && TypeField(o, Status) == Ok(Status)
      && OptionalString(o, "program") == Ok(program) && OptionalBool(o, "random") == Ok(random)
      && OptionalInt(o, "speed") == Ok(speed) && OptionalString(o, "direction") == Ok(direction)
      && OptionalString(o, "color") == Ok(color)
  {
    var o := StatusObject(program, random, speed, direction, color);
    assert TypeField(o, Status) == Ok(Status);
    assert OptionalString(o, "program") == Ok(program);
    assert OptionalBool(o, "random") == Ok(random);
    assert OptionalInt(o, "speed") == Ok(speed);
  }

  /** The heartbeat frame is a heartbeat to the hub. */
  lemma HeartbeatRefreshes()
    ensures Dispatch(Decoded(Obj(HeartbeatObject()))) == Refresh
  {
    assert Get(HeartbeatObject(), "type") == Str("heartbeat");
  }

  // ---------------------------------------------------------------------------
  // Routing received frames
  // ---------------------------------------------------------------------------

  /** A frame the receive loop hands to the command callback: a decoded object whose `type` is "command". */
  predicate IsCommandFrame(f: Frame) {
    f.Decoded? && f.value.Obj? && Get(f.value.fields, "type") == Str(Tag(Command))
  }

  /** The objects the callback receives, in order, for a run of frames; everything else is only logged. */
  function Routed(frames: seq<Frame>): (r: seq<Object>)
    ensures |r| <= |frames|
    ensures forall k :: 0 <= k < |r| ==> Get(r[k], "type") == Str("command")
    decreases |frames|
  {
    if frames == [] then []
    else
      var head := if IsCommandFrame(frames[0]) then [frames[0].value.fields] else [];
      head + Routed(frames[1..])
  }

  /** The callback only ever receives objects that arrived as frames. */
  lemma {:induction false} RoutedFromFrames(frames: seq<Frame>)
    ensures forall k :: 0 <= k < |Routed(frames)| ==> Decoded(Obj(Routed(frames)[k])) in frames
    decreases |frames|
  {
    if frames != [] {
      RoutedFromFrames(frames[1..]);
      var head := if IsCommandFrame(frames[0]) then [frames[0].value.fields] else [];
      assert Routed(frames) == head + Routed(frames[1..]);
      forall k | 0 <= k < |Routed(frames)|
        ensures Decoded(Obj(Routed(frames)[k])) in frames
      {
        if k >= |head| {
          assert Routed(frames)[k] == Routed(frames[1..])[k - |head|];
          assert Decoded(Obj(Routed(frames)[k])) in frames[1..];
        }
      }
    }
  }

  /** Every command frame the hub sends reaches the callback unchanged, one call per frame, in order. */
  lemma {:induction false} HubCommandsDelivered(cmds: seq<CandlestickCommand>, frames: seq<Frame>)
    requires |frames| == |cmds|
    requires forall k :: 0 <= k < |cmds| ==> frames[k] == Decoded(Obj(CommandPayload(cmds[k])))
    ensures |Routed(frames)| == |cmds|
    ensures forall k :: 0 <= k < |cmds| ==> Routed(frames)[k] == CommandPayload(cmds[k])
    decreases |cmds|
  {
    if cmds != [] {
      CommandPayloadFields(cmds[0]);
      assert IsCommandFrame(frames[0]);
      HubCommandsDelivered(cmds[1..], frames[1..]);
      assert Routed(frames) == [CommandPayload(cmds[0])] + Routed(frames[1..]);
    }
  }

  /** Frames that are not commands (undecodable, not objects, other types) never reach the callback. */
  lemma {:induction false} NonCommandsDropped(frames: seq<Frame>)
    requires forall k :: 0 <= k < |frames| ==> !IsCommandFrame(frames[k])
    ensures Routed(frames) == []
    decreases |frames|
  {
    if frames != [] {
      NonCommandsDropped(frames[1..]);
    }
  }

  /** How the receive loop over the websocket ends. */
  datatype Ending = NormalEnd | ConnectionClosed | OtherError

  /** The loop's record of what it did: connection attempts, waits and the heartbeat task's lifetime. */
  datatype Event = ConnectAttempt | Wait(seconds: int) | HeartbeatStarted | HeartbeatCancelled

  /**
   * One pass of the run loop as the transport decides it: whether connecting succeeds, the frames received
   * and how the receive loop ends, the outcome of each heartbeat send the heartbeat task attempts meanwhile,
   * and `stop`, a `disconnect` arriving during the receive.
   */
  datatype Round = Round(connectOk: bool, socket: nat, frames: seq<Frame>, ending: Ending,
                         heartbeats: seq<bool>, stop: bool)

  /** The number of heartbeat sends that succeed before the first failure, after which the task sends nothing. */
  function LeadingSuccesses(outcomes: seq<bool>): (n: nat)
    ensures n <= |outcomes|
    ensures forall k :: 0 <= k < n ==> outcomes[k]
    ensures n < |outcomes| ==> !outcomes[n]
    decreases |outcomes|
  {
    if outcomes == [] || !outcomes[0] then 0 else 1 + LeadingSuccesses(outcomes[1..])
  }

  /** `n` heartbeat frames. */
  function Heartbeats(n: nat): (r: seq<Object>)
    ensures |r| == n && forall k :: 0 <= k < n ==> r[k] == HeartbeatObject()
  {
    seq(n, _ => HeartbeatObject())
  }

  /** What the run loop observes of the client: the two flags and what was sent and delivered so far. */
  datatype Client = Client(connected: bool, running: bool, sent: seq<Object>, delivered: seq<Object>)

  /** The client after some rounds of the run loop, with the events they recorded. */
  datatype Outcome = Outcome(client: Client, events: seq<Event>)

  /**
   * One round of the run loop on `c`, with the events it records. A client that is not connected tries
   * to connect and, failing, waits. Otherwise the heartbeat task sends until a send fails, the receive
   * loop delivers the routed frames, and the client stays connected only when every heartbeat went
   * through, the stream ended normally and no `disconnect` came.
   */
  function RoundOf(c: Client, r: Round): Outcome {
    if !c.connected && !r.connectOk then Outcome(c, [ConnectAttempt, Wait(ReconnectDelay)])
    else
      var running := c.running && !r.stop;
      var after := Client(false !in r.heartbeats && r.ending == NormalEnd && !r.stop, running,
                          c.sent + Heartbeats(LeadingSuccesses(r.heartbeats)), c.delivered + Routed(r.frames));
      Outcome(after, (if c.connected then [] else [ConnectAttempt]) + [HeartbeatStarted, HeartbeatCancelled]
                     + (if running then [Wait(ReconnectDelay)] else []))
  }

  /** A loop over `rounds` from `c` that takes rounds, each by `round`, while the client is running. */
  function Loop(round: (Client, Round) -> Outcome, c: Client, rounds: seq<Round>): Outcome
    decreases |rounds|
  {
    if rounds == [] || !c.running then Outcome(c, [])
    else
      var step := round(c, rounds[0]);
      var rest := Loop(round, step.client, rounds[1..]);
      Outcome(rest.client, step.events + rest.events)
  }

  /** The run loop over `rounds`, from `c`. */
  function RunFrom(c: Client, rounds: seq<Round>): Outcome {
    Loop(RoundOf, c, rounds)
  }

  /** Running `rounds` is running its first `i` rounds, then the rest from where they left the client. */
  lemma {:induction false} LoopSplit(round: (Client, Round) -> Outcome, c: Client, rounds: seq<Round>, i: nat)
    requires i <= |rounds|
    ensures var first := Loop(round, c, rounds[..i]);
            var rest := Loop(round, first.client, rounds[i..]);
            Loop(round, c, rounds) == Outcome(rest.client, first.events + rest.events)
    decreases i
  {
    if i == 0 {
      assert rounds[..0] == [] && rounds[0..] == rounds;
      assert [] + Loop(round, c, rounds).events == Loop(round, c, rounds).events;
    } else if !c.running {
      assert Loop(round, c, rounds[..i]) == Outcome(c, []);
    } else {
      var step := round(c, rounds[0]);
      assert rounds[..i][0] == rounds[0] && rounds[..i][1..] == rounds[1..][..i - 1];
      assert rounds[1..][i - 1..] == rounds[i..];
      LoopSplit(round, step.client, rounds[1..], i - 1);
      var first := Loop(round, step.client, rounds[1..][..i - 1]);
      var rest := Loop(round, first.client, rounds[i..]);
      assert Loop(round, c, rounds[..i]) == Outcome(first.client, step.events + first.events);
      assert step.events + (first.events + rest.events) == (step.events + first.events) + rest.events;
    }
  }

  /**
   * Automatic reconnection: when round i of a run holds a session (the client was connected or connects)
   * that is lost, through a failed heartbeat or a stream ending in an exception, and no `disconnect`
   * came, the events of round i + 1 start with a connection attempt.
   */
  lemma LossReconnects(c: Client, rounds: seq<Round>, i: nat)
    requires i + 1 < |rounds|
    requires var before := RunFrom(c, rounds[..i]).client;
             before.running && (before.connected || rounds[i].connectOk)
    requires (false in rounds[i].heartbeats || rounds[i].ending != NormalEnd) && !rounds[i].stop
    ensures var k := |RunFrom(c, rounds[..i + 1]).events|;
            k < |RunFrom(c, rounds).events| && RunFrom(c, rounds).events[k] == ConnectAttempt
  {
    NextRoundStarts(c, rounds, i);
  }

  /**
   * As written, a stream that ends normally does not count as a lost connection: `connected` stays true,
   * so round i + 1 starts the heartbeat task and receives on the old socket without reconnecting.
   */
  lemma NormalEndKeepsSocket(c: Client, rounds: seq<Round>, i: nat)
    requires i + 1 < |rounds|
    requires var before := RunFrom(c, rounds[..i]).client;
             before.running && (before.connected || rounds[i].connectOk)
    requires false !in rounds[i].heartbeats && rounds[i].ending == NormalEnd && !rounds[i].stop
    ensures var k := |RunFrom(c, rounds[..i + 1]).events|;
            k < |RunFrom(c, rounds).events| && RunFrom(c, rounds).events[k] == HeartbeatStarted
  {
    NextRoundStarts(c, rounds, i);
  }

  /** The events of round i + 1 begin right after those of the first i + 1 rounds, with its own first event. */
  lemma NextRoundStarts(c: Client, rounds: seq<Round>, i: nat)
    requires i + 1 < |rounds|
    requires var before := RunFrom(c, rounds[..i]).client;
             before.running && (before.connected || rounds[i].connectOk) && !rounds[i].stop
    ensures var mid := RunFrom(c, rounds[..i + 1]).client;
            var k := |RunFrom(c, rounds[..i + 1]).events|;
            && mid.running
            && mid.connected == (false !in rounds[i].heartbeats && rounds[i].ending == NormalEnd)
            && k < |RunFrom(c, rounds).events|
            && RunFrom(c, rounds).events[k] == (if mid.connected then HeartbeatStarted else ConnectAttempt)
  {
    var before := RunFrom(c, rounds[..i]).client;
    ThroughRound(c, rounds, i);
    var mid := RoundOf(before, rounds[i]).client;
    LoopSplit(RoundOf, c, rounds, i + 1);
    var rest := rounds[i + 1..];
    FirstEvent(mid, rest);
  }

  /** The first `i + 1` rounds are the first `i` followed by round i. */
  lemma ThroughRound(c: Client, rounds: seq<Round>, i: nat)
    requires i < |rounds| && RunFrom(c, rounds[..i]).client.running
    ensures var first := RunFrom(c, rounds[..i]);
            var step := RoundOf(first.client, rounds[i]);
            RunFrom(c, rounds[..i + 1]) == Outcome(step.client, first.events + step.events)
  {
    var before := RunFrom(c, rounds[..i]).client;
    LoopSplit(RoundOf, c, rounds[..i + 1], i);
    assert rounds[..i + 1][..i] == rounds[..i] && rounds[..i + 1][i..] == [rounds[i]];
    var step := RoundOf(before, rounds[i]);
    assert RunFrom(before, [rounds[i]]) == Outcome(step.client, step.events + []);
  }

  /** A run that goes on starts with a connection attempt when not connected, with the heartbeat task otherwise. */
  lemma FirstEvent(c: Client, rounds: seq<Round>)
    requires rounds != [] && c.running
    ensures RunFrom(c, rounds).events != []
    ensures RunFrom(c, rounds).events[0] == if c.connected then HeartbeatStarted else ConnectAttempt
  {
    var step := RoundOf(c, rounds[0]);
    assert step.events[0] == if c.connected then HeartbeatStarted else ConnectAttempt;
    assert RunFrom(c, rounds).events == step.events + RunFrom(step.client, rounds[1..]).events;
  }

  /** Every heartbeat started in `events` is cancelled by the very next event. */
  predicate Paired(events: seq<Event>) {
    forall j :: 0 <= j < |events| && events[j] == HeartbeatStarted ==> j + 1 < |events| && events[j + 1] == HeartbeatCancelled
  }

  /** Every wait in `events` is the reconnect delay. */
  predicate WaitsFixed(events: seq<Event>) {
    forall j :: 0 <= j < |events| && events[j].Wait? ==> events[j] == Wait(ReconnectDelay)
  }

  /** Appending one round's trace keeps both trace properties. */
  lemma TraceAppend(events: seq<Event>, trace: seq<Event>)
    requires Paired(events) && WaitsFixed(events) && Paired(trace) && WaitsFixed(trace)
    ensures Paired(events + trace) && WaitsFixed(events + trace)
  {
    var all := events + trace;
    forall j | 0 <= j < |all| && all[j] == HeartbeatStarted
      ensures j + 1 < |all| && all[j + 1] == HeartbeatCancelled
    {
      if j >= |events| {
        assert all[j] == trace[j - |events|];
        assert all[j + 1] == trace[j + 1 - |events|];
      } else {
        assert all[j] == events[j];
      }
    }
  }

  /** The trace of `n` failed connection attempts. */
  function Retries(n: nat): (r: seq<Event>)
    ensures |r| == 2 * n
    ensures forall k :: 0 <= k < |r| ==> r[k] == (if k % 2 == 0 then ConnectAttempt else Wait(ReconnectDelay))
  {
    if n == 0 then [] else Retries(n - 1) + [ConnectAttempt, Wait(ReconnectDelay)]
  }

  /** A round's events start the heartbeat task only to cancel it next, and wait only the reconnect delay. */
  lemma RoundShape(c: Client, r: Round)
    ensures Paired(RoundOf(c, r).events) && WaitsFixed(RoundOf(c, r).events)
  {
    var events := RoundOf(c, r).events;
    if c.connected || r.connectOk {
      var head := if c.connected then [] else [ConnectAttempt];
      assert events[|head|] == HeartbeatStarted && events[|head| + 1] == HeartbeatCancelled;
      assert forall j :: 0 <= j < |events| && j != |head| ==> events[j] != HeartbeatStarted;
    }
  }

  /** Every round's events keep heartbeat tasks paired and waits fixed, and so does the whole run. */
  lemma {:induction false} RunTraceShape(c: Client, rounds: seq<Round>)
    ensures Paired(RunFrom(c, rounds).events) && WaitsFixed(RunFrom(c, rounds).events)
    decreases |rounds|
  {
    if rounds != [] && c.running {
      var step := RoundOf(c, rounds[0]);
      RoundShape(c, rounds[0]);
      RunTraceShape(step.client, rounds[1..]);
      assert RunFrom(c, rounds).events == step.events + RunFrom(step.client, rounds[1..]).events;
      TraceAppend(step.events, RunFrom(step.client, rounds[1..]).events);
    }
  }

  /** Without a `disconnect`, the run loop never stops running. */
  lemma {:induction false} RunKeepsRunning(c: Client, rounds: seq<Round>)
    requires c.running && forall k :: 0 <= k < |rounds| ==> !rounds[k].stop
    ensures RunFrom(c, rounds).client.running
    decreases |rounds|
  {
    if rounds != [] {
      var step := RoundOf(c, rounds[0]);
      RunKeepsRunning(step.client, rounds[1..]);
      assert RunFrom(c, rounds).client == RunFrom(step.client, rounds[1..]).client;
    }
  }

  /** When every connection attempt fails, the run is n attempts each followed by the reconnect wait. */
  lemma {:induction false} RunRetries(c: Client, rounds: seq<Round>)
    requires c.running && !c.connected && forall k :: 0 <= k < |rounds| ==> !rounds[k].connectOk
    ensures RunFrom(c, rounds) == Outcome(c, Retries(|rounds|))
    decreases |rounds|
  {
    if rounds != [] {
      RunRetries(c, rounds[1..]);
      var rest := Retries(|rounds| - 1);
      assert RunFrom(c, rounds).events == [ConnectAttempt, Wait(ReconnectDelay)] + rest;
      assert Retries(|rounds|) == [ConnectAttempt, Wait(ReconnectDelay)] + rest;
    }
  }

  /** One more round of the run loop leaves the same outcome still to come. */
  lemma RunStep(before: Client, rounds: seq<Round>, step: Outcome, events: seq<Event>, goal: Outcome)
    requires rounds != [] && before.running && step == RoundOf(before, rounds[0])
    requires RunFrom(before, rounds).client == goal.client && events + RunFrom(before, rounds).events == goal.events
    ensures RunFrom(step.client, rounds[1..]).client == goal.client
    ensures events + step.events + RunFrom(step.client, rounds[1..]).events == goal.events
  {
    assert RunFrom(before, rounds).events == step.events + RunFrom(step.client, rounds[1..]).events;
  }

  class BackendClient {
    /** The open websocket's handle, if one was ever opened, and whether it was closed by this client. */
    var websocket: Option<nat>
    var socketClosed: bool
    var connected: bool
    var running: bool
    var sent: seq<Object>
    var delivered: seq<Object>

    constructor()
      ensures websocket == None && !connected && !running && sent == [] && delivered == []
    {
      websocket := None;
      socketClosed := false;
      connected := false;
      running := false;
      sent := [];
      delivered := [];
    }

    /** Success opens `socket` and sets connected; failure only clears connected, keeping any old socket. */
    method Connect(ok: bool, socket: nat) returns (success: bool)
      modifies this
      ensures success == ok && connected == ok
      ensures ok ==> websocket == Some(socket) && !socketClosed
      ensures !ok ==> websocket == old(websocket) && socketClosed == old(socketClosed)
      ensures running == old(running) && sent == old(sent) && delivered == old(delivered)
    {
      if ok {
        websocket := Some(socket);
        socketClosed := false;
        connected := true;
        return true;
      }
      connected := false;
      return false;
    }

    method Disconnect()
      modifies this
      ensures !running && !connected
      ensures websocket == old(websocket) && socketClosed == (websocket.Some? || old(socketClosed))
      ensures sent == old(sent) && delivered == old(delivered)
    {
      running := false;
      if websocket.Some? && !socketClosed {
        socketClosed := true;
      }
      connected := false;
    }

    /** Sends a status frame only while connected with a socket; a failed send clears connected. */
    method SendStatus(program: Option<string>, random: Option<bool>, speed: Option<int>,
                      direction: Option<string>, color: Option<string>, sendOk: bool)
      modifies this
      ensures !old(connected) || old(websocket).None? ==> sent == old(sent) && connected == old(connected)
      ensures old(connected) && old(websocket).Some? && sendOk ==>
        sent == old(sent) + [StatusObject(program, random, speed, direction, color)] && connected
      ensures old(connected) && old(websocket).Some? && !sendOk ==> sent == old(sent) && !connected
      ensures websocket == old(websocket) && socketClosed == old(socketClosed)
      ensures running == old(running) && delivered == old(delivered)
    {
      if !connected || websocket.None? {
        return;
      }
      var message := StatusObject(program, random, speed, direction, color);
      if sendOk {
        sent := sent + [message];
      } else {
        connected := false;
      }
    }

    /** Sends a heartbeat only while connected with a socket; a failed send clears connected. */
    method SendHeartbeat(sendOk: bool)
      modifies this
      ensures !old(connected) || old(websocket).None? ==> sent == old(sent) && connected == old(connected)
      ensures old(connected) && old(websocket).Some? && sendOk ==> sent == old(sent) + [HeartbeatObject()] && connected
      ensures old(connected) && old(websocket).Some? && !sendOk ==> sent == old(sent) && !connected
      ensures websocket == old(websocket) && socketClosed == old(socketClosed)
      ensures running == old(running) && delivered == old(delivered)
    {
      if !connected || websocket.None? {
        return;
      }
      if sendOk {
        sent := sent + [HeartbeatObject()];
      } else {
        connected := false;
      }
    }

    /**
     * Hands every command frame to the callback and logs the rest; a failing callback is logged too.
     * Only a receive loop that ends in an exception clears connected. Without a socket nothing happens.
     */
    method ReceiveMessages(frames: seq<Frame>, ending: Ending)
      modifies this
      ensures old(websocket).None? ==> delivered == old(delivered) && connected == old(connected)
      ensures old(websocket).Some? ==> delivered == old(delivered) + Routed(frames)
      ensures old(websocket).Some? ==> connected == (old(connected) && ending == NormalEnd)
      ensures websocket == old(websocket) && socketClosed == old(socketClosed)
      ensures running == old(running) && sent == old(sent)
    {
      if websocket.None? {
        return;
      }
      var pending := frames;
      while pending != []
        invariant delivered + Routed(pending) == old(delivered) + Routed(frames)
        invariant connected == old(connected) && websocket == old(websocket) && socketClosed == old(socketClosed)
        invariant running == old(running) && sent == old(sent)
        decreases |pending|
      {
        var f := pending[0];
        if IsCommandFrame(f) {
          assert Routed(pending) == [f.value.fields] + Routed(pending[1..]);
          assert delivered + [f.value.fields] + Routed(pending[1..]) == delivered + Routed(pending);
          delivered := delivered + [f.value.fields];
        } else {
          assert Routed(pending) == Routed(pending[1..]);
        }
        pending := pending[1..];
      }
      if ending != NormalEnd {
        connected := false;
      }
    }

    /** A connected client always has a socket. */
    predicate Valid()
      reads this
    {
      connected ==> websocket.Some?
    }

    /** What the run loop observes of this client. */
    function Observed(): Client
      reads this
    {
      Client(connected, running, sent, delivered)
    }

    /**
     * The heartbeat task while the receive loop runs: each attempted send goes out while connected,
     * and the first failure clears connected, after which nothing more is sent.
     */
    method HeartbeatLoop(outcomes: seq<bool>)
      requires Valid()
      modifies this
      ensures Valid()
      ensures old(connected) ==>
        sent == old(sent) + Heartbeats(LeadingSuccesses(outcomes)) && connected == (false !in outcomes)
      ensures !old(connected) ==> sent == old(sent) && !connected
      ensures websocket == old(websocket) && socketClosed == old(socketClosed)
      ensures running == old(running) && delivered == old(delivered)
    {
      var pending := outcomes;
      ghost var count: nat := 0;
      while pending != []
        invariant Valid() && websocket == old(websocket) && socketClosed == old(socketClosed)
        invariant running == old(running) && delivered == old(delivered)
        invariant !old(connected) ==> sent == old(sent) && !connected
        invariant old(connected) && connected ==>
          LeadingSuccesses(outcomes) == count + LeadingSuccesses(pending)
          && sent == old(sent) + Heartbeats(count)
          && (false in outcomes <==> false in pending)
        invariant old(connected) && !connected ==>
          sent == old(sent) + Heartbeats(LeadingSuccesses(outcomes)) && false in outcomes
        decreases |pending|
      {
        if connected {
          SendHeartbeat(pending[0]);
          if pending[0] {
            assert pending == [true] + pending[1..];
            assert sent == old(sent) + Heartbeats(count + 1);
            count := count + 1;
          } else {
            assert false in pending;
          }
        }
        assert pending == [pending[0]] + pending[1..];
        pending := pending[1..];
      }
    }

    /**
     * The run loop over a finite run of rounds: while running, connect if not connected (on failure wait
     * and retry), then start the heartbeat task, receive until the connection ends, cancel the heartbeat
     * task, and wait before the next round if still running. Once stopped, an open socket is closed.
     */
    method Run(rounds: seq<Round>) returns (events: seq<Event>)
      requires Valid()
      modifies this
      ensures Valid()
      ensures Outcome(Observed(), events) == RunFrom(Client(old(connected), true, old(sent), old(delivered)), rounds)
      ensures (forall k :: 0 <= k < |rounds| ==> !rounds[k].connectOk) && !old(connected) ==>
        events == Retries(|rounds|) && !connected
      ensures forall j :: 0 <= j < |events| && events[j] == HeartbeatStarted ==>
        j + 1 < |events| && events[j + 1] == HeartbeatCancelled
      ensures forall j :: 0 <= j < |events| && events[j].Wait? ==> events[j] == Wait(ReconnectDelay)
      ensures (forall k :: 0 <= k < |rounds| ==> !rounds[k].stop) ==> running
      ensures !running && websocket.Some? ==> socketClosed
    {
      running := true;
      ghost var start := Observed();
      assert start == Client(old(connected), true, old(sent), old(delivered));
      events := RunRounds(rounds);
      ghost var final := Observed();
      if !running && websocket.Some? {
        socketClosed := true;
      }
      assert Observed() == final;
      RunTraceShape(start, rounds);
      if forall k :: 0 <= k < |rounds| ==> !rounds[k].stop {
        RunKeepsRunning(start, rounds);
      }
      if (forall k :: 0 <= k < |rounds| ==> !rounds[k].connectOk) && !old(connected) {
        RunRetries(start, rounds);
      }
    }

    /** The `while self._running` loop itself, over the rounds the transport decides. */
    method RunRounds(rounds: seq<Round>) returns (events: seq<Event>)
      requires Valid()
      modifies this
      ensures Valid()
      ensures Outcome(Observed(), events) == RunFrom(old(Observed()), rounds)
    {
      events := [];
      ghost var goal := RunFrom(Observed(), rounds);
      var i := 0;
      while i < |rounds| && running
        invariant 0 <= i <= |rounds| && Valid()
        invariant RunFrom(Observed(), rounds[i..]).client == goal.client
        invariant events + RunFrom(Observed(), rounds[i..]).events == goal.events
        decreases |rounds| - i
      {
        ghost var before := Observed();
        var trace := RunRound(rounds[i]);
        RunStep(before, rounds[i..], Outcome(Observed(), trace), events, goal);
        events := events + trace;
        i := i + 1;
      }
      assert RunFrom(Observed(), rounds[i..]) == Outcome(Observed(), []);
      assert events + [] == events;
    }

    /** One pass of the run loop: connect when not connected, then receive with the heartbeat task running. */
    method RunRound(round: Round) returns (trace: seq<Event>)
      requires Valid()
      modifies this
      ensures Valid()
      ensures Outcome(Observed(), trace) == RoundOf(old(Observed()), round)
      ensures Paired(trace) && WaitsFixed(trace)
      ensures !old(connected) && !round.connectOk ==>
        trace == [ConnectAttempt, Wait(ReconnectDelay)] && !connected && running == old(running)
        && sent == old(sent) && delivered == old(delivered)
      ensures old(connected) || round.connectOk ==>
        trace != [] && trace[0] == (if old(connected) then HeartbeatStarted else ConnectAttempt)
      ensures old(connected) || round.connectOk ==>
        delivered == old(delivered) + Routed(round.frames)
        && sent == old(sent) + Heartbeats(LeadingSuccesses(round.heartbeats))
      ensures old(connected) || round.connectOk ==>
        (connected <==> false !in round.heartbeats && round.ending == NormalEnd && !round.stop)
      ensures !round.stop ==> running == old(running)
    {
      trace := [];
      if !connected {
        trace := [ConnectAttempt];
        var success := Connect(round.connectOk, round.socket);
        if !success {
          trace := trace + [Wait(ReconnectDelay)];
          assert Observed() == old(Observed()) && trace == [ConnectAttempt, Wait(ReconnectDelay)];
          RoundShape(old(Observed()), round);
          return;
        }
      }
      assert connected && websocket.Some? && running == old(running);
      assert sent == old(sent) && delivered == old(delivered);
      ghost var start := trace;
      assert start == if old(connected) then [] else [ConnectAttempt];
      trace := trace + [HeartbeatStarted];
      HeartbeatLoop(round.heartbeats);
      ReceiveMessages(round.frames, round.ending);
      if round.stop {
        Disconnect();
      }
      trace := trace + [HeartbeatCancelled];
      assert trace == start + [HeartbeatStarted, HeartbeatCancelled];
      if running {
        trace := trace + [Wait(ReconnectDelay)];
      } else {
        assert trace == start + [HeartbeatStarted, HeartbeatCancelled] + [];
      }
      assert Observed() == RoundOf(old(Observed()), round).client;
      RoundShape(old(Observed()), round);
    }
  }
}
