/**
 * The older controller entry point (controller/src/main.py): one loop that reads control
 * messages from a queue with a one-minute timeout and restarts the LED worker process to match.
 * Each receive is either a decoded request body, any JSON value, or a timeout (None). A worker process is recorded by
 * what it was started with; `starts` counts the processes started so far. An exception the loop
 * does not catch ends the program, which the model reports as `crashed`.
 */
module LegacyLoop {
  import opened Wrappers
  import opened Json

  datatype LegacyWorker =
    | Pattern(program: Value, direction: Option<string>)  // a pattern program with the shared speed
    | Blank                                               // the blanking worker
    | ColorWorker                                         // a static colour reading the shared rgb_color

  datatype LoopState = LoopState(
    program: Value,
    speed: int,
    direction: Option<string>,
    rgb: seq<int>,
    worker: LegacyWorker,
    override: bool,
    hasEvent: bool,   // the local `update` Event has been bound
    signals: nat,     // times the current Event has been set
    starts: nat)

  datatype Stepped = Stepped(state: LoopState, crashed: bool)

  predicate Valid(s: LoopState) {
    |s.rgb| == 3
  }

  /** The defaults the loop starts from, with the first pattern worker already started. */
  function Initial(): (s: LoopState)
    ensures Valid(s) && !s.override && s.starts == 1
  {
    LoopState(Str("random"), 10, None, [250, 250, 250], Pattern(Str("random"), None), false, false, 0, 1)
  }

  const Directions: set<string> := {"left", "right", "up", "down"}

  function Restart(s: LoopState, w: LegacyWorker): LoopState {
    s.(worker := w, starts := s.starts + 1)
  }

  function ApplyDirection(s: LoopState, d: Object): LoopState {
    if "direction" in d then
      var v := d["direction"];
      var dir := if v.Str? && v.s in Directions then Some(v.s) else s.direction;
      Restart(s.(direction := dir), Pattern(s.program, dir))
    else s
  }

  function ApplyProgram(s: LoopState, d: Object): LoopState {
    if "program" in d then
      var p := d["program"];
      Restart(s.(program := p), if p == Str("stop") then Blank else Pattern(p, s.direction))
    else s
  }

  /** `speed.value = int(...)`: None where int() raises. */
  function ApplySpeed(s: LoopState, d: Object): Option<LoopState> {
    if "speed" !in d then Some(s)
    else
      match PyInt(d["speed"])
      case None => None
      case Some(n) => Some(s.(speed := Wrap32(n)))
  }

  /** `color[key]` stored into a C int array slot: None where Python raises. */
  function Channel(c: Value, key: string): (r: Option<int>)
    ensures r.Some? ==> -TwoTo31 <= r.value < TwoTo31
  {
    if c.Obj? && key in c.fields then
      match c.fields[key]
      case Int(i) => Some(Wrap32(i))
      case Bool(b) => Some(if b then 1 else 0)
      case _ => None
    else None
  }

  /** The three slot writes of the colour branch, stopping at the first one that raises. */
  function StoreChannels(rgb: seq<int>, c: Value): (r: (seq<int>, bool))
    requires |rgb| == 3
    ensures |r.0| == 3
  {
    var red := Channel(c, "r");
    if red.None? then (rgb, true)
    else
      var green := Channel(c, "g");
      if green.None? then (rgb[0 := red.value], true)
      else
        var blue := Channel(c, "b");
        if blue.None? then (rgb[0 := red.value][1 := green.value], true)
        else ([red.value, green.value, blue.value], false)
  }

  /** The colour branch: the slot writes, then signal the Event or start a colour worker. */
  function ApplyColor(s: LoopState, c: Value): (r: Stepped)
    requires Valid(s)
    ensures Valid(r.state) && r.state.override == s.override && r.state.starts >= s.starts
  {
    var (rgb, failed) := StoreChannels(s.rgb, c);
    var s3 := s.(rgb := rgb);
    if failed then Stepped(s3, true)
    else if s3.program == Str("rgb_color") then
      if s3.hasEvent then Stepped(s3.(signals := s3.signals + 1), false)
      else Stepped(s3, true)
    else Stepped(Restart(s3, ColorWorker).(hasEvent := true, signals := 0), false)
  }

  function Message(s: LoopState, d: Object): (r: Stepped)
    requires Valid(s)
    ensures Valid(r.state) && r.state.override && r.state.starts >= s.starts
  {
    var s1 := ApplyDirection(s.(override := true), d);
    var s2 := ApplyProgram(s1, d);
    match ApplySpeed(s2, d)
    case None => Stepped(s2, true)
    case Some(s3) => if "color" in d then ApplyColor(s3, d["color"]) else Stepped(s3, false)
  }

  /** The one-shot reset after a minute without messages. */
  function Timeout(s: LoopState): LoopState {
    if s.override then
      Restart(s.(program := Str("random"), speed := 10, direction := None, override := false),
              Pattern(Str("random"), None))
    else s
  }

  /** The keys the loop body tests, in order. */
  const HandledKeys: seq<string> := ["direction", "program", "speed", "color"]

  /** `t` occurs in `text` as a contiguous piece. */
  predicate Occurs(t: string, text: string)
    decreases |text|
  {
    |t| <= |text| && (text[..|t|] == t || Occurs(t, text[1..]))
  }

  /** Python's `key in data` for a body that is not an object: None where it raises TypeError. */
  function Membership(v: Value, key: string): Option<bool> {
    match v
    case Str(text) => Some(Occurs(key, text))
    case Arr(items) => Some(Str(key) in items)
    case _ => None
  }

  /**
   * The key tests of the loop body on a body that is not an object: a test that raises ends the
   * loop, and so does one that succeeds, since indexing a string or a list by a key raises next.
   */
  function KeyTestsRaise(v: Value, keys: seq<string>): bool
    decreases |keys|
  {
    if keys == [] then false
    else
      match Membership(v, keys[0])
      case Some(false) => KeyTestsRaise(v, keys[1..])
      case _ => true
  }

  /** One pass of the loop body. */
  function Step(s: LoopState, input: Option<Value>): (r: Stepped)
    requires Valid(s)
    ensures Valid(r.state)
    ensures input.Some? ==> r.state.override
    ensures input.None? ==> !r.crashed && !r.state.override
    ensures r.state.starts >= s.starts
  {
    match input
    case None => Stepped(Timeout(s), false)
    case Some(Obj(d)) => Message(s, d)
    case Some(v) => Stepped(s.(override := true), KeyTestsRaise(v, HandledKeys))
  }

  /** The loop over a sequence of receives, ending at the first uncaught exception. */
  function Run(s: LoopState, inputs: seq<Option<Value>>): (r: Stepped)
    requires Valid(s)
    ensures Valid(r.state)
    decreases |inputs|
  {
    if inputs == [] then Stepped(s, false)
    else
      var t := Step(s, inputs[0]);
      if t.crashed then t else Run(t.state, inputs[1..])
  }

  // ---------------------------------------------------------------------------
  // Properties of one pass
  // ---------------------------------------------------------------------------

  /** Only the exact values left/right/up/down change the direction, yet any `direction` key restarts. */
  lemma DirectionOnlyOnExactValues(s: LoopState, d: Object)
    requires Valid(s) && "direction" in d
    ensures var v := d["direction"];
            ApplyDirection(s, d).direction
            == (if v == Str("left") || v == Str("right") || v == Str("up") || v == Str("down")
                then Some(v.s) else s.direction)
    ensures ApplyDirection(s, d).starts == s.starts + 1
  {
  }

  /** "stop" starts the blanking worker; any other program restarts the pattern worker. */
  lemma ProgramRestarts(s: LoopState, d: Object)
    requires Valid(s) && "program" in d && "direction" !in d
    ensures var t := Step(s, Some(Obj(d))).state;
            t.program == d["program"]
            && (ApplySpeed(ApplyProgram(s.(override := true), d), d).Some? && "color" !in d ==>
                  t.worker == (if d["program"] == Str("stop") then Blank else Pattern(d["program"], s.direction)))
  {
  }

  /** `speed` changes the shared value without restarting the worker. */
  lemma SpeedDoesNotRestart(s: LoopState, n: int)
    requires Valid(s)
    ensures var t := Step(s, Some(Obj(map["speed" := Int(n)])));
            !t.crashed && t.state.speed == Wrap32(n)
            && t.state.worker == s.worker && t.state.starts == s.starts
  {
  }

  /** A speed int() rejects ends the loop, with direction and program already applied. */
  lemma BadSpeedCrashes(s: LoopState, d: Object)
    requires Valid(s) && "speed" in d && PyInt(d["speed"]).None?
    ensures Step(s, Some(Obj(d))) == Stepped(ApplyProgram(ApplyDirection(s.(override := true), d), d), true)
  {
  }

  /** A well-formed colour is copied into all three slots. */
  lemma ColorCopied(s: LoopState, c: Value)
    requires Valid(s)
    requires Channel(c, "r").Some? && Channel(c, "g").Some? && Channel(c, "b").Some?
    ensures var t := ApplyColor(s, c).state;
            t.rgb == [Channel(c, "r").value, Channel(c, "g").value, Channel(c, "b").value]
  {
  }

  /**
   * After the colour is copied, program "rgb_color" only signals the Event (and crashes when no
   * Event was ever bound); any other program starts a colour worker with a fresh Event.
   */
  lemma ColorSignalsOrStarts(s: LoopState, c: Value)
    requires Valid(s)
    requires Channel(c, "r").Some? && Channel(c, "g").Some? && Channel(c, "b").Some?
    ensures var t := ApplyColor(s, c);
            if s.program == Str("rgb_color") then
              t.crashed == !s.hasEvent && t.state.worker == s.worker && t.state.starts == s.starts
              && (s.hasEvent ==> t.state.signals == s.signals + 1)
            else
              !t.crashed && t.state.worker == ColorWorker && t.state.starts == s.starts + 1
              && t.state.hasEvent && t.state.signals == 0
  {
  }

  /** A colour slot that is missing or not an int ends the loop. */
  lemma BadColorCrashes(s: LoopState, c: Value)
    requires Valid(s)
    requires Channel(c, "r").None? || Channel(c, "g").None? || Channel(c, "b").None?
    ensures ApplyColor(s, c).crashed
  {
  }

  /**
   * A body that is not an object sets the override and changes nothing else. It ends the loop
   * exactly when it is null, a boolean or a number, when one of the handled keys occurs in it as a
   * string, or when one of them is an element of it as a list.
   */
  lemma NonObjectBody(s: LoopState, v: Value)
    requires Valid(s) && !v.Obj?
    ensures Step(s, Some(v)).state == s.(override := true)
    ensures Step(s, Some(v)).crashed <==>
              || v.Null? || v.Bool? || v.Int?
              || (v.Str? && exists k :: k in HandledKeys && Occurs(k, v.s))
              || (v.Arr? && exists k :: k in HandledKeys && Str(k) in v.items)
  {
    KeyTestsRaiseAny(v, HandledKeys);
  }

  /** The key tests raise exactly when one of them does not come out false. */
  lemma {:induction false} KeyTestsRaiseAny(v: Value, keys: seq<string>)
    ensures KeyTestsRaise(v, keys) <==> exists k :: k in keys && Membership(v, k) != Some(false)
    decreases |keys|
  {
    if keys != [] {
      KeyTestsRaiseAny(v, keys[1..]);
      assert forall k :: k in keys <==> k == keys[0] || k in keys[1..];
    }
  }

  /** A string body shorter than every handled key passes through, overriding the idle reset only. */
  lemma ShortStringBodyPasses(s: LoopState, text: string)
    requires Valid(s) && |text| < 5
    ensures Step(s, Some(Str(text))) == Stepped(s.(override := true), false)
  {
  }

  /** The string body "speedy" holds the key "speed", so `data['speed']` raises and the loop ends. */
  lemma SpeedyStringBodyCrashes(s: LoopState)
    requires Valid(s)
    ensures Step(s, Some(Str("speedy"))).crashed
  {
  }

  // ---------------------------------------------------------------------------
  // The idle reset
  // ---------------------------------------------------------------------------

  /** A timeout with the override set restores the defaults and restarts once. */
  lemma TimeoutResets(s: LoopState)
    requires Valid(s) && s.override
    ensures var t := Step(s, None).state;
            t.program == Str("random") && t.speed == 10 && t.direction == None
            && t.worker == Pattern(Str("random"), None) && t.starts == s.starts + 1
            && t.rgb == s.rgb
  {
  }

  /** A second timeout changes nothing. */
  lemma TimeoutIdempotent(s: LoopState)
    requires Valid(s)
    ensures Step(Step(s, None).state, None) == Step(s, None)
  {
  }

  function Timeouts(k: nat): (r: seq<Option<Value>>)
    ensures |r| == k && forall i :: 0 <= i < k ==> r[i] == None
  {
    if k == 0 then [] else [None] + Timeouts(k - 1)
  }

  /** However long the idle period, the reset happens once: k >= 1 timeouts act as one. */
  lemma {:induction false} OneResetPerIdlePeriod(s: LoopState, k: nat)
    requires Valid(s) && k >= 1
    ensures Run(s, Timeouts(k)) == Stepped(Timeout(s), false)
    decreases k
  {
    var ts := Timeouts(k);
    assert ts[1..] == Timeouts(k - 1);
    if k == 1 {
      assert Run(Timeout(s), []) == Stepped(Timeout(s), false);
    } else {
      OneResetPerIdlePeriod(Timeout(s), k - 1);
      TimeoutIdempotent(s);
    }
  }

  // ---------------------------------------------------------------------------
  // The loop itself
  // ---------------------------------------------------------------------------

  /**
   * The while-loop of `main()` over a finite run of receives, with the loop's variables as
   * locals and `rgb_color` as a three-slot array. It stops early where the source raises.
   */
  method MainLoop(inputs: seq<Option<Value>>) returns (final: LoopState, crashed: bool)
    ensures Stepped(final, crashed) == Run(Initial(), inputs)
  {
    var program := Str("random");
    var speed := 10;
    var direction: Option<string> := None;
    var rgbColor := new int[3] [250, 250, 250];
    var worker := Pattern(program, direction);
    var starts: nat := 1;
    var override := false;
    var hasEvent := false;
    var signals: nat := 0;
    crashed := false;
    var i := 0;
    assert rgbColor[..] == [250, 250, 250];
    assert inputs[i..] == inputs;
    while i < |inputs| && !crashed
      invariant 0 <= i <= |inputs| && rgbColor.Length == 3
      invariant var cur := LoopState(program, speed, direction, rgbColor[..], worker, override, hasEvent, signals, starts);
                if crashed then Stepped(cur, true) == Run(Initial(), inputs)
                else Run(cur, inputs[i..]) == Run(Initial(), inputs)
      decreases |inputs| - i
    {
      ghost var before := LoopState(program, speed, direction, rgbColor[..], worker, override, hasEvent, signals, starts);
      assert inputs[i..][1..] == inputs[i + 1..];
      match inputs[i] {
        case None =>
          if override {
            speed := 10;
            direction := None;
            program := Str("random");
            worker := Pattern(program, direction);
            starts := starts + 1;
            override := false;
          }
        case Some(Obj(d)) =>
          var next;
          next, crashed := OnMessage(d, rgbColor, LoopState(program, speed, direction, rgbColor[..], worker, override, hasEvent, signals, starts));
          program, speed, direction, worker := next.program, next.speed, next.direction, next.worker;
          override, hasEvent, signals, starts := next.override, next.hasEvent, next.signals, next.starts;
        case Some(v) =>
          override := true;
          crashed := KeyTestsRaise(v, HandledKeys);
      }
      assert Stepped(LoopState(program, speed, direction, rgbColor[..], worker, override, hasEvent, signals, starts), crashed)
             == Step(before, inputs[i]);
      i := i + 1;
    }
    final := LoopState(program, speed, direction, rgbColor[..], worker, override, hasEvent, signals, starts);
    if !crashed {
      assert inputs[i..] == [];
    }
  }

  /** The message branch of the loop body, on the loop's variables and the shared colour array. */
  method OnMessage(d: Object, rgbColor: array<int>, s: LoopState) returns (t: LoopState, crashed: bool)
    requires rgbColor.Length == 3 && s.rgb == rgbColor[..]
    modifies rgbColor
    ensures t.rgb == rgbColor[..] && Stepped(t, crashed) == Message(s, d)
  {
    t, crashed := OnSettings(d, s);
    if !crashed && "color" in d {
      t, crashed := OnColor(d["color"], rgbColor, t);
    }
  }

  /** The direction, program and speed keys of a message, in that order; `crashed` where int() raises. */
  method OnSettings(d: Object, s: LoopState) returns (t: LoopState, crashed: bool)
    ensures var afterProgram := ApplyProgram(ApplyDirection(s.(override := true), d), d);
            (if crashed then None else Some(t)) == ApplySpeed(afterProgram, d)
            && (crashed ==> t == afterProgram)
  {
    var program, speed, direction, worker := s.program, s.speed, s.direction, s.worker;
    var override, hasEvent, signals, starts := s.override, s.hasEvent, s.signals, s.starts;
    crashed := false;
    override := true;
    if "direction" in d {
      var v := d["direction"];
      if v == Str("left") { direction := Some("left"); }
      if v == Str("right") { direction := Some("right"); }
      if v == Str("up") { direction := Some("up"); }
      if v == Str("down") { direction := Some("down"); }
      worker := Pattern(program, direction);
      starts := starts + 1;
    }
    assert LoopState(program, speed, direction, s.rgb, worker, override, hasEvent, signals, starts)
           == ApplyDirection(s.(override := true), d);
    if "program" in d {
      program := d["program"];
      if d["program"] == Str("stop") {
        worker := Blank;
      } else {
        worker := Pattern(program, direction);
      }
      starts := starts + 1;
    }
    if "speed" in d {
      var n := PyInt(d["speed"]);
      if n.None? {
        crashed := true;
      } else {
        speed := Wrap32(n.value);
      }
    }
    t := LoopState(program, speed, direction, s.rgb, worker, override, hasEvent, signals, starts);
  }

  /** The colour key of a message: the three slot writes, then signal the Event or start a colour worker. */
  method OnColor(c: Value, rgbColor: array<int>, s: LoopState) returns (t: LoopState, crashed: bool)
    requires rgbColor.Length == 3 && s.rgb == rgbColor[..]
    modifies rgbColor
    ensures t.rgb == rgbColor[..] && Stepped(t, crashed) == ApplyColor(s, c)
  {
    var worker, hasEvent, signals, starts := s.worker, s.hasEvent, s.signals, s.starts;
    crashed := StoreColor(rgbColor, c);
    if !crashed {
      if s.program == Str("rgb_color") {
        if hasEvent {
          signals := signals + 1;
        } else {
          crashed := true;
        }
      } else {
        worker := ColorWorker;
        starts := starts + 1;
        hasEvent := true;
        signals := 0;
      }
    }
    t := s.(rgb := rgbColor[..], worker := worker, hasEvent := hasEvent, signals := signals, starts := starts);
  }

  /** The slot writes of the colour branch on the shared array. */
  method StoreColor(rgbColor: array<int>, c: Value) returns (failed: bool)
    requires rgbColor.Length == 3
    modifies rgbColor
    ensures (rgbColor[..], failed) == StoreChannels(old(rgbColor[..]), c)
  {
    var r := Channel(c, "r");
    if r.None? {
      return true;
    }
    rgbColor[0] := r.value;
    var g := Channel(c, "g");
    if g.None? {
      return true;
    }
    rgbColor[1] := g.value;
    var b := Channel(c, "b");
    if b.None? {
      return true;
    }
    rgbColor[2] := b.value;
    assert rgbColor[..] == [r.value, g.value, b.value];
    return false;
  }
}
