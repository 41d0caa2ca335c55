/**
 * The controller application that takes its commands from the hub: the HTML colour parser, the
 * command handler that applies a command's keys to the application's globals in a fixed order, and
 * the start-up step that starts the default program and reports it to the hub. The globals are the
 * fields of `Agent`; the running worker process is a `Worker` value.
 */
module AgentMain {
  import opened Wrappers
  import opened Json
  import opened Models
  import opened DeviceClient

  // ---------------------------------------------------------------------------
  // HTML colour codes
  // ---------------------------------------------------------------------------

  /** Python's `s[a:b]` for 0 <= a <= b: the bounds are clipped to the string. */
  function Slice(s: string, a: nat, b: nat): (r: string)
    requires a <= b
    ensures |r| <= b - a
  {
    if a >= |s| then [] else s[a..if b <= |s| then b else |s|]
  }

  datatype ColorError = NotAString | BadHex(part: string)

  /** The code with one leading '#' dropped. */
  function ColorBody(code: string): string {
    if |code| > 0 && code[0] == '#' then code[1..] else code
  }

  /** The parts read in order as base-16 integers; the first that does not parse is the error. */
  function ParseParts(parts: seq<string>): (r: Result<seq<int>, ColorError>)
    ensures r.Ok? ==> |r.value| == |parts|
    decreases |parts|
  {
    if parts == [] then Ok([])
    else
      match ParseInt(parts[0], 16)
      case None => Err(BadHex(parts[0]))
      case Some(v) =>
        match ParseParts(parts[1..])
        case Ok(vs) => Ok([v] + vs)
        case Err(e) => Err(e)
  }

  /**
   * `html_color_to_rgb`: drop one leading '#', then read characters 0-2, 2-4 and 4-6 as base-16 integers
   * (Python's `int(part, 16)`, so a sign, surrounding blanks or a `0x` prefix are accepted there).
   */
  function HtmlColorToRgb(code: Value): Result<seq<int>, ColorError> {
    if !code.Str? then Err(NotAString)
    else
      var s := ColorBody(code.s);
      ParseParts([Slice(s, 0, 2), Slice(s, 2, 4), Slice(s, 4, 6)])
  }

  const HexDigits: string := "0123456789abcdef"

  predicate IsHexDigit(c: char) {
    '0' <= c <= '9' || 'a' <= c <= 'f' || 'A' <= c <= 'F'
  }

  /** Two hex digits read as a base-16 integer give a byte, high digit first. */
  lemma ParseHexPair(a: char, b: char)
    requires IsHexDigit(a) && IsHexDigit(b)
    ensures ParseInt([a, b], 16) == Some(DigitValue(a).value * 16 + DigitValue(b).value)
    ensures 0 <= ParseInt([a, b], 16).value <= 255
    ensures ParseInt([a, b], 16) == Some(PairValue(a, b))
  {
    var s := [a, b];
    assert StripLeft(s) == s;
    assert StripRight(s) == s;
    assert IsDigit(a, 16) && IsDigit(b, 16);
    assert WellFormedDigits(s, 16);
    assert s[..1] == [a];
    assert [a][..0] == [];
    assert DigitsValue([a], 16) == DigitValue(a).value;
  }

  predicate SixHexDigits(s: string) {
    |s| >= 6 && forall i :: 0 <= i < 6 ==> IsHexDigit(s[i])
  }

  /** The byte two hex digits stand for, high digit first. */
  function PairValue(a: char, b: char): (v: int)
    requires IsHexDigit(a) && IsHexDigit(b)
    ensures 0 <= v <= 255
  {
    assert DigitValue(a).value < 16 && DigitValue(b).value < 16;
    DigitValue(a).value * 16 + DigitValue(b).value
  }


  /** Three hex pairs parse to their values. */
  lemma ParseHexPairs(a: char, b: char, c: char, d: char, e: char, f: char)
    requires IsHexDigit(a) && IsHexDigit(b) && IsHexDigit(c) && IsHexDigit(d) && IsHexDigit(e) && IsHexDigit(f)
    ensures ParseParts([[a, b], [c, d], [e, f]]) == Ok([PairValue(a, b), PairValue(c, d), PairValue(e, f)])
  {
    ParseHexPair(a, b);
    ParseHexPair(c, d);
    ParseHexPair(e, f);
    ThreeParts([a, b], [c, d], [e, f], PairValue(a, b), PairValue(c, d), PairValue(e, f));
  }

  /** Three parts that each parse give their three values, in order. */
  lemma ThreeParts(p: string, q: string, r: string, x: int, y: int, z: int)
    requires ParseInt(p, 16) == Some(x) && ParseInt(q, 16) == Some(y) && ParseInt(r, 16) == Some(z)
    ensures ParseParts([p, q, r]) == Ok([x, y, z])
  {
    var parts, vs := [p, q, r], [x, y, z];
    assert forall i :: 0 <= i < 3 ==> ParseInt(parts[i], 16) == Some(vs[i]);
    PartsParse(parts, vs);
  }

  /** Parts that each parse give their values, in order. */
  lemma {:induction false} PartsParse(parts: seq<string>, vs: seq<int>)
    requires |parts| == |vs|
    requires forall i :: 0 <= i < |parts| ==> ParseInt(parts[i], 16) == Some(vs[i])
    ensures ParseParts(parts) == Ok(vs)
    decreases |parts|
  {
    if parts != [] {
      assert vs == [vs[0]] + vs[1..];
      PartsParse(parts[1..], vs[1..]);
    }
  }

  /** Six hex digits, with or without '#', give the three pairs' values, each a byte. */
  lemma SixHexDigitsGiveBytes(s: string)
    requires SixHexDigits(s)
    ensures HtmlColorToRgb(Str(s)) == Ok([PairValue(s[0], s[1]), PairValue(s[2], s[3]), PairValue(s[4], s[5])])
    ensures HtmlColorToRgb(Str("#" + s)) == HtmlColorToRgb(Str(s))
    ensures forall k :: 0 <= k < 3 ==> 0 <= HtmlColorToRgb(Str(s)).value[k] <= 255
  {
    assert ColorBody(s) == s;
    var p0, p1, p2 := Slice(s, 0, 2), Slice(s, 2, 4), Slice(s, 4, 6);
    assert p0 == [s[0], s[1]] && p1 == [s[2], s[3]] && p2 == [s[4], s[5]];
    ParseHexPairs(s[0], s[1], s[2], s[3], s[4], s[5]);
    HashOptional(s);
    var v := HtmlColorToRgb(Str(s)).value;
    assert v == [PairValue(s[0], s[1]), PairValue(s[2], s[3]), PairValue(s[4], s[5])];
  }

  /** Characters after the sixth never matter. */
  lemma TailIgnored(s: string, t: string)
    requires |s| >= 6 && s[0] != '#'
    ensures HtmlColorToRgb(Str(s + t)) == HtmlColorToRgb(Str(s))
  {
    assert Slice(s + t, 0, 2) == Slice(s, 0, 2);
    assert Slice(s + t, 2, 4) == Slice(s, 2, 4);
    assert Slice(s + t, 4, 6) == Slice(s, 4, 6);
  }

  /** A code and the same code behind one '#' are read alike. */
  lemma HashOptional(s: string)
    requires s == [] || s[0] != '#'
    ensures HtmlColorToRgb(Str("#" + s)) == HtmlColorToRgb(Str(s))
  {
    assert ("#" + s)[1..] == s;
  }

  /** The lower-case hex digit of 0 <= d < 16. */
  function HexDigit(d: int): (c: char)
    requires 0 <= d < 16
    ensures IsHexDigit(c) && DigitValue(c) == Some(d)
  {
    HexDigits[d]
  }

  /** The `#rrggbb` code of a colour whose components are bytes. */
  function RgbToHtml(r: int, g: int, b: int): (code: string)
    requires 0 <= r < 256 && 0 <= g < 256 && 0 <= b < 256
    ensures |code| == 7 && code[0] == '#'
  {
    ['#', HexDigit(r / 16), HexDigit(r % 16), HexDigit(g / 16), HexDigit(g % 16), HexDigit(b / 16), HexDigit(b % 16)]
  }

  /** A byte's two hex digits, high first, read back as that byte. */
  lemma HexDigitsOfByte(n: int)
    requires 0 <= n < 256
    ensures PairValue(HexDigit(n / 16), HexDigit(n % 16)) == n
  {
    assert DigitValue(HexDigit(n / 16)).value == n / 16;
    assert DigitValue(HexDigit(n % 16)).value == n % 16;
  }

  /** Reading back the code of a colour gives that colour. */
  lemma RgbRoundTrip(r: int, g: int, b: int)
    requires 0 <= r < 256 && 0 <= g < 256 && 0 <= b < 256
    ensures HtmlColorToRgb(Str(RgbToHtml(r, g, b))) == Ok([r, g, b])
  {
    var code := RgbToHtml(r, g, b);
    var s := code[1..];
    assert code == "#" + s;
    assert SixHexDigits(s);
    SixHexDigitsGiveBytes(s);
    HexDigitsOfByte(r);
    HexDigitsOfByte(g);
    HexDigitsOfByte(b);
  }

  /** A sign is accepted inside a pair, so a component can be negative: `-f0000` reads as [-15, 0, 0]. */
  lemma SignedPairAccepted(c: char, a: char, b: char, d: char, e: char)
    requires IsHexDigit(c) && IsHexDigit(a) && IsHexDigit(b) && IsHexDigit(d) && IsHexDigit(e)
    ensures HtmlColorToRgb(Str(['-', c, a, b, d, e])) == Ok([-(DigitValue(c).value as int), PairValue(a, b), PairValue(d, e)])
  {
    var s := ['-', c, a, b, d, e];
    assert ColorBody(s) == s;
    assert Slice(s, 0, 2) == ['-', c] && Slice(s, 2, 4) == [a, b] && Slice(s, 4, 6) == [d, e];
    SignedParts(c, a, b, d, e);
  }

  lemma SignedParts(c: char, a: char, b: char, d: char, e: char)
    requires IsHexDigit(c) && IsHexDigit(a) && IsHexDigit(b) && IsHexDigit(d) && IsHexDigit(e)
    ensures ParseParts([['-', c], [a, b], [d, e]]) == Ok([-(DigitValue(c).value as int), PairValue(a, b), PairValue(d, e)])
  {
    NegatedHexDigit(c);
    ParseHexPair(a, b);
    ParseHexPair(d, e);
    ThreeParts(['-', c], [a, b], [d, e], -(DigitValue(c).value as int), PairValue(a, b), PairValue(d, e));
  }

  /** A minus sign before one hex digit negates it. */
  lemma NegatedHexDigit(c: char)
    requires IsHexDigit(c)
    ensures ParseInt(['-', c], 16) == Some(-(DigitValue(c).value as int))
  {
    var s := ['-', c];
    assert StripLeft(s) == s;
    assert StripRight(s) == s;
    assert s[1..] == [c];
    assert IsDigit(c, 16);
    assert WellFormedDigits([c], 16);
    assert [c][..0] == [];
    assert DigitsValue([c], 16) == DigitValue(c).value;
  }

  // ---------------------------------------------------------------------------
  // Applying a command to the application's state
  // ---------------------------------------------------------------------------

  /** The worker process: a pattern program, the blank pattern, or a static colour. */
  datatype Worker = Program(program: Value, direction: Value) | Blank | StaticColor(rgb: seq<int>)

  /** The application's globals. The speed is the shared 32-bit integer the worker reads. */
  datatype AgentState = AgentState(program: Value, speed: int, direction: Value, color: Value, worker: Option<Worker>)

  const InitialProgram: string := "random"
  const InitialSpeed: int := 10

  /** The state after a command, and whether the handler finished without an error being logged. */
  datatype Handled = Handled(state: AgentState, ok: bool)

  /**
   * `handle_backend_command`: direction (restart), program ("stop" installs the blank worker, anything
   * else restarts), speed (no restart), color (assigned, converted, then a static-colour worker). The first
   * key that raises ends the handler; earlier steps stay done.
   */
  function ApplyCommand(s: AgentState, cmd: Object): Handled {
    var s1 := if "direction" in cmd then
        s.(direction := cmd["direction"], worker := Some(Program(s.program, cmd["direction"])))
      else s;
    var s2 := if "program" in cmd then
        s1.(program := cmd["program"],
            worker := Some(if cmd["program"] == Str("stop") then Blank else Program(cmd["program"], s1.direction)))
      else s1;
    if "speed" in cmd && PyInt(cmd["speed"]).None? then Handled(s2, false)
    else
      var s3 := if "speed" in cmd then s2.(speed := Wrap32(PyInt(cmd["speed"]).value)) else s2;
      if "color" !in cmd then Handled(s3, true)
      else
        var s4 := s3.(color := cmd["color"]);
        match HtmlColorToRgb(cmd["color"])
        case Err(_) => Handled(s4, false)
        case Ok(rgb) => Handled(s4.(worker := Some(StaticColor(rgb))), true)
  }

  predicate SpeedAccepted(cmd: Object) {
    "speed" !in cmd || PyInt(cmd["speed"]).Some?
  }

  /** The worker a command leaves running, read off the keys alone: the last restarting key that took effect wins. */
  function LastWorker(s: AgentState, cmd: Object): Option<Worker> {
    if "color" in cmd && SpeedAccepted(cmd) && HtmlColorToRgb(cmd["color"]).Ok? then
      Some(StaticColor(HtmlColorToRgb(cmd["color"]).value))
    else if "program" in cmd then
      if cmd["program"] == Str("stop") then Some(Blank)
      else Some(Program(cmd["program"], if "direction" in cmd then cmd["direction"] else s.direction))
    else if "direction" in cmd then Some(Program(s.program, cmd["direction"]))
    else s.worker
  }

  /**
   * The handler's outcome key by key: the worker is the one the last restarting key started, each present
   * key's global takes the command's value (speed only when it converts), and the handler reports an error
   * exactly when the speed or the colour does not convert.
   */
  lemma ApplyCommandByKeys(s: AgentState, cmd: Object)
    ensures var h := ApplyCommand(s, cmd);
      && h.state.worker == LastWorker(s, cmd)
      && h.state.program == (if "program" in cmd then cmd["program"] else s.program)
      && h.state.direction == (if "direction" in cmd then cmd["direction"] else s.direction)
      && h.state.speed == (if "speed" in cmd && SpeedAccepted(cmd) then Wrap32(PyInt(cmd["speed"]).value) else s.speed)
      && h.state.color == (if "color" in cmd && SpeedAccepted(cmd) then cmd["color"] else s.color)
      && (h.ok <==> SpeedAccepted(cmd) && ("color" !in cmd || HtmlColorToRgb(cmd["color"]).Ok?))
  {
  }

  /** A speed-only command never restarts the worker. */
  lemma SpeedDoesNotRestart(s: AgentState, v: Value)
    ensures ApplyCommand(s, map["speed" := v]).state.worker == s.worker
  {
  }

  /** "stop" installs the blank worker unless a colour follows it. */
  lemma StopInstallsBlank(s: AgentState, cmd: Object)
    requires "program" in cmd && cmd["program"] == Str("stop") && "color" !in cmd
    ensures ApplyCommand(s, cmd).state.worker == Some(Blank)
  {
  }

  /** A colour that does not convert is still stored, and the worker is left as the earlier keys made it. */
  lemma BadColorKeepsWorker(s: AgentState, cmd: Object)
    requires "color" in cmd && SpeedAccepted(cmd) && HtmlColorToRgb(cmd["color"]).Err?
    ensures var h := ApplyCommand(s, cmd);
      && !h.ok && h.state.color == cmd["color"]
      && h.state.worker == ApplyCommand(s, cmd - {"color"}).state.worker
  {
  }

  /** A speed that does not convert stops the handler before the colour step. */
  lemma BadSpeedSkipsColor(s: AgentState, cmd: Object)
    requires "speed" in cmd && PyInt(cmd["speed"]).None?
    ensures var h := ApplyCommand(s, cmd);
      && !h.ok && h.state.color == s.color && h.state.speed == s.speed
      && h.state == ApplyCommand(s, cmd - {"speed", "color"}).state
  {
  }

  class Agent {
    var program: Value
    var speed: int
    var direction: Value
    var color: Value
    var worker: Option<Worker>

    function State(): AgentState
      reads this
    {
      AgentState(program, speed, direction, color, worker)
    }

    /** The module's initial globals: program "random", speed 10, no direction, no colour, no worker. */
    constructor()
      ensures State() == AgentState(Str(InitialProgram), InitialSpeed, Null, Null, None)
    {
      program := Str(InitialProgram);
      speed := InitialSpeed;
      direction := Null;
      color := Null;
      worker := None;
    }

    /** `restart_candle`: any running worker is stopped and replaced by the current program's. */
    method RestartCandle()
      modifies this
      ensures State() == old(State()).(worker := Some(Program(program, direction)))
    {
      worker := Some(Program(program, direction));
    }

    method HandleBackendCommand(cmd: Object) returns (ok: bool)
      modifies this
      ensures Handled(State(), ok) == ApplyCommand(old(State()), cmd)
    {
      if "direction" in cmd {
        direction := cmd["direction"];
        RestartCandle();
      }
      if "program" in cmd {
        program := cmd["program"];
        if program == Str("stop") {
          worker := Some(Blank);
        } else {
          RestartCandle();
        }
      }
      if "speed" in cmd {
        var n := PyInt(cmd["speed"]);
        if n.None? {
          return false;
        }
        speed := Wrap32(n.value);
      }
      if "color" in cmd {
        color := cmd["color"];
        var rgb := HtmlColorToRgb(color);
        if rgb.Err? {
          return false;
        }
        worker := Some(StaticColor(rgb.value));
      }
      return true;
    }

    /**
     * The start-up step of `run_with_backend`: start the default program, connect, and if connected report
     * the program, speed, direction and colour (no `random`).
     */
    method StartUp(client: BackendClient, connectOk: bool, socket: nat, sendOk: bool)
      requires State() == AgentState(Str(InitialProgram), InitialSpeed, Null, Null, None)
      requires !client.connected
      modifies this, client
      ensures State() == old(State()).(worker := Some(Program(Str(InitialProgram), Null)))
      ensures client.connected == (connectOk && sendOk)
      ensures client.running == old(client.running) && client.delivered == old(client.delivered)
      ensures connectOk && sendOk ==>
        client.sent == old(client.sent) + [StatusObject(Some(InitialProgram), None, Some(InitialSpeed), None, None)]
      ensures !(connectOk && sendOk) ==> client.sent == old(client.sent)
    {
      RestartCandle();
      var _ := client.Connect(connectOk, socket);
      if client.connected {
        client.SendStatus(Some(InitialProgram), None, Some(speed), None, None, sendOk);
      }
    }
  }

  /** The first status the hub receives from a started controller records program "random" at speed 10. */
  lemma StartUpStatusApplied()
    ensures ParseStatusMessage(StatusObject(Some(InitialProgram), None, Some(InitialSpeed), None, None)) ==
      Ok(StatusMessage(Status, Some("random"), None, Some(10), None, None))
  {
    StatusRoundTrip(Some(InitialProgram), None, Some(InitialSpeed), None, None);
  }
}
