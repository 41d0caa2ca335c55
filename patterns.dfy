/**
 * The newer controller's pattern arithmetic (controller/src/candlestick/patterns.py): the
 * 50-pass interpolation `diff_set_array`, the police-light `cop` and the rainbow `rb` frame
 * sequences, and how `bounce`, `wave` and `fall` size themselves by direction.
 * Delays and sleeps are not modelled; a pattern's output is the series of strips it hands to
 * the controller, and what reached the port is `LedStrip.PushAll` of that series.
 */
module Patterns {
  import opened Wrappers
  import opened Leds
  import opened LedStrip

  // ---------------------------------------------------------------------------
  // diff_set_array
  // ---------------------------------------------------------------------------

  /** Passes of `diff_set_array`; the pass with step s divides the remaining distance by s. */
  const Steps: nat := 50

  /** Python's `int()` of the quotient n / d: truncation toward zero. */
  function TruncDiv(n: int, d: int): int
    requires d > 0
  {
    if n >= 0 then n / d else -((-n) / d)
  }

  lemma MulMono(a: int, b: int, d: int)
    requires a <= b && d > 0
    ensures a * d <= b * d
  {
    assert b * d - a * d == (b - a) * d;
  }

  /** Floor division keeps any integer bounds that hold before dividing. */
  lemma DivBounds(m: int, d: int, lo: int, hi: int)
    requires d > 0 && lo * d <= m <= hi * d
    ensures lo <= m / d <= hi
  {
    var q := m / d;
    assert m == q * d + m % d && 0 <= m % d < d;
    if q < lo {
      assert (q + 1) * d == q * d + d;
      MulMono(q + 1, lo, d);
    }
    if q > hi {
      assert (hi + 1) * d == hi * d + d;
      MulMono(hi + 1, q, d);
    }
  }

  lemma TruncDivBounds(n: int, d: int, lo: int, hi: int)
    requires d > 0 && lo * d <= n <= hi * d
    ensures lo <= TruncDiv(n, d) <= hi
  {
    if n >= 0 {
      DivBounds(n, d, lo, hi);
    } else {
      assert (-hi) * d <= -n <= (-lo) * d;
      DivBounds(-n, d, -hi, -lo);
    }
  }

  predicate Between(v: int, a: int, b: int) {
    (a <= v <= b) || (b <= v <= a)
  }

  /**
   * One channel in the pass with divisor `step`: within 2 of the target it snaps to it,
   * otherwise it moves toward it by the distance over `step`, truncated like Python's `int()`.
   */
  function ChannelStep(a: int, b: int, step: nat): (r: int)
    requires step >= 1
    ensures Between(r, a, b)
    ensures (a - b <= 2 && b - a <= 2) || step == 1 ==> r == b
  {
    var difference := if a < b then b - a else a - b;
    if difference <= 2 then b
    else if a < b then
      var n := a * step + difference;
      assert n <= b * step by {
        assert b * step - a * step == difference * step;
        MulMono(1, step, difference);
      }
      TruncDivBounds(n, step, a, b);
      TruncDiv(n, step)
    else
      var n := a * step - difference;
      assert b * step <= n by {
        assert a * step - b * step == difference * step;
        MulMono(1, step, difference);
      }
      TruncDivBounds(n, step, b, a);
      TruncDiv(n, step)
  }

  /** One pass over the three channels of one row. */
  function PassRow(row: Color, target: Color, step: nat): (r: Color)
    requires |row| == 3 && |target| == 3 && step >= 1
    ensures |r| == 3
  {
    [ChannelStep(row[0], target[0], step), ChannelStep(row[1], target[1], step), ChannelStep(row[2], target[2], step)]
  }

  /** One pass over the first n rows. */
  function PassRows(g: Grid, goal: Grid, step: nat, n: nat): (r: Grid)
    requires IsGrid(g) && IsGrid(goal) && step >= 1 && n <= Rows
    ensures |r| == n && forall x :: 0 <= x < n ==> |r[x]| == 3
    decreases n, |goal|
  {
    if n == 0 then [] else PassRows(g, goal, step, n - 1) + [PassRow(g[n - 1], goal[n - 1], step)]
  }

  /** One pass over all 21 channels. */
  function Pass(g: Grid, goal: Grid, step: nat): (r: Grid)
    requires IsGrid(g) && IsGrid(goal) && step >= 1
    ensures IsGrid(r)
  {
    PassRows(g, goal, step, Rows)
  }

  /** Row x of a pass is that row passed on its own. */
  lemma {:induction false} PassRowsAt(g: Grid, goal: Grid, step: nat, n: nat, x: nat)
    requires IsGrid(g) && IsGrid(goal) && step >= 1 && x < n <= Rows
    ensures PassRows(g, goal, step, n)[x] == PassRow(g[x], goal[x], step)
    decreases n
  {
    if x < n - 1 {
      PassRowsAt(g, goal, step, n - 1, x);
    }
  }

  lemma PassAt(g: Grid, goal: Grid, step: nat)
    requires IsGrid(g) && IsGrid(goal) && step >= 1
    ensures forall x :: 0 <= x < Rows ==> Pass(g, goal, step)[x] == PassRow(g[x], goal[x], step)
  {
    forall x | 0 <= x < Rows ensures Pass(g, goal, step)[x] == PassRow(g[x], goal[x], step) {
      PassRowsAt(g, goal, step, Rows, x);
    }
  }

  /** The pass that divides by 1 lands every channel on its target. */
  lemma LastPassIsGoal(g: Grid, goal: Grid)
    requires IsGrid(g) && IsGrid(goal)
    ensures Pass(g, goal, 1) == goal
  {
    var r := Pass(g, goal, 1);
    PassAt(g, goal, 1);
    forall x | 0 <= x < Rows ensures r[x] == goal[x] {
      assert r[x] == PassRow(g[x], goal[x], 1);
    }
  }

  /** Every channel of `g` lies between the same channel of `start` and of `goal`. */
  predicate Within(g: Grid, start: Grid, goal: Grid) {
    && IsGrid(g) && IsGrid(start) && IsGrid(goal)
    && forall x, i :: 0 <= x < Rows && 0 <= i < 3 ==> Between(g[x][i], start[x][i], goal[x][i])
  }

  lemma PassStaysWithin(g: Grid, start: Grid, goal: Grid, step: nat)
    requires Within(g, start, goal) && step >= 1
    ensures Within(Pass(g, goal, step), start, goal)
  {
    var r := Pass(g, goal, step);
    PassAt(g, goal, step);
    forall x, i | 0 <= x < Rows && 0 <= i < 3 ensures Between(r[x][i], start[x][i], goal[x][i]) {
      assert r[x] == PassRow(g[x], goal[x], step);
    }
  }

  /**
   * The strips handed to the controller by the passes step, step - 1, ..., 1. (The measure
   * names `goal` too, so that a literal pass count alone does not unfold all the passes.)
   */
  function PassFrames(g: Grid, goal: Grid, step: nat): (r: seq<Grid>)
    requires IsGrid(g) && IsGrid(goal)
    ensures |r| == step
    ensures forall k :: 0 <= k < step ==> IsGrid(r[k])
    decreases step, |goal|
  {
    if step == 0 then []
    else
      var next := Pass(g, goal, step);
      [next] + PassFrames(next, goal, step - 1)
  }

  /** The final pass divides by 1, so the last strip handed over is the goal. */
  lemma {:induction false} PassFramesEndOnGoal(g: Grid, goal: Grid, step: nat)
    requires IsGrid(g) && IsGrid(goal) && step >= 1
    ensures PassFrames(g, goal, step)[step - 1] == goal
    decreases step
  {
    var next := Pass(g, goal, step);
    if step == 1 {
      LastPassIsGoal(g, goal);
    } else {
      PassFramesEndOnGoal(next, goal, step - 1);
    }
  }

  /** Every channel of every strip handed over lies between its start and its target. */
  lemma {:induction false} PassFramesWithin(g: Grid, start: Grid, goal: Grid, step: nat)
    requires Within(g, start, goal)
    ensures forall k :: 0 <= k < step ==> Within(PassFrames(g, goal, step)[k], start, goal)
    decreases step
  {
    if step > 0 {
      var next := Pass(g, goal, step);
      PassStaysWithin(g, start, goal, step);
      PassFramesWithin(next, start, goal, step - 1);
      var frames := PassFrames(g, goal, step);
      assert frames == [next] + PassFrames(next, goal, step - 1);
      forall k | 0 < k < step ensures Within(frames[k], start, goal) {
        assert frames[k] == PassFrames(next, goal, step - 1)[k - 1];
      }
    }
  }

  /** Interpolating between strips of bytes only ever sends bytes. */
  lemma PassFramesBytes(now: Grid, goal: Grid, step: nat)
    requires ByteGrid(now) && ByteGrid(goal)
    ensures forall k :: 0 <= k < step ==> ByteGrid(PassFrames(now, goal, step)[k])
  {
    assert Within(now, now, goal);
    PassFramesWithin(now, now, goal, step);
  }

  /** The two inner loops of one pass, updating the working copy channel by channel. */
  method PassInPlace(helper: Grid, goal: Grid, step: nat) returns (next: Grid)
    requires IsGrid(helper) && IsGrid(goal) && step >= 1
    ensures next == Pass(helper, goal, step)
  {
    next := helper;
    for x := 0 to Rows
      invariant |next| == Rows
      invariant forall r :: 0 <= r < x ==> next[r] == PassRow(helper[r], goal[r], step)
      invariant forall r :: x <= r < Rows ==> next[r] == helper[r]
    {
      for i := 0 to 3
        invariant |next| == Rows && |next[x]| == 3
        invariant forall c :: 0 <= c < i ==> next[x][c] == ChannelStep(helper[x][c], goal[x][c], step)
        invariant forall c :: i <= c < 3 ==> next[x][c] == helper[x][c]
        invariant forall r :: 0 <= r < x ==> next[r] == PassRow(helper[r], goal[r], step)
        invariant forall r :: x < r < Rows ==> next[r] == helper[r]
      {
        next := next[x := next[x][i := ChannelStep(next[x][i], goal[x][i], step)]];
      }
      assert next[x] == PassRow(helper[x], goal[x], step);
    }
    PassAt(helper, goal, step);
  }

  /** One round of `diff_set_array`: showing the next pass either leaves the rest of the frames to push, or ends the pushes. */
  lemma PassPushStep(out0: Port, out: Port, out': Port, now: Grid, goal: Grid, helper: Grid, next: Grid,
                     step: nat, direction: Option<string>, ok: bool)
    requires IsGrid(now) && IsGrid(helper) && IsGrid(goal) && step >= 1 && next == Pass(helper, goal, step)
    requires PushAll(out0, PassFrames(now, goal, Steps), direction) == PushAll(out, PassFrames(helper, goal, step), direction)
    requires PushAll(out, [next], direction) == (out', ok)
    ensures ok ==> PushAll(out0, PassFrames(now, goal, Steps), direction) == PushAll(out', PassFrames(next, goal, step - 1), direction)
    ensures !ok ==> PushAll(out0, PassFrames(now, goal, Steps), direction) == (out', false)
    ensures step == 1 ==> next == goal
  {
    assert PassFrames(helper, goal, step) == [next] + PassFrames(next, goal, step - 1);
    PushAllAppend(out, [next], PassFrames(next, goal, step - 1), direction);
    if step == 1 {
      LastPassIsGoal(helper, goal);
    }
  }

  /** One round of `diff_set_array`'s loop: the next pass, computed in place and handed to the controller. */
  method ShowPass(controller: SerialController, helper: Grid, goal: Grid, step: nat, direction: Option<string>,
                  ghost out0: Port, ghost now: Grid)
    returns (next: Grid, ok: bool)
    requires IsGrid(now) && IsGrid(helper) && IsGrid(goal) && step >= 1
    requires PushAll(out0, PassFrames(now, goal, Steps), direction)
             == PushAll(controller.Out(), PassFrames(helper, goal, step), direction)
    modifies controller
    ensures IsGrid(next) && controller.led == next && next == Pass(helper, goal, step)
    ensures ok ==> PushAll(out0, PassFrames(now, goal, Steps), direction)
                   == PushAll(controller.Out(), PassFrames(next, goal, step - 1), direction)
    ensures !ok ==> PushAll(out0, PassFrames(now, goal, Steps), direction) == (controller.Out(), false)
    ensures step == 1 ==> next == goal
  {
    next := PassInPlace(helper, goal, step);
    ghost var out := controller.Out();
    ok := controller.SetFullArray(next, direction);
    PassPushStep(out0, out, controller.Out(), now, goal, helper, next, step, direction, ok);
  }

  /**
   * `diff_set_array`: 50 passes over a working copy of `now`, handing each pass to the
   * controller; the inputs are values and stay as they were. `ok` is false where a commit raises.
   */
  method DiffSetArray(controller: SerialController, now: Grid, goal: Grid, direction: Option<string>)
    returns (result: Grid, ok: bool)
    requires IsGrid(now) && IsGrid(goal)
    modifies controller
    ensures PushAll(old(controller.Out()), PassFrames(now, goal, Steps), direction) == (controller.Out(), ok)
    ensures ok ==> result == goal && controller.led == goal
  {
    ghost var out0 := controller.Out();
    var helper := now;
    ok := true;
    var step: nat := Steps;
    while step > 0
      invariant step <= Steps && IsGrid(helper)
      invariant PushAll(out0, PassFrames(now, goal, Steps), direction)
                == PushAll(controller.Out(), PassFrames(helper, goal, step), direction)
      invariant step < Steps ==> controller.led == helper
      invariant step == 0 ==> helper == goal
    {
      helper, ok := ShowPass(controller, helper, goal, step, direction, out0, now);
      if !ok {
        return helper, false;
      }
      step := step - 1;
    }
    result := helper;
  }

  // ---------------------------------------------------------------------------
  // cop
  // ---------------------------------------------------------------------------

  const CopLed1: Grid := [Red, Blue, Blue, Blue, Red, Red, Blue]
  const CopLed2: Grid := [Blue, Red, Red, Red, Blue, Blue, Red]
  const Flash: nat := 3

  /** One round: the two arrangements alternated three times. */
  function CopRound(led1: Grid, led2: Grid): seq<Grid> {
    [led1, led2, led1, led2, led1, led2]
  }

  /** The strips `cop` hands over in `rounds` rounds, rotating both arrangements by two per round. */
  function CopFrames(led1: Grid, led2: Grid, rounds: nat): (r: seq<Grid>)
    ensures |r| == 2 * Flash * rounds
    decreases rounds
  {
    if rounds == 0 then []
    else CopRound(led1, led2) + CopFrames(Rotations(led1, 2), Rotations(led2, 2), rounds - 1)
  }

  /** Round r shows both arrangements rotated left by 2r. */
  lemma {:induction false} CopFramesLastRound(led1: Grid, led2: Grid, rounds: nat)
    requires rounds >= 1
    ensures CopFrames(led1, led2, rounds)
            == CopFrames(led1, led2, rounds - 1)
               + CopRound(Rotations(led1, 2 * (rounds - 1)), Rotations(led2, 2 * (rounds - 1)))
    decreases rounds
  {
    if rounds > 1 {
      CopFramesLastRound(Rotations(led1, 2), Rotations(led2, 2), rounds - 1);
      RotationsCompose(led1, 2, 2 * (rounds - 2));
      RotationsCompose(led2, 2, 2 * (rounds - 2));
    }
  }

  /** Seven rounds bring an arrangement of seven rows back: a rotation by 14 is two full turns. */
  lemma CopPeriod(led: Grid, r: nat)
    requires |led| == Rows
    ensures Rotations(led, 2 * r + 2 * |led|) == Rotations(led, 2 * r)
  {
    RotationsFullTurns(led, 2);
    RotationsCompose(led, 2 * |led|, 2 * r);
    assert 2 * r + 2 * |led| == 2 * |led| + 2 * r;
  }

  /** The inner loop of one `cop` round: the two arrangements alternated `Flash` times. */
  method FlashRound(controller: SerialController, led1: Grid, led2: Grid) returns (ok: bool)
    modifies controller
    ensures PushAll(old(controller.Out()), CopRound(led1, led2), Some("right")) == (controller.Out(), ok)
  {
    var counter := 0;
    ok := true;
    while counter < Flash
      invariant 0 <= counter <= Flash
      invariant PushAll(old(controller.Out()), CopRound(led1, led2), Some("right"))
                == PushAll(controller.Out(), CopRound(led1, led2)[2 * counter..], Some("right"))
    {
      var later := CopRound(led1, led2)[2 * (counter + 1)..];
      assert CopRound(led1, led2)[2 * counter..] == [led1] + ([led2] + later);
      PushAllAppend(controller.Out(), [led1], [led2] + later, Some("right"));
      ok := controller.SetFullArray(led1, Some("right"));
      if !ok {
        return;
      }
      PushAllAppend(controller.Out(), [led2], later, Some("right"));
      ok := controller.SetFullArray(led2, Some("right"));
      if !ok {
        return;
      }
      counter := counter + 1;
    }
  }

  /** `cop` with `direction` ignored: every strip is sent with "right"; `ok` is false where a commit raises. */
  method Cop(controller: SerialController, rounds: int) returns (ok: bool)
    modifies controller
    ensures PushAll(old(controller.Out()), CopFrames(CopLed1, CopLed2, if rounds < 0 then 0 else rounds), Some("right"))
            == (controller.Out(), ok)
  {
    ghost var total: nat := if rounds < 0 then 0 else rounds;
    ghost var pending := PushAll(controller.Out(), CopFrames(CopLed1, CopLed2, total), Some("right"));
    ghost var left: nat := total;
    var roundsCounter := 0;
    var led1 := CopLed1;
    var led2 := CopLed2;
    ok := true;
    while roundsCounter < rounds
      invariant 0 <= roundsCounter <= total && left == total - roundsCounter
      invariant pending == PushAll(controller.Out(), CopFrames(led1, led2, left), Some("right"))
    {
      var next1 := RotateOnce(RotateOnce(led1));
      var next2 := RotateOnce(RotateOnce(led2));
      ghost var before := controller.Out();
      ghost var rest: nat := left - 1;
      ok := FlashRound(controller, led1, led2);
      CopPending(pending, before, led1, led2, left, rest, controller.Out(), ok);
      if !ok {
        return;
      }
      led1, led2 := next1, next2;
      roundsCounter := roundsCounter + 1;
      left := rest;
    }
  }

  /** What is still to be pushed after one more `cop` round from `before` went to `after`. */
  lemma CopPending(pending: (Port, bool), before: Port, led1: Grid, led2: Grid, left: nat, rest: nat, after: Port, ok: bool)
    requires left >= 1 && rest == left - 1
    requires pending == PushAll(before, CopFrames(led1, led2, left), Some("right"))
    requires PushAll(before, CopRound(led1, led2), Some("right")) == (after, ok)
    ensures ok ==> pending == PushAll(after, CopFrames(RotateOnce(RotateOnce(led1)), RotateOnce(RotateOnce(led2)), rest), Some("right"))
    ensures !ok ==> pending == (after, false)
  {
    CopFramesStep(led1, led2, left);
    PushAllAppend(before, CopRound(led1, led2), CopFrames(RotateOnce(RotateOnce(led1)), RotateOnce(RotateOnce(led2)), rest), Some("right"));
  }

  /** One round of `cop` peeled off: the arrangements after it are each rotated twice. */
  lemma CopFramesStep(led1: Grid, led2: Grid, rounds: nat)
    requires rounds >= 1
    ensures CopFrames(led1, led2, rounds)
            == CopRound(led1, led2) + CopFrames(RotateOnce(RotateOnce(led1)), RotateOnce(RotateOnce(led2)), rounds - 1)
  {
    assert Rotations(led1, 1) == RotateOnce(led1) && Rotations(led2, 1) == RotateOnce(led2);
  }

  /** `cop` never raises: its strips are palette colours sent with "right". */
  lemma {:induction false} CopDelivers(port: Port, led1: Grid, led2: Grid, rounds: nat)
    requires ByteGrid(led1) && ByteGrid(led2)
    ensures PushAll(port, CopFrames(led1, led2, rounds), Some("right")).1
    decreases rounds
  {
    if rounds > 0 {
      var round := CopRound(led1, led2);
      PushAllSucceeds(port, round, Some("right"));
      var mid := PushAll(port, round, Some("right")).0;
      RotationsPermute(led1, 2);
      RotationsPermute(led2, 2);
      CopDelivers(mid, Rotations(led1, 2), Rotations(led2, 2), rounds - 1);
      PushAllAppend(port, round, CopFrames(Rotations(led1, 2), Rotations(led2, 2), rounds - 1), Some("right"));
    }
  }

  // ---------------------------------------------------------------------------
  // rb
  // ---------------------------------------------------------------------------

  const DefaultRainbowRounds: nat := 21

  /**
   * `rounds` rounds of `rb` from `led`, each interpolating to the strip rotated left by one,
   * pushed from `port`: the port afterwards, whether every commit went through (the pushing
   * stops at the first that raises), and the strip `rb` holds when its loop ends.
   */
  function RainbowPush(port: Port, led: Grid, rounds: nat, direction: Option<string>): (Port, bool, Grid)
    requires IsGrid(led)
    decreases rounds
  {
    if rounds == 0 then (port, true, led)
    else
      var goal := RotateOnce(led);
      var (mid, ok) := PushAll(port, PassFrames(led, goal, Steps), direction);
      if ok then RainbowPush(mid, goal, rounds - 1, direction) else (mid, false, led)
  }

  /** `rb`'s direction: its own random pick when none is given. */
  function RainbowDirection(direction: Option<string>, pick: string): string {
    if direction.None? then pick else direction.value
  }

  /**
   * `rb`: the palette, then `rounds` interpolations each to the strip rotated by one; `ok` is
   * false where a commit raises. `pick` is the random direction used when none is given.
   */
  method Rb(controller: SerialController, rounds: int, direction: Option<string>, pick: string) returns (ok: bool)
    modifies controller
    ensures var d := Some(RainbowDirection(direction, pick));
            var (first, started) := PushAll(old(controller.Out()), [Colors], d);
            if started then
              var (port, delivered, last) := RainbowPush(first, Colors, if rounds < 0 then 0 else rounds, d);
              controller.Out() == port && ok == delivered && (ok ==> controller.led == last)
            else controller.Out() == first && !ok
  {
    var dir := if direction.None? then Some(pick) else direction;
    var led := Colors;
    ok := controller.SetFullArray(led, dir);
    if ok {
      ok := RainbowRounds(controller, led, rounds, dir);
    }
  }

  lemma RotateOnceKeepsGrid(g: Grid)
    requires IsGrid(g)
    ensures IsGrid(RotateOnce(g)) && RotateOnce(g) == g[1..] + [g[0]]
  {
    RotationsPermute(g, 1);
  }

  /** One round of `rb`: the strip rotated left by one is the goal of `diff_set_array`. */
  method RainbowRound(controller: SerialController, current: Grid, dir: Option<string>) returns (next: Grid, ok: bool)
    requires IsGrid(current)
    modifies controller
    ensures PushAll(old(controller.Out()), PassFrames(current, RotateOnce(current), Steps), dir) == (controller.Out(), ok)
    ensures ok ==> next == RotateOnce(current) && IsGrid(next) && controller.led == next
  {
    var goal := current[1..] + [current[0]];
    RotateOnceKeepsGrid(current);
    next, ok := DiffSetArray(controller, current, goal, dir);
  }

  /** The `for counter in range(rounds)` loop of `rb`, from the strip `led` the controller shows. */
  method RainbowRounds(controller: SerialController, led: Grid, rounds: int, dir: Option<string>) returns (ok: bool)
    requires IsGrid(led) && controller.led == led
    modifies controller
    ensures var (port, delivered, last) := RainbowPush(old(controller.Out()), led, if rounds < 0 then 0 else rounds, dir);
            controller.Out() == port && ok == delivered && (ok ==> controller.led == last)
  {
    ghost var total: nat := if rounds < 0 then 0 else rounds;
    ghost var pending := RainbowPush(controller.Out(), led, total, dir);
    ghost var left: nat := total;
    var current := led;
    var counter := 0;
    ok := true;
    while counter < rounds
      invariant 0 <= counter <= total && left == total - counter
      invariant IsGrid(current) && ok && controller.led == current
      invariant pending == RainbowPush(controller.Out(), current, left, dir)
    {
      ghost var before := controller.Out();
      ghost var prior := current;
      ghost var rest: nat := left - 1;
      current, ok := RainbowRound(controller, current, dir);
      RainbowPending(pending, before, prior, left, rest, dir, controller.Out(), ok);
      if !ok {
        return;
      }
      counter := counter + 1;
      left := rest;
    }
  }

  /** The first round of `RainbowPush`, told apart from the rest. */
  lemma RainbowPushStep(before: Port, led: Grid, rounds: nat, dir: Option<string>, after: Port, ok: bool)
    requires IsGrid(led) && rounds >= 1
    requires PushAll(before, PassFrames(led, RotateOnce(led), Steps), dir) == (after, ok)
    ensures ok ==> RainbowPush(before, led, rounds, dir) == RainbowPush(after, RotateOnce(led), rounds - 1, dir)
    ensures !ok ==> RainbowPush(before, led, rounds, dir) == (after, false, led)
  {
  }

  /** What is still to be pushed after one more `rb` round from `before` went to `after`. */
  lemma RainbowPending(pending: (Port, bool, Grid), before: Port, led: Grid, n: nat, rest: nat, dir: Option<string>,
                       after: Port, ok: bool)
    requires IsGrid(led) && n >= 1 && rest == n - 1 && pending == RainbowPush(before, led, n, dir)
    requires PushAll(before, PassFrames(led, RotateOnce(led), Steps), dir) == (after, ok)
    ensures ok ==> pending == RainbowPush(after, RotateOnce(led), rest, dir)
    ensures !ok ==> pending == (after, false, led)
  {
    RainbowPushStep(before, led, n, dir, after, ok);
  }

  lemma RotateOnceKeepsBytes(g: Grid)
    requires ByteGrid(g)
    ensures ByteGrid(RotateOnce(g))
  {
    RotationsPermute(g, 1);
  }

  /** Interpolating between strips of bytes never makes a commit raise in a direction it handles. */
  lemma PassFramesSucceed(port: Port, now: Grid, goal: Grid, direction: Option<string>)
    requires ByteGrid(now) && ByteGrid(goal) && RowOrder(direction).Some?
    ensures PushAll(port, PassFrames(now, goal, Steps), direction).1
  {
    PassFramesBytes(now, goal, Steps);
    PushAllSucceeds(port, PassFrames(now, goal, Steps), direction);
  }

  /** `rb` never raises for a direction `commit_arr` handles: every interpolated strip is bytes. */
  lemma {:induction false} RainbowDelivers(port: Port, led: Grid, rounds: nat, direction: Option<string>)
    requires ByteGrid(led) && RowOrder(direction).Some?
    ensures RainbowPush(port, led, rounds, direction).1
    decreases rounds
  {
    if rounds > 0 {
      var mid := RainbowRoundDelivers(port, led, rounds, direction);
      RainbowDelivers(mid, RotateOnce(led), rounds - 1, direction);
    }
  }

  /** One `rb` round between strips of bytes goes through, to the port `mid`, and leaves a strip of bytes. */
  lemma RainbowRoundDelivers(port: Port, led: Grid, rounds: nat, direction: Option<string>) returns (mid: Port)
    requires ByteGrid(led) && RowOrder(direction).Some? && rounds > 0
    ensures ByteGrid(RotateOnce(led))
    ensures RainbowPush(port, led, rounds, direction) == RainbowPush(mid, RotateOnce(led), rounds - 1, direction)
  {
    var goal := RotateOnce(led);
    RotateOnceKeepsBytes(led);
    PassFramesSucceed(port, led, goal, direction);
    mid := PushAll(port, PassFrames(led, goal, Steps), direction).0;
    RainbowPushStep(port, led, rounds, direction, mid, true);
  }

  /** When every round goes through, `rb` ends on its starting strip rotated left once per round. */
  lemma {:induction false} RainbowEndsRotated(port: Port, led: Grid, rounds: nat, direction: Option<string>)
    requires IsGrid(led) && RainbowPush(port, led, rounds, direction).1
    ensures RainbowPush(port, led, rounds, direction).2 == Rotations(led, rounds)
    decreases rounds
  {
    if rounds > 0 {
      var goal := RotateOnce(led);
      RotateOnceKeepsGrid(led);
      var (mid, ok) := PushAll(port, PassFrames(led, goal, Steps), direction);
      RainbowPushStep(port, led, rounds, direction, mid, ok);
      var rest: nat := rounds - 1;
      RainbowEndsRotated(mid, goal, rest, direction);
      RotationsCompose(led, 1, rest);
      assert Rotations(led, 1) == goal && 1 + rest == rounds;
    }
  }

  /** After the default 21 rounds the strip shows the palette in its starting order again. */
  lemma RainbowReturnsToPalette()
    ensures Rotations(Colors, DefaultRainbowRounds) == Colors
  {
    RotationsFullTurns(Colors, 3);
  }

  // ---------------------------------------------------------------------------
  // bounce, wave, fall: geometry
  // ---------------------------------------------------------------------------

  datatype Shape = Shape(ledCount: nat, rounds: int)

  predicate Horizontal(direction: Option<string>) {
    direction == Some("right") || direction == Some("left")
  }

  /** The `rounds` argument counts only when truthy. */
  function RoundsOr(rounds: Option<int>, default: int): int {
    if rounds.None? || rounds.value == 0 then default else rounds.value
  }

  /** `bounce`'s direction: its own random pick when the given one is falsy. */
  function BounceDirection(direction: Option<string>, pick: string): string {
    if Falsy(direction) then pick else direction.value
  }

  function BounceShape(direction: string, rounds: Option<int>): Shape {
    if Horizontal(Some(direction)) then Shape(6, RoundsOr(rounds, 3)) else Shape(3, RoundsOr(rounds, 5))
  }

  /** `wave`'s direction: its own random pick only when none is given. */
  function WaveDirection(direction: Option<string>, pick: string): string {
    if direction.None? then pick else direction.value
  }

  function WaveShape(direction: string, rounds: Option<int>): Shape {
    if Horizontal(Some(direction)) then Shape(7, RoundsOr(rounds, 4)) else Shape(4, RoundsOr(rounds, 6))
  }

  /** `fall` picks no direction of its own; None counts as vertical. */
  function FallShape(direction: Option<string>, rounds: Option<int>): Shape {
    if Horizontal(direction) then Shape(6, RoundsOr(rounds, 3)) else Shape(3, RoundsOr(rounds, 5))
  }

  /** Rows `bounce` lights in one round: out over range(n), back over range(n, -1, -1). */
  function BounceLit(n: nat): (r: seq<nat>)
    ensures |r| == 2 * n + 1
    ensures forall k :: 0 <= k < n ==> r[k] == k
    ensures forall k :: n <= k < |r| ==> r[k] == 2 * n - k
  {
    seq(n, x => x) + seq(n + 1, k => n - k)
  }

  /** Rows `wave` lights in one round: range(n). */
  function WaveLit(n: nat): (r: seq<nat>)
    ensures |r| == n && forall k :: 0 <= k < n ==> r[k] == k
  {
    seq(n, x => x)
  }

  /** Rows `fall` sweeps in one round, whatever the direction: 4, 5, 6, then 2, 1, 0 (row 3 blinks between). */
  const FallLit: seq<nat> := [4, 5, 6, 2, 1, 0]

  /** The rows listed are exactly the rows below m. */
  predicate RowsBelow(rows: seq<nat>, m: nat) {
    && (forall k :: 0 <= k < |rows| ==> rows[k] < m)
    && (forall r: nat :: r < m ==> r in rows)
  }

  /** Every row in `lit` is one the order sends, and every row the order sends is in `lit`. */
  predicate LitMatchesOrder(lit: seq<nat>, order: seq<nat>) {
    && (forall k :: 0 <= k < |lit| ==> lit[k] in order)
    && (forall k :: 0 <= k < |order| ==> order[k] in lit)
  }

  lemma BounceLitRows(n: nat)
    ensures RowsBelow(BounceLit(n), n + 1)
  {
    var lit := BounceLit(n);
    forall r: nat | r < n + 1 ensures r in lit {
      assert lit[2 * n - r] == r;
    }
  }

  lemma WaveLitRows(n: nat)
    ensures RowsBelow(WaveLit(n), n)
  {
    var lit := WaveLit(n);
    forall r: nat | r < n ensures r in lit {
      assert lit[r] == r;
    }
  }

  /** Sideways the order sends all seven rows; up or down, rows 0-3. */
  lemma OrderRows(direction: string)
    requires direction in Directions
    ensures RowsBelow(RowOrder(Some(direction)).value, if Horizontal(Some(direction)) then Rows else 4)
  {
    var order := RowOrder(Some(direction)).value;
    if direction == "right" {
      forall r: nat | r < Rows ensures r in order {
        assert order[r] == r;
      }
    } else if direction == "left" {
      forall r: nat | r < Rows ensures r in order {
        assert order[Rows - 1 - r] == r;
      }
    } else {
      VerticalOrdersShowRowsZeroToThree(direction);
      assert direction == "up" ==> order[0] == 0 && order[1] == 1 && order[2] == 2 && order[3] == 3;
      assert direction == "down" ==> order[3] == 0 && order[2] == 1 && order[1] == 2 && order[0] == 3;
    }
  }

  lemma SameRows(lit: seq<nat>, order: seq<nat>, m: nat)
    requires RowsBelow(lit, m) && RowsBelow(order, m)
    ensures LitMatchesOrder(lit, order)
  {
  }

  /**
   * `bounce` and `wave` size themselves to the rows the direction's order sends: all seven
   * sideways, rows 0-3 up or down. Every row they light is sent, and every row sent is lit.
   */
  lemma GeometryMatchesOrders(direction: string, rounds: Option<int>)
    requires direction in Directions
    ensures LitMatchesOrder(BounceLit(BounceShape(direction, rounds).ledCount), RowOrder(Some(direction)).value)
    ensures LitMatchesOrder(WaveLit(WaveShape(direction, rounds).ledCount), RowOrder(Some(direction)).value)
  {
    var order := RowOrder(Some(direction)).value;
    var m := if Horizontal(Some(direction)) then Rows else 4;
    OrderRows(direction);
    BounceLitRows(BounceShape(direction, rounds).ledCount);
    WaveLitRows(WaveShape(direction, rounds).ledCount);
    SameRows(BounceLit(BounceShape(direction, rounds).ledCount), order, m);
    SameRows(WaveLit(WaveShape(direction, rounds).ledCount), order, m);
  }

  /**
   * `fall` keeps its horizontal/vertical split but always sweeps rows 4-6 and 0-2: sent
   * up or down, row 4 is lit but never sent.
   */
  lemma FallLightsUnsentRow(direction: string)
    requires direction in Directions && !Horizontal(Some(direction))
    ensures 4 in FallLit && 4 !in RowOrder(Some(direction)).value
    ensures FallShape(Some(direction), None) == Shape(3, 5)
  {
    VerticalOrdersShowRowsZeroToThree(direction);
  }

  /**
   * The defaults of the three sweeps: sideways, `bounce` and `fall` light 6 LEDs for 3 rounds and
   * `wave` 7 for 4; up or down, 3 for 5 and 4 for 6. A truthy `rounds` replaces the default,
   * and 0 is falsy.
   */
  lemma DefaultShapes(direction: string, n: int)
    requires direction in Directions && n != 0
    ensures Horizontal(Some(direction)) ==>
              BounceShape(direction, None) == Shape(6, 3) && WaveShape(direction, None) == Shape(7, 4)
              && FallShape(Some(direction), None) == Shape(6, 3)
    ensures !Horizontal(Some(direction)) ==>
              BounceShape(direction, None) == Shape(3, 5) && WaveShape(direction, None) == Shape(4, 6)
              && FallShape(Some(direction), None) == Shape(3, 5)
    ensures BounceShape(direction, Some(n)).rounds == WaveShape(direction, Some(n)).rounds == FallShape(Some(direction), Some(n)).rounds == n
    ensures BounceShape(direction, Some(0)) == BounceShape(direction, None)
  {
  }
}
