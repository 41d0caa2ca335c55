/**
 * The LED strip vocabulary both controller generations share: a strip of seven RGB LEDs, the
 * colour palette, the four animation directions, the 21-value payload an order of rows
 * produces, the serial frame around it, list rotation, and the palette pick that never
 * repeats the previous index (controller/src/candlestick/patterns.py:9-31 and
 * controller/serial_controller/rgb_support.py:19-29, :124-131).
 */
module Leds {
  import opened Wrappers

  /** One LED's channels, red/green/blue, as the Python lists hold them. */
  type Color = seq<int>

  /** A strip: one colour per LED row. */
  type Grid = seq<Color>

  const Rows: nat := 7

  const Red: Color := [250, 0, 0]
  const Orange: Color := [250, 127, 0]
  const Yellow: Color := [250, 250, 0]
  const Green: Color := [0, 250, 0]
  const Blue: Color := [0, 0, 250]
  const Cyan: Color := [139, 0, 250]
  const White: Color := [250, 250, 250]
  const Black: Color := [0, 0, 0]

  /** The palette `get_random_color` picks from, in index order. */
  const Colors: seq<Color> := [Red, Orange, Yellow, Green, Cyan, Blue, White]

  const Directions: seq<string> := ["right", "up", "down", "left"]

  /** A full strip: seven rows of three channels. */
  predicate IsGrid(g: Grid) {
    |g| == Rows && forall i :: 0 <= i < |g| ==> |g[i]| == 3
  }

  predicate IsByte(v: int) {
    0 <= v < 256
  }

  predicate AllBytes(values: seq<int>) {
    forall k :: 0 <= k < |values| ==> IsByte(values[k])
  }

  predicate ByteGrid(g: Grid) {
    IsGrid(g) && forall i, j :: 0 <= i < |g| && 0 <= j < 3 ==> IsByte(g[i][j])
  }

  function Dark(): (g: Grid)
    ensures ByteGrid(g)
  {
    seq(Rows, _ => Black)
  }

  /** Python truthiness of an optional direction string: None and "" are false. */
  predicate Falsy(direction: Option<string>) {
    direction.None? || direction.value == ""
  }

  // ---------------------------------------------------------------------------
  // Payload and frame
  // ---------------------------------------------------------------------------

  /** Every row an order names exists and has three channels. */
  predicate Fits(g: Grid, order: seq<nat>) {
    forall k :: 0 <= k < |order| ==> order[k] < |g| && |g[order[k]]| >= 3
  }

  /** The values sent for a row order: the three channels of each listed row, in order. */
  function Payload(g: Grid, order: seq<nat>): (r: seq<int>)
    requires Fits(g, order)
    ensures |r| == 3 * |order|
  {
    if order == [] then []
    else g[order[0]][..3] + Payload(g, order[1..])
  }

  /** Row k of the order lands at positions 3k .. 3k+2 of the payload. */
  lemma {:induction false} PayloadAt(g: Grid, order: seq<nat>, k: nat, j: nat)
    requires Fits(g, order) && k < |order| && j < 3
    ensures Payload(g, order)[3 * k + j] == g[order[k]][j]
    decreases k
  {
    if k > 0 {
      PayloadAt(g, order[1..], k - 1, j);
      assert Payload(g, order) == g[order[0]][..3] + Payload(g, order[1..]);
    }
  }

  /** A payload of byte channels is all bytes. */
  lemma {:induction false} PayloadBytes(g: Grid, order: seq<nat>)
    requires Fits(g, order)
    requires forall k, j :: 0 <= k < |order| && 0 <= j < 3 ==> IsByte(g[order[k]][j])
    ensures AllBytes(Payload(g, order))
    decreases |order|
  {
    if order != [] {
      PayloadBytes(g, order[1..]);
      assert forall j :: 0 <= j < 3 ==> IsByte(g[order[0]][j]);
    }
  }

  const StartMarker: int := 255
  const EndMarker: int := 254

  /** The bytes written to the serial line: 255, the payload, 254. */
  function Frame(values: seq<int>): seq<int> {
    [StartMarker] + values + [EndMarker]
  }

  /**
   * A specification aid with no counterpart in the controller (the receiving firmware is not part of
   * this model): the payload between the markers, if the markers are there. It states what the
   * framing promises a reader of the serial line.
   */
  function Unframe(frame: seq<int>): (r: Option<seq<int>>)
    ensures r.Some? ==> |r.value| == |frame| - 2
  {
    if |frame| >= 2 && frame[0] == StartMarker && frame[|frame| - 1] == EndMarker
    then Some(frame[1..|frame| - 1])
    else None
  }

  lemma FrameRoundTrip(values: seq<int>)
    ensures Unframe(Frame(values)) == Some(values)
    ensures |Frame(values)| == |values| + 2
  {
    assert Frame(values)[1..|values| + 1] == values;
  }

  // ---------------------------------------------------------------------------
  // Rotation
  // ---------------------------------------------------------------------------

  /** The list rotated left by n: element k moves to k - n, the first n move to the end. */
  function RotateLeft<T>(s: seq<T>, n: nat): (r: seq<T>)
    requires n <= |s|
    ensures |r| == |s|
    ensures forall k :: 0 <= k < |s| - n ==> r[k] == s[k + n]
    ensures forall k :: |s| - n <= k < |s| ==> r[k] == s[k + n - |s|]
  {
    s[n..] + s[..n]
  }

  /** One `append(l[0]); remove(l[0])`: `remove` drops the first element equal to l[0], index 0. */
  function RotateOnce<T>(s: seq<T>): (r: seq<T>)
    ensures |r| == |s|
  {
    if s == [] then [] else s[1..] + [s[0]]
  }

  /** Rotating left one step at a time, k times. */
  function Rotations<T>(s: seq<T>, k: nat): (r: seq<T>)
    ensures |r| == |s|
  {
    if k == 0 then s else RotateOnce(Rotations(s, k - 1))
  }

  lemma RotateOnceStep<T>(s: seq<T>, m: nat)
    requires m < |s|
    ensures RotateOnce(RotateLeft(s, m)) == RotateLeft(s, m + 1)
  {
    var r := RotateLeft(s, m);
    assert r[1..] == s[m + 1..] + s[..m];
    assert s[..m] + [s[m]] == s[..m + 1];
  }

  /** Up to a full turn, k single rotations are one rotation by k. */
  lemma {:induction false} RotationsAreRotateLeft<T>(s: seq<T>, k: nat)
    requires k <= |s|
    ensures Rotations(s, k) == RotateLeft(s, k)
    decreases k
  {
    if k > 0 {
      RotationsAreRotateLeft(s, k - 1);
      RotateOnceStep(s, k - 1);
    }
  }

  /** Rotating only rearranges: the same elements, each as often. */
  lemma {:induction false} RotationsPermute<T>(s: seq<T>, k: nat)
    ensures multiset(Rotations(s, k)) == multiset(s)
    ensures forall i :: 0 <= i < |s| ==> Rotations(s, k)[i] in s
    decreases k
  {
    var r := Rotations(s, k);
    if k > 0 {
      RotationsPermute(s, k - 1);
      var p := Rotations(s, k - 1);
      if p != [] {
        assert p == [p[0]] + p[1..];
        assert multiset(r) == multiset(p[1..]) + multiset([p[0]]);
      }
    }
    forall i | 0 <= i < |s| ensures r[i] in s {
      assert r[i] in multiset(r);
    }
  }

  lemma {:induction false} RotationsCompose<T>(s: seq<T>, a: nat, b: nat)
    ensures Rotations(s, a + b) == Rotations(Rotations(s, a), b)
    decreases b
  {
    if b > 0 {
      RotationsCompose(s, a, b - 1);
    }
  }

  /** Any whole number of full turns restores the list. */
  lemma {:induction false} RotationsFullTurns<T>(s: seq<T>, turns: nat)
    ensures Rotations(s, turns * |s|) == s
    decreases turns
  {
    if turns > 0 {
      var n := |s|;
      var before: nat := (turns - 1) * n;
      assert turns * n == before + n;
      RotationsFullTurns(s, turns - 1);
      RotationsCompose(s, before, n);
      RotationsAreRotateLeft(s, n);
      assert RotateLeft(s, n) == s;
    }
  }

  // ---------------------------------------------------------------------------
  // The no-repeat palette pick
  // ---------------------------------------------------------------------------

  /** The first draw different from the previous index, with how many draws were consumed. */
  function FirstFresh(draws: seq<nat>, previous: Option<nat>): (r: Option<(nat, nat)>)
    ensures r.Some? ==> var (index, used) := r.value;
                        1 <= used <= |draws| && draws[used - 1] == index && Some(index) != previous
                        && forall k :: 0 <= k < used - 1 ==> Some(draws[k]) == previous
    ensures r.None? <==> forall k :: 0 <= k < |draws| ==> Some(draws[k]) == previous
  {
    if draws == [] then None
    else if Some(draws[0]) != previous then Some((draws[0], 1))
    else
      match FirstFresh(draws[1..], previous)
      case None => None
      case Some((index, used)) => Some((index, used + 1))
  }

  /** The first fresh draw is the first one that differs from the previous index. */
  lemma {:induction false} FirstFreshAt(draws: seq<nat>, previous: Option<nat>, i: nat)
    requires i < |draws| && Some(draws[i]) != previous
    requires forall k :: 0 <= k < i ==> Some(draws[k]) == previous
    ensures FirstFresh(draws, previous) == Some((draws[i], i + 1))
    decreases i
  {
    if i > 0 {
      FirstFreshAt(draws[1..], previous, i - 1);
    }
  }

  /**
   * The module-level `old_random` of one palette module, with `get_random_color`. The
   * random draws are a parameter; the source draws until one differs from the previous index.
   */
  class ColorPicker {
    var oldRandom: Option<nat>

    constructor()
      ensures oldRandom == None
    {
      oldRandom := None;
    }

    /** None when every supplied draw repeats the previous index (the source would keep drawing). */
    method GetRandomColor(draws: seq<nat>) returns (color: Option<Color>)
      requires forall k :: 0 <= k < |draws| ==> draws[k] < |Colors|
      modifies this
      ensures match FirstFresh(draws, old(oldRandom))
              case None => color == None && oldRandom == old(oldRandom)
              case Some((index, _)) => color == Some(Colors[index]) && oldRandom == Some(index)
    {
      var i := 0;
      while i < |draws| && Some(draws[i]) == oldRandom
        invariant 0 <= i <= |draws|
        invariant forall k :: 0 <= k < i ==> Some(draws[k]) == oldRandom
      {
        i := i + 1;
      }
      if i == |draws| {
        color := None;
      } else {
        FirstFreshAt(draws, oldRandom, i);
        color := Some(Colors[draws[i]]);
        oldRandom := Some(draws[i]);
      }
    }
  }

  /** Two consecutive picks never return the same palette index. */
  lemma NoRepeatInARow(first: seq<nat>, second: seq<nat>, previous: Option<nat>)
    requires FirstFresh(first, previous).Some?
    requires FirstFresh(second, Some(FirstFresh(first, previous).value.0)).Some?
    ensures FirstFresh(second, Some(FirstFresh(first, previous).value.0)).value.0
            != FirstFresh(first, previous).value.0
  {
  }
}
