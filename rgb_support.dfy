/**
 * The older controller's support module (controller/serial_controller/rgb_support.py). Its
 * globals become the fields of one `RgbSupport` object. The strip `led` is a list of row
 * lists and the palette colours are lists too, so after `set_full_array` a row can be the very
 * list of a palette colour, or the same list as another row. To keep that sharing, every list
 * the module can reach lives in a store and is named by its position there: `led` holds the
 * positions of its rows, the palette is at positions 0 to 6 and `black` at 7. Writing into a
 * list changes what every row and colour naming it shows. The module opens its serial port
 * when it is imported, so the port is always open; the frames written to it are `written`.
 */
module LegacySupport {
  import opened Wrappers
  import opened Leds
  import opened LedStrip

  // ---------------------------------------------------------------------------
  // Row orders
  // ---------------------------------------------------------------------------

  /** The row order `commit` sends, with the `is` comparisons read as equality. */
  function LegacyRowOrder(direction: Option<string>): Option<seq<nat>> {
    if Falsy(direction) || direction.value == "right" then Some(Forward())
    else if direction.value == "left" then Some(Backward())
    else if direction.value == "up" then Some([3, 2, 1, 0, 1, 2, 3])
    else if direction.value == "down" then Some([0, 1, 2, 3, 2, 1, 0])
    else None
  }

  /** "up" and "down" exchanged, every other direction kept. */
  function Swap(direction: Option<string>): Option<string> {
    if direction == Some("up") then Some("down")
    else if direction == Some("down") then Some("up")
    else direction
  }

  /**
   * The older `commit` sends for "up" what the newer `commit_arr` sends for "down", and the
   * other way round; every other direction is sent alike.
   */
  lemma LegacyOrdersAreSwapped(direction: Option<string>)
    ensures LegacyRowOrder(direction) == RowOrder(Swap(direction))
    ensures Swap(Swap(direction)) == direction
    ensures direction != Some("up") && direction != Some("down") ==> LegacyRowOrder(direction) == RowOrder(direction)
  {
  }

  // ---------------------------------------------------------------------------
  // Lists by identity
  // ---------------------------------------------------------------------------

  /** The palette lists `red` .. `white`, in the order of `colors`, and `black`. */
  const PaletteLists: seq<nat> := [0, 1, 2, 3, 4, 5, 6]
  const BlackList: nat := 7

  /** Every list holds three channels. */
  predicate Channels(store: seq<Color>) {
    forall k :: 0 <= k < |store| ==> |store[k]| == 3
  }

  /** Every named list exists. */
  predicate Names(ids: seq<nat>, store: seq<Color>) {
    forall y :: 0 <= y < |ids| ==> ids[y] < |store|
  }

  /** The values the named lists hold. */
  function Lookup(store: seq<Color>, ids: seq<nat>): (g: Grid)
    requires Names(ids, store)
    ensures |g| == |ids| && forall y :: 0 <= y < |ids| ==> g[y] == store[ids[y]]
  {
    seq(|ids|, y requires 0 <= y < |ids| => store[ids[y]])
  }

  /** Entries i and j of a naming name the same list. */
  predicate SameList(a: seq<nat>, i: int, j: int)
    requires 0 <= i < |a| && 0 <= j < |a|
  {
    a[i] == a[j]
  }

  /** No list is named twice. */
  predicate Unshared(ids: seq<nat>) {
    forall i, j :: 0 <= i < j < |ids| ==> !SameList(ids, i, j)
  }

  /** Two namings share lists at the same places. */
  predicate SameSharing(a: seq<nat>, b: seq<nat>) {
    |a| == |b| && forall i, j :: 0 <= i < |a| && 0 <= j < |a| ==> (SameList(a, i, j) <==> SameList(b, i, j))
  }

  /** The values after writing `value` into the list `target`: every entry naming it changes. */
  function Overwrite(ids: seq<nat>, before: Grid, target: nat, value: Color): (g: Grid)
    requires |before| == |ids|
    ensures |g| == |ids|
    ensures forall y :: 0 <= y < |ids| ==> g[y] == if ids[y] == target then value else before[y]
  {
    seq(|ids|, y requires 0 <= y < |ids| => if ids[y] == target then value else before[y])
  }

  /** Writing one list of the store is seen through every name of it, and only there. */
  lemma LookupUpdate(store: seq<Color>, ids: seq<nat>, target: nat, value: Color)
    requires Names(ids, store) && target < |store|
    ensures Names(ids, store[target := value])
    ensures Lookup(store[target := value], ids) == Overwrite(ids, Lookup(store, ids), target, value)
  {
  }

  /** Lists added after the named ones leave what they name as it was. */
  lemma LookupGrown(before: seq<Color>, after: seq<Color>, ids: seq<nat>)
    requires Names(ids, before) && |after| >= |before| && after[..|before|] == before
    ensures Names(ids, after) && Lookup(after, ids) == Lookup(before, ids)
  {
    forall y | 0 <= y < |ids| ensures after[ids[y]] == before[ids[y]] {
      assert after[..|before|][ids[y]] == after[ids[y]];
    }
  }

  /** Python's index into a list of n: negative indices count from the end; None is IndexError. */
  function PyIndex(x: int, n: nat): (r: Option<nat>)
    ensures r.Some? <==> -(n as int) <= x < n
    ensures r.Some? ==> r.value < n && r.value % n == x % n
  {
    if -(n as int) <= x < 0 then Some(x + n) else if 0 <= x < n then Some(x) else None
  }

  /** The first k channels of `i` over the rest of `row`: what `row[c] = i[c]` for c < k leaves. */
  function Prefix(i: Color, row: Color, k: nat): (r: Color)
    requires k <= |i| && k <= |row|
    ensures |r| == |row| && forall c :: 0 <= c < |row| ==> r[c] == if c < k then i[c] else row[c]
  {
    i[..k] + row[k..]
  }

  // ---------------------------------------------------------------------------
  // Fading
  // ---------------------------------------------------------------------------

  function Dist(a: int, b: int): nat {
    if a < b then b - a else a - b
  }

  /** One channel of `fade_led`: moved `speed` toward the target when farther than `speed`. */
  function FadeChannel(v: int, t: int, speed: int): (r: int)
    ensures Dist(v, t) <= speed ==> r == v
    ensures Dist(v, t) > speed >= 0 ==> Dist(r, t) == Dist(v, t) - speed && (v < t ==> v <= r <= t) && (t < v ==> t <= r <= v)
  {
    if Dist(v, t) > speed then (if v < t then v + speed else v - speed) else v
  }

  function FadeRow(row: Color, target: Color, speed: int): (r: Color)
    requires |row| == 3 && |target| >= 3
    ensures |r| == 3 && forall c :: 0 <= c < 3 ==> r[c] == FadeChannel(row[c], target[c], speed)
  {
    [FadeChannel(row[0], target[0], speed), FadeChannel(row[1], target[1], speed), FadeChannel(row[2], target[2], speed)]
  }

  /** Every channel of the row within 1 of the target. */
  predicate Close(row: Color, target: Color)
    requires |row| == 3 && |target| >= 3
  {
    forall c :: 0 <= c < 3 ==> Dist(row[c], target[c]) <= 1
  }

  /** How far a channel still is from being within 1 of its target. */
  function Excess(v: int, t: int): nat {
    if Dist(v, t) > 1 then Dist(v, t) - 1 else 0
  }

  function RowExcess(row: Color, target: Color): nat
    requires |row| == 3 && |target| >= 3
  {
    Excess(row[0], target[0]) + Excess(row[1], target[1]) + Excess(row[2], target[2])
  }

  predicate Rows3(g: Grid) {
    forall y :: 0 <= y < |g| ==> |g[y]| == 3
  }

  /** The distance `slow_fade_all` still has to cover, summed over the rows. */
  function GridExcess(g: Grid, target: Color): nat
    requires Rows3(g) && |target| >= 3
    decreases |g|
  {
    if g == [] then 0 else GridExcess(g[..|g| - 1], target) + RowExcess(g[|g| - 1], target)
  }

  /** A row-by-row decrease of the excess decreases the sum, strictly if one row's does. */
  lemma {:induction false} GridExcessShrinks(before: Grid, after: Grid, target: Color, strict: int)
    requires Rows3(before) && Rows3(after) && |before| == |after| && |target| >= 3
    requires forall y :: 0 <= y < |before| ==> RowExcess(after[y], target) <= RowExcess(before[y], target)
    requires 0 <= strict < |before| ==> RowExcess(after[strict], target) < RowExcess(before[strict], target)
    ensures GridExcess(after, target) <= GridExcess(before, target)
    ensures 0 <= strict < |before| ==> GridExcess(after, target) < GridExcess(before, target)
    decreases |before|
  {
    if before != [] {
      var n := |before| - 1;
      var b, a := before[..n], after[..n];
      assert forall y :: 0 <= y < n ==> b[y] == before[y] && a[y] == after[y];
      GridExcessShrinks(b, a, target, if strict < n then strict else -1);
      assert GridExcess(before, target) == GridExcess(b, target) + RowExcess(before[n], target);
      assert GridExcess(after, target) == GridExcess(a, target) + RowExcess(after[n], target);
    }
  }

  /**
   * One `fade_led(x, target, 1)` on the values `g` of the rows named `ids`: rows already within
   * 1 stay as they are, no row gets farther, and row x gets strictly nearer unless it was within 1.
   */
  lemma FadeStep(ids: seq<nat>, g: Grid, x: nat, target: Color)
    requires |g| == |ids| && Rows3(g) && x < |g| && |target| >= 3
    requires forall y :: 0 <= y < |ids| && ids[y] == ids[x] ==> g[y] == g[x]
    ensures var after := Overwrite(ids, g, ids[x], FadeRow(g[x], target, 1));
            && Rows3(after)
            && (forall y :: 0 <= y < |g| && Close(g[y], target) ==> after[y] == g[y])
            && (forall y :: 0 <= y < |g| ==> RowExcess(after[y], target) <= RowExcess(g[y], target))
            && (!Close(g[x], target) ==> RowExcess(after[x], target) < RowExcess(g[x], target))
  {
    var after := Overwrite(ids, g, ids[x], FadeRow(g[x], target, 1));
    forall y | 0 <= y < |g| && Close(g[y], target)
      ensures after[y] == g[y]
    {
      if ids[y] == ids[x] {
        assert FadeRow(g[x], target, 1) == g[x];
      }
    }
  }

  /** Once no test is false, every row found within 1 means every channel is within 1. */
  lemma AllClose(g: Grid, tests: seq<bool>, target: Color)
    requires |g| == |tests| && Rows3(g) && |target| >= 3 && false !in tests
    requires forall z :: 0 <= z < |g| && tests[z] ==> Close(g[z], target)
    ensures forall y, c :: 0 <= y < |g| && 0 <= c < 3 ==> Dist(g[y][c], target[c]) <= 1
  {
    forall y, c | 0 <= y < |g| && 0 <= c < 3
      ensures Dist(g[y][c], target[c]) <= 1
    {
      assert tests[y];
    }
  }

  /** Without a direction, the rows are sent in order. */
  lemma CommitInOrder(g: Grid)
    requires IsGrid(g)
    ensures Fits(g, Forward()) && LedStrip.Commit(g, None) == Some(Payload(g, Forward()))
  {
    OrderFits(g, Forward());
  }

  // ---------------------------------------------------------------------------
  // The module's globals
  // ---------------------------------------------------------------------------

  class RgbSupport {
    /** Every list the module can reach, by identity. */
    var store: seq<Color>
    /** The global `led`: row y is the list `store[led[y]]`. */
    var led: seq<nat>
    /** The frames written to the serial port. */
    var written: seq<seq<int>>
    /** The palette index `get_random_color` returned last. */
    var oldRandom: Option<nat>

    predicate Valid()
      reads this
    {
      && |store| > BlackList && Channels(store)
      && |led| == Rows && Names(led, store)
    }

    /** The values of the strip now. */
    function Values(): (g: Grid)
      requires Valid()
      reads this
      ensures IsGrid(g)
    {
      Lookup(store, led)
    }

    /** The values of the palette now. */
    function Palette(): (p: seq<Color>)
      requires Valid()
      reads this
      ensures |p| == |Colors| && IsGrid(p)
    {
      Lookup(store, PaletteLists)
    }

    function Out(): Port
      reads this
    {
      Port(true, written, [])
    }

    /** Importing the module: the palette, `black`, and seven black rows of their own; nothing written. */
    constructor()
      ensures Valid() && Values() == Dark() && Palette() == Colors && store[BlackList] == Black
      ensures Unshared(led) && forall y :: 0 <= y < Rows ==> led[y] > BlackList
      ensures written == [] && oldRandom == None
    {
      store := Colors + [Black] + Dark();
      led := seq(Rows, y => BlackList + 1 + y);
      written := [];
      oldRandom := None;
    }

    /**
     * `commit`: the values of the rows in the direction's order, framed and written; `ok` is
     * false where the source raises (an unknown direction, a value that is not a byte).
     */
    method Commit(direction: Option<string>) returns (ok: bool)
      requires Valid()
      modifies this
      ensures Valid() && store == old(store) && led == old(led) && oldRandom == old(oldRandom)
      ensures PushAll(old(Out()), [Values()], Swap(direction)) == (Out(), ok)
      ensures ok ==> LedStrip.Commit(Values(), Swap(direction)).Some?
                     && written == old(written) + [Frame(LedStrip.Commit(Values(), Swap(direction)).value)]
      ensures !ok ==> written == old(written)
    {
      LegacyOrdersAreSwapped(direction);
      var order := LegacyRowOrder(direction);
      if order.None? {
        return false;
      }
      OrderFits(Values(), order.value);
      var values := Payload(Values(), order.value);
      if !AllBytes(values) {
        return false;
      }
      written := written + [Frame(values)];
      ok := true;
    }

    /** `set_full_array`: the global becomes the caller's list itself (no copy), then it is committed. */
    method SetFullArray(values: seq<nat>, direction: Option<string>) returns (ok: bool)
      requires Valid() && |values| == Rows && Names(values, store)
      modifies this
      ensures Valid() && led == values && store == old(store) && oldRandom == old(oldRandom)
      ensures PushAll(old(Out()), [Lookup(store, values)], Swap(direction)) == (Out(), ok)
    {
      led := values;
      ok := Commit(direction);
    }

    /** A new list holding `values`. */
    method NewList(values: Color) returns (id: nat)
      requires Valid() && |values| == 3
      modifies this
      ensures Valid() && store == old(store) + [values] && id == |old(store)|
      ensures led == old(led) && written == old(written) && oldRandom == old(oldRandom)
    {
      id := |store|;
      store := store + [values];
    }

    /**
     * `copy.deepcopy` of a list of rows: a new list for every distinct row list, the same new
     * list wherever the original names one list twice (the copy's memo), the values kept.
     */
    method DeepCopy(ids: seq<nat>) returns (copy: seq<nat>)
      requires Valid() && Names(ids, store)
      modifies this
      ensures Valid() && led == old(led) && written == old(written) && oldRandom == old(oldRandom)
      ensures |store| >= |old(store)| && store[..|old(store)|] == old(store)
      ensures Names(copy, store) && Lookup(store, copy) == Lookup(old(store), ids)
      ensures SameSharing(copy, ids)
      ensures forall y :: 0 <= y < |copy| ==> copy[y] >= |old(store)|
    {
      copy := [];
      for k := 0 to |ids|
        invariant Valid() && led == old(led) && written == old(written) && oldRandom == old(oldRandom)
        invariant |store| >= |old(store)| && store[..|old(store)|] == old(store)
        invariant |copy| == k && Names(copy, store)
        invariant forall y :: 0 <= y < k ==> copy[y] >= |old(store)| && store[copy[y]] == old(store)[ids[y]]
        invariant forall i, j :: 0 <= i < k && 0 <= j < k ==> (copy[i] == copy[j] <==> ids[i] == ids[j])
      {
        var j := 0;
        while j < k && ids[j] != ids[k]
          invariant 0 <= j <= k && forall m :: 0 <= m < j ==> ids[m] != ids[k]
        {
          j := j + 1;
        }
        if j < k {
          copy := copy + [copy[j]];
        } else {
          assert store[ids[k]] == old(store)[ids[k]];
          var id := NewList(store[ids[k]]);
          copy := copy + [id];
        }
      }
    }

    /** `get_random_color`: the palette list itself (not a copy) of the first draw that is not the previous one. */
    method GetRandomColor(draws: seq<nat>) returns (color: nat)
      requires Valid() && forall k :: 0 <= k < |draws| ==> draws[k] < |Colors|
      requires FirstFresh(draws, oldRandom).Some?
      modifies this
      ensures Valid() && store == old(store) && led == old(led) && written == old(written)
      ensures color == FirstFresh(draws, old(oldRandom)).value.0 && color < |PaletteLists| && PaletteLists[color] == color
      ensures oldRandom == Some(color)
    {
      var i := 0;
      while Some(draws[i]) == oldRandom
        invariant 0 <= i < FirstFresh(draws, oldRandom).value.1
        invariant forall k :: 0 <= k < i ==> Some(draws[k]) == oldRandom
        decreases |draws| - i
      {
        i := i + 1;
      }
      color := draws[i];
      oldRandom := Some(color);
    }

    /**
     * `set_led` as written: the colour's channels are copied into the list of row x, in place,
     * so every row that is that same list, and a palette colour that is that list, changes with
     * it. A colour of fewer than three channels raises after copying those it has. Committed
     * only when `send` is true.
     */
    method SetLed(x: int, i: Color, send: bool, direction: Option<string>) returns (ok: bool)
      requires Valid()
      modifies this
      ensures Valid() && led == old(led) && oldRandom == old(oldRandom) && |store| == |old(store)|
      ensures PyIndex(x, Rows).None? ==> !ok && store == old(store) && Out() == old(Out())
      ensures PyIndex(x, Rows).Some? ==>
                var target := led[PyIndex(x, Rows).value];
                var k := if |i| < 3 then |i| else 3;
                var row := Prefix(i, old(store[target]), k);
                && store == old(store)[target := row]
                && Values() == Overwrite(led, old(Values()), target, row)
                && Palette() == Overwrite(PaletteLists, old(Palette()), target, row)
                && (k < 3 || !send ==> ok == (k == 3) && Out() == old(Out()))
                && (k == 3 && send ==> PushAll(old(Out()), [Values()], Swap(direction)) == (Out(), ok))
    {
      var index := PyIndex(x, Rows);
      if index.None? {
        return false;
      }
      var target := led[index.value];
      ghost var before := store;
      ghost var row := Prefix(i, before[target], if |i| < 3 then |i| else 3);
      if |i| >= 1 {
        store := store[target := store[target][0 := i[0]]];
        if |i| >= 2 {
          store := store[target := store[target][1 := i[1]]];
          if |i| >= 3 {
            store := store[target := store[target][2 := i[2]]];
          }
        }
      }
      assert store[target] == row;
      assert store == before[target := row];
      LookupUpdate(before, led, target, row);
      LookupUpdate(before, PaletteLists, target, row);
      if |i| < 3 {
        return false;
      }
      ok := true;
      if send {
        ok := Commit(direction);
      }
    }

    /** `set_led` as evidently intended: row x gets a new list of its own; no other row or colour changes. */
    method SetLedFixed(x: int, i: Color, send: bool, direction: Option<string>) returns (ok: bool)
      requires Valid()
      modifies this
      ensures Valid() && oldRandom == old(oldRandom) && Palette() == old(Palette())
      ensures PyIndex(x, Rows).None? || |i| < 3 ==> !ok && store == old(store) && led == old(led) && Out() == old(Out())
      ensures PyIndex(x, Rows).Some? && |i| >= 3 ==>
                var index := PyIndex(x, Rows).value;
                && led == old(led)[index := |old(store)|]
                && Values() == old(Values())[index := i[..3]]
                && (send ==> PushAll(old(Out()), [Values()], Swap(direction)) == (Out(), ok))
                && (!send ==> ok && Out() == old(Out()))
    {
      var index := PyIndex(x, Rows);
      if index.None? || |i| < 3 {
        return false;
      }
      var row := NewList(i[..3]);
      led := led[index.value := row];
      ok := true;
      if send {
        ok := Commit(direction);
      }
    }

    /**
     * `set_all`: every row's list gets the colour's channels in place (a falsy colour, None or
     * empty, is replaced by a random palette colour), then the strip is committed as "right".
     * Writing a palette colour into a list that is that colour changes nothing, so the
     * colour's values stay what they were before the first write. A colour of one or two
     * channels raises in row 0 after copying those it has.
     */
    method SetAll(color: Option<Color>, draws: seq<nat>) returns (ok: bool)
      requires Valid()
      requires forall k :: 0 <= k < |draws| ==> draws[k] < |Colors|
      requires color.None? || color.value == [] ==> FirstFresh(draws, oldRandom).Some?
      modifies this
      ensures Valid() && led == old(led) && |store| == |old(store)|
      ensures var given := color.Some? && color.value != [];
              var chosen := if given then color.value else old(store)[FirstFresh(draws, old(oldRandom)).value.0];
              && oldRandom == (if given then old(oldRandom) else Some(FirstFresh(draws, old(oldRandom)).value.0))
              && (|chosen| < 3 ==> !ok && Out() == old(Out())
                                   && store == old(store)[led[0] := Prefix(chosen, old(store)[led[0]], |chosen|)])
              && (|chosen| >= 3 ==>
                    && (forall k :: 0 <= k < |store| ==> store[k] == if k in led then chosen[..3] else old(store)[k])
                    && Values() == seq(Rows, _ => chosen[..3])
                    && (forall c :: 0 <= c < |Colors| ==> Palette()[c] == if c in led then chosen[..3] else old(Palette())[c])
                    && PushAll(old(Out()), [Values()], None) == (Out(), ok))
    {
      var source: Color;
      if color.Some? && color.value != [] {
        source := color.value;
      } else {
        var picked := GetRandomColor(draws);
        source := store[picked];
      }
      ok := SetAllTo(source);
    }

    /** `set_all` once its colour is known: the loop over the rows, then `commit()`. */
    method SetAllTo(source: Color) returns (ok: bool)
      requires Valid()
      modifies this
      ensures Valid() && led == old(led) && oldRandom == old(oldRandom) && |store| == |old(store)|
      ensures |source| < 3 ==> !ok && Out() == old(Out())
                               && store == old(store)[led[0] := Prefix(source, old(store)[led[0]], |source|)]
      ensures |source| >= 3 ==>
                && (forall k :: 0 <= k < |store| ==> store[k] == if k in led then source[..3] else old(store)[k])
                && Values() == seq(Rows, _ => source[..3])
                && (forall c :: 0 <= c < |Colors| ==> Palette()[c] == if c in led then source[..3] else old(Palette())[c])
                && PushAll(old(Out()), [Values()], None) == (Out(), ok)
    {
      if |source| < 3 {
        var row := store[led[0]];
        store := store[led[0] := source + row[|source|..]];
        assert store[led[0]] == Prefix(source, row, |source|);
        return false;
      }
      PaintRows(source);
      ok := Commit(None);
    }

    /** The loop of `set_all`: the first three channels of `source` into every row's list. */
    method PaintRows(source: Color)
      requires Valid() && |source| >= 3
      modifies this
      ensures Valid() && led == old(led) && written == old(written) && oldRandom == old(oldRandom)
      ensures |store| == |old(store)|
      ensures forall k :: 0 <= k < |store| ==> store[k] == if k in led then source[..3] else old(store)[k]
      ensures Values() == seq(Rows, _ => source[..3])
      ensures forall c :: 0 <= c < |Colors| ==> Palette()[c] == if c in led then source[..3] else old(Palette())[c]
    {
      ghost var start := store;
      var chosen := source[..3];
      for x := 0 to Rows
        invariant Valid() && led == old(led) && written == old(written) && oldRandom == old(oldRandom)
        invariant |store| == |start|
        invariant forall k :: 0 <= k < |store| ==> store[k] == if k in led[..x] then chosen else start[k]
      {
        var target := led[x];
        store := store[target := store[target][0 := source[0]]];
        store := store[target := store[target][1 := source[1]]];
        store := store[target := store[target][2 := source[2]]];
        assert store[target] == chosen;
        assert led[..x + 1] == led[..x] + [target];
      }
      assert led[..Rows] == led;
      assert Values() == seq(Rows, _ => chosen);
    }

    /**
     * `fade_led(i, new_value, speed)`: each channel of row i's list farther than `speed` from
     * the target moves `speed` toward it. The result is true iff no channel moved; None is the
     * IndexError of an index outside the strip.
     */
    method FadeLed(i: int, newValue: Color, speed: int) returns (done: Option<bool>)
      requires Valid() && |newValue| >= 3
      modifies this
      ensures Valid() && led == old(led) && written == old(written) && oldRandom == old(oldRandom)
      ensures PyIndex(i, Rows).None? ==> done.None? && store == old(store)
      ensures PyIndex(i, Rows).Some? ==>
                var target := led[PyIndex(i, Rows).value];
                var row := FadeRow(old(store[target]), newValue, speed);
                && done == Some(forall c :: 0 <= c < 3 ==> Dist(old(store[target])[c], newValue[c]) <= speed)
                && store == old(store)[target := row]
                && Values() == Overwrite(led, old(Values()), target, row)
    {
      var index := PyIndex(i, Rows);
      if index.None? {
        return None;
      }
      var target := led[index.value];
      ghost var before := store;
      var tests := [false, false, false];
      var row := store[target];
      for x := 0 to 3
        invariant Valid() && led == old(led) && written == old(written) && oldRandom == old(oldRandom)
        invariant |tests| == 3 && |row| == 3 && store == before[target := row]
        invariant forall c :: 0 <= c < x ==> row[c] == FadeChannel(before[target][c], newValue[c], speed)
        invariant forall c :: x <= c < 3 ==> row[c] == before[target][c]
        invariant forall c :: 0 <= c < x ==> tests[c] == (Dist(before[target][c], newValue[c]) <= speed)
        invariant forall c :: x <= c < 3 ==> !tests[c]
      {
        if Dist(row[x], newValue[x]) > speed {
          if row[x] < newValue[x] {
            row := row[x := row[x] + speed];
          } else {
            row := row[x := row[x] - speed];
          }
          store := store[target := row];
        } else {
          tests := tests[x := true];
        }
      }
      assert row == FadeRow(before[target], newValue, speed);
      LookupUpdate(before, led, target, row);
      done := Some(!(false in tests));
    }

    /**
     * `slow_fade_all`: passes of `fade_led(x, color, 1)` over the seven rows, each followed by a
     * commit, until a pass moves nothing; afterwards every channel is within 1 of the target.
     * A falsy colour is replaced by a random palette colour. The target's values never change
     * while fading, even when the target list is one of the rows: that row is already on it.
     */
    method SlowFadeAll(color: Option<Color>, draws: seq<nat>) returns (ok: bool)
      requires Valid()
      requires color.Some? && color.value != [] ==> |color.value| >= 3
      requires forall k :: 0 <= k < |draws| ==> draws[k] < |Colors|
      requires color.None? || color.value == [] ==> FirstFresh(draws, oldRandom).Some?
      modifies this
      ensures Valid() && led == old(led)
      ensures var target := if color.Some? && color.value != [] then color.value
                            else old(Palette())[FirstFresh(draws, old(oldRandom)).value.0];
              ok ==> forall y, c :: 0 <= y < Rows && 0 <= c < 3 ==> Dist(Values()[y][c], target[c]) <= 1
      ensures ok ==> && |written| > |old(written)| && written[..|old(written)|] == old(written)
                     && written[|written| - 1] == Frame(Payload(Values(), Forward()))
    {
      var target: Color;
      if color.Some? && color.value != [] {
        target := color.value;
      } else {
        var picked := GetRandomColor(draws);
        target := store[picked];
      }
      ok := FadeAllTo(target);
    }

    /** The loop of `slow_fade_all` once its target is known. */
    method FadeAllTo(target: Color) returns (ok: bool)
      requires Valid() && |target| >= 3
      modifies this
      ensures Valid() && led == old(led)
      ensures ok ==> forall y, c :: 0 <= y < Rows && 0 <= c < 3 ==> Dist(Values()[y][c], target[c]) <= 1
      ensures ok ==> && |written| > |old(written)| && written[..|old(written)|] == old(written)
                     && written[|written| - 1] == Frame(Payload(Values(), Forward()))
    {
      var tests := seq(Rows, _ => false);
      assert tests[0] == false;
      ok := true;
      while false in tests
        invariant led == old(led) && Fading(target, tests, old(written))
        decreases GridExcess(Values(), target) + (if false in tests then 1 else 0)
      {
        tests, ok := FadeRound(target, tests, old(written));
        if !ok {
          return;
        }
      }
      AllClose(Values(), tests, target);
    }

    /**
     * The state of `slow_fade_all`'s loop: the frames written before it are kept, each row whose
     * test is true is within 1, and once no test is false the last frame shows the strip.
     */
    ghost predicate Fading(target: Color, tests: seq<bool>, w0: seq<seq<int>>)
      reads this
    {
      && Valid() && |target| >= 3 && |tests| == Rows
      && |written| >= |w0| && written[..|w0|] == w0
      && (forall z :: 0 <= z < Rows && tests[z] ==> Close(Values()[z], target))
      && (false !in tests ==> |written| > |w0| && written[|written| - 1] == Frame(Payload(Values(), Forward())))
    }

    /** One round of `slow_fade_all`'s loop: a pass of `fade_led` over the rows, then `commit()`. */
    method FadeRound(target: Color, tests: seq<bool>, ghost w0: seq<seq<int>>) returns (next: seq<bool>, ok: bool)
      requires Fading(target, tests, w0)
      modifies this
      ensures Valid() && led == old(led) && |next| == Rows
      ensures GridExcess(Values(), target) <= old(GridExcess(Values(), target))
      ensures false in next ==> GridExcess(Values(), target) < old(GridExcess(Values(), target))
      ensures ok ==> Fading(target, next, w0)
    {
      next := FadePass(target, tests);
      CommitInOrder(Values());
      ok := Commit(None);
    }

    /**
     * One pass of `slow_fade_all`'s loop body: `tests[x] = fade_led(x, color, 1)` for the seven
     * rows. Rows found within 1 are within 1 at the end of the pass, the remaining distance
     * never grows, and it shrinks whenever a row was not yet within 1.
     */
    method FadePass(target: Color, tests: seq<bool>) returns (next: seq<bool>)
      requires Valid() && |target| >= 3 && |tests| == Rows
      modifies this
      ensures Valid() && led == old(led) && written == old(written) && |next| == Rows
      ensures forall z :: 0 <= z < Rows && next[z] ==> Close(Values()[z], target)
      ensures GridExcess(Values(), target) <= old(GridExcess(Values(), target))
      ensures false in next ==> GridExcess(Values(), target) < old(GridExcess(Values(), target))
    {
      ghost var start := GridExcess(Values(), target);
      ghost var moved := false;
      next := tests;
      for x := 0 to Rows
        invariant Valid() && led == old(led) && written == old(written) && |next| == Rows
        invariant forall z :: 0 <= z < x && next[z] ==> Close(Values()[z], target)
        invariant GridExcess(Values(), target) <= start
        invariant moved ==> GridExcess(Values(), target) < start
        invariant !moved ==> forall z :: 0 <= z < x ==> next[z]
      {
        var done := FadeRowAt(x, target);
        next := next[x := done];
        moved := moved || !done;
      }
    }

    /** `fade_led(x, color, 1)` for one row x of the pass: the row is then within 1 if the result says so. */
    method FadeRowAt(x: nat, target: Color) returns (done: bool)
      requires Valid() && |target| >= 3 && x < Rows
      modifies this
      ensures Valid() && led == old(led) && written == old(written)
      ensures forall z :: 0 <= z < Rows && Close(old(Values())[z], target) ==> Values()[z] == old(Values())[z]
      ensures done ==> Close(Values()[x], target)
      ensures GridExcess(Values(), target) <= old(GridExcess(Values(), target))
      ensures !done ==> GridExcess(Values(), target) < old(GridExcess(Values(), target))
    {
      ghost var g := Values();
      FadeStep(led, g, x, target);
      var result := FadeLed(x, target, 1);
      GridExcessShrinks(g, Values(), target, if result.value then -1 else x);
      done := result.value;
    }
  }
}
