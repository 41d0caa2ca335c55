/**
 * The older controller's patterns (controller/serial_controller/rgb_patterns.py) over the
 * lists of `LegacySupport`: `diff_set_array` passes over a deep copy of the strip in place,
 * `rb` interpolates the palette round by round, `cop` alternates two arrangements built from
 * the palette lists themselves, and `bounce`, `wave` and `fall` size themselves by direction.
 * The delays and the printing are left out; the random direction is a parameter.
 */
module LegacyPatterns {
  import opened Wrappers
  import opened Leds
  import opened LedStrip
  import opened Patterns
  import opened LegacySupport

  // ---------------------------------------------------------------------------
  // Passes over lists in place
  // ---------------------------------------------------------------------------

  /**
   * One pass of `diff_set_array` over the lists `ids`, row by row: row x's list moves toward
   * `goal[x]`. When two rows name one list, the later row moves it again from where the earlier
   * one left it.
   */
  function PassStore(store: seq<Color>, ids: seq<nat>, goal: Grid, step: nat, n: nat): (r: seq<Color>)
    requires Channels(store) && Names(ids, store) && |ids| == Rows && IsGrid(goal) && step >= 1 && n <= Rows
    ensures |r| == |store| && Channels(r)
    decreases n, |store|
  {
    if n == 0 then store
    else
      var s := PassStore(store, ids, goal, step, n - 1);
      s[ids[n - 1] := PassRow(s[ids[n - 1]], goal[n - 1], step)]
  }

  /** The strips the passes step, step - 1, ..., 1 show through `ids`. */
  function StoreFrames(store: seq<Color>, ids: seq<nat>, goal: Grid, step: nat): (r: seq<Grid>)
    requires Channels(store) && Names(ids, store) && |ids| == Rows && IsGrid(goal)
    ensures |r| == step
    decreases step, |store|
  {
    if step == 0 then []
    else
      var s := PassStore(store, ids, goal, step, Rows);
      [Lookup(s, ids)] + StoreFrames(s, ids, goal, step - 1)
  }

  /** The lists after the passes step, step - 1, ..., 1. */
  function StoreAfter(store: seq<Color>, ids: seq<nat>, goal: Grid, step: nat): (r: seq<Color>)
    requires Channels(store) && Names(ids, store) && |ids| == Rows && IsGrid(goal)
    ensures |r| == |store| && Channels(r)
    decreases step, |store|
  {
    if step == 0 then store else StoreAfter(PassStore(store, ids, goal, step, Rows), ids, goal, step - 1)
  }

  /** The strip shown last is what the rows' lists hold after the passes. */
  lemma {:induction false} StoreAfterShown(store: seq<Color>, ids: seq<nat>, goal: Grid, step: nat)
    requires Channels(store) && Names(ids, store) && |ids| == Rows && IsGrid(goal) && step >= 1
    ensures StoreFrames(store, ids, goal, step)[step - 1] == Lookup(StoreAfter(store, ids, goal, step), ids)
    decreases step
  {
    var s := PassStore(store, ids, goal, step, Rows);
    if step > 1 {
      StoreAfterShown(s, ids, goal, step - 1);
    }
  }

  /** A pass writes only the lists the rows name. */
  lemma {:induction false} PassStoreKeeps(store: seq<Color>, ids: seq<nat>, goal: Grid, step: nat, n: nat)
    requires Channels(store) && Names(ids, store) && |ids| == Rows && IsGrid(goal) && step >= 1 && n <= Rows
    ensures forall k :: 0 <= k < |store| && k !in ids ==> PassStore(store, ids, goal, step, n)[k] == store[k]
    decreases n
  {
    if n > 0 {
      PassStoreKeeps(store, ids, goal, step, n - 1);
    }
  }

  /** A pass over lists that all come after the first m leaves those m as they were. */
  lemma PassStoreKeepsPrefix(store: seq<Color>, ids: seq<nat>, goal: Grid, step: nat, m: nat)
    requires Channels(store) && Names(ids, store) && |ids| == Rows && IsGrid(goal) && step >= 1
    requires m <= |store| && forall y :: 0 <= y < Rows ==> ids[y] >= m
    ensures PassStore(store, ids, goal, step, Rows)[..m] == store[..m]
  {
    PassStoreKeeps(store, ids, goal, step, Rows);
  }

  /** With a list of its own per row, the first n rows are passed once each and the rest are untouched. */
  lemma {:induction false} PassStoreUnsharedAt(store: seq<Color>, ids: seq<nat>, goal: Grid, step: nat, n: nat)
    requires Channels(store) && Names(ids, store) && |ids| == Rows && IsGrid(goal) && step >= 1 && n <= Rows
    requires Unshared(ids)
    ensures forall y :: 0 <= y < Rows ==>
              PassStore(store, ids, goal, step, n)[ids[y]]
              == if y < n then PassRow(store[ids[y]], goal[y], step) else store[ids[y]]
    decreases n
  {
    if n > 0 {
      PassStoreUnsharedAt(store, ids, goal, step, n - 1);
      forall y | 0 <= y < Rows && y != n - 1 ensures ids[y] != ids[n - 1] {
        if y < n - 1 {
          assert !SameList(ids, y, n - 1);
        } else {
          assert !SameList(ids, n - 1, y);
        }
      }
    }
  }

  /** With a list of its own per row, a pass in place shows the pass over the values. */
  lemma PassStoreUnshared(store: seq<Color>, ids: seq<nat>, goal: Grid, step: nat)
    requires Channels(store) && Names(ids, store) && |ids| == Rows && IsGrid(goal) && step >= 1
    requires Unshared(ids)
    ensures Lookup(PassStore(store, ids, goal, step, Rows), ids) == Pass(Lookup(store, ids), goal, step)
  {
    PassStoreUnsharedAt(store, ids, goal, step, Rows);
    PassAt(Lookup(store, ids), goal, step);
  }

  /** With a list of its own per row, the strips shown are the interpolation of the values. */
  lemma {:induction false} StoreFramesUnshared(store: seq<Color>, ids: seq<nat>, goal: Grid, step: nat)
    requires Channels(store) && Names(ids, store) && |ids| == Rows && IsGrid(goal)
    requires Unshared(ids)
    ensures StoreFrames(store, ids, goal, step) == PassFrames(Lookup(store, ids), goal, step)
    decreases step
  {
    if step > 0 {
      var s := PassStore(store, ids, goal, step, Rows);
      PassStoreUnshared(store, ids, goal, step);
      StoreFramesUnshared(s, ids, goal, step - 1);
    }
  }

  /** Overwriting a list reads alike through two namings that share at the same places. */
  lemma OverwriteRenaming(a: seq<nat>, b: seq<nat>, g: Grid, x: nat, value: Color)
    requires SameSharing(a, b) && |g| == |a| && x < |a|
    ensures Overwrite(a, g, a[x], value) == Overwrite(b, g, b[x], value)
  {
    forall y | 0 <= y < |a| ensures (a[y] == a[x]) == (b[y] == b[x]) {
      assert SameList(a, y, x) <==> SameList(b, y, x);
    }
  }

  /** A pass depends only on the values the rows show and on which rows share a list. */
  lemma {:induction false} PassStoreRenaming(s1: seq<Color>, a: seq<nat>, s2: seq<Color>, b: seq<nat>,
                                             goal: Grid, step: nat, n: nat)
    requires Channels(s1) && Names(a, s1) && |a| == Rows && Channels(s2) && Names(b, s2) && |b| == Rows
    requires IsGrid(goal) && step >= 1 && n <= Rows
    requires SameSharing(a, b) && Lookup(s1, a) == Lookup(s2, b)
    ensures Lookup(PassStore(s1, a, goal, step, n), a) == Lookup(PassStore(s2, b, goal, step, n), b)
    decreases n
  {
    if n > 0 {
      var x := n - 1;
      var t1 := PassStore(s1, a, goal, step, x);
      var t2 := PassStore(s2, b, goal, step, x);
      PassStoreRenaming(s1, a, s2, b, goal, step, x);
      assert t1[a[x]] == Lookup(t1, a)[x] == Lookup(t2, b)[x] == t2[b[x]];
      var row := PassRow(t1[a[x]], goal[x], step);
      LookupUpdate(t1, a, a[x], row);
      LookupUpdate(t2, b, b[x], row);
      OverwriteRenaming(a, b, Lookup(t1, a), x, row);
    }
  }

  /** So do all the strips a series of passes shows. */
  lemma {:induction false} StoreFramesRenaming(s1: seq<Color>, a: seq<nat>, s2: seq<Color>, b: seq<nat>,
                                               goal: Grid, step: nat)
    requires Channels(s1) && Names(a, s1) && |a| == Rows && Channels(s2) && Names(b, s2) && |b| == Rows
    requires IsGrid(goal) && SameSharing(a, b) && Lookup(s1, a) == Lookup(s2, b)
    ensures StoreFrames(s1, a, goal, step) == StoreFrames(s2, b, goal, step)
    decreases step
  {
    if step > 0 {
      PassStoreRenaming(s1, a, s2, b, goal, step, Rows);
      StoreFramesRenaming(PassStore(s1, a, goal, step, Rows), a, PassStore(s2, b, goal, step, Rows), b, goal, step - 1);
    }
  }

  /** With a list of its own per row, the last strip `diff_set_array` shows is the goal. */
  lemma StoreFramesEndOnGoal(store: seq<Color>, ids: seq<nat>, goal: Grid)
    requires Channels(store) && Names(ids, store) && |ids| == Rows && IsGrid(goal) && Unshared(ids)
    ensures StoreFrames(store, ids, goal, Steps)[Steps - 1] == goal
  {
    StoreFramesUnshared(store, ids, goal, Steps);
    PassFramesEndOnGoal(Lookup(store, ids), goal, Steps);
  }

  // ---------------------------------------------------------------------------
  // diff_set_array
  // ---------------------------------------------------------------------------

  /** The inner loop of one pass for one row: its list's three channels, in place. */
  method PassList(support: RgbSupport, t: nat, target: Color, step: nat)
    requires support.Valid() && t < |support.store| && |target| == 3 && step >= 1
    modifies support
    ensures support.Valid() && support.led == old(support.led) && support.written == old(support.written)
    ensures support.oldRandom == old(support.oldRandom)
    ensures support.store == old(support.store)[t := PassRow(old(support.store[t]), target, step)]
  {
    ghost var before := support.store;
    for i := 0 to 3
      invariant support.led == old(support.led) && support.written == old(support.written)
      invariant support.oldRandom == old(support.oldRandom)
      invariant |support.store| == |before| && |support.store[t]| == 3
      invariant forall k :: 0 <= k < |before| && k != t ==> support.store[k] == before[k]
      invariant forall c :: 0 <= c < i ==> support.store[t][c] == ChannelStep(before[t][c], target[c], step)
      invariant forall c :: i <= c < 3 ==> support.store[t][c] == before[t][c]
    {
      support.store := support.store[t := support.store[t][i := ChannelStep(support.store[t][i], target[i], step)]];
    }
    assert support.store[t] == PassRow(before[t], target, step);
    assert support.store == before[t := PassRow(before[t], target, step)];
  }

  /** The two inner loops of `diff_set_array`: one pass over the rows' lists, in place. */
  method PassLists(support: RgbSupport, ids: seq<nat>, goal: Grid, step: nat)
    requires support.Valid() && Names(ids, support.store) && |ids| == Rows && IsGrid(goal) && step >= 1
    modifies support
    ensures support.Valid() && support.led == old(support.led) && support.written == old(support.written)
    ensures support.oldRandom == old(support.oldRandom)
    ensures support.store == PassStore(old(support.store), ids, goal, step, Rows)
  {
    for x := 0 to Rows
      invariant support.Valid() && support.led == old(support.led) && support.written == old(support.written)
      invariant support.oldRandom == old(support.oldRandom)
      invariant support.store == PassStore(old(support.store), ids, goal, step, x)
    {
      PassList(support, ids[x], goal[x], step);
    }
  }

  /** One round of `diff_set_array`'s loop: a pass, then `set_full_array(helper, direction)`. */
  method PassAndShow(support: RgbSupport, helper: seq<nat>, goal: Grid, step: nat, direction: Option<string>,
                     ghost m: nat)
    returns (ok: bool)
    requires support.Valid() && Names(helper, support.store) && |helper| == Rows && IsGrid(goal) && step >= 1
    requires m <= |support.store| && forall y :: 0 <= y < Rows ==> helper[y] >= m
    modifies support
    ensures support.Valid() && support.led == helper && support.oldRandom == old(support.oldRandom)
    ensures |support.store| == |old(support.store)| && support.store[..m] == old(support.store)[..m]
    ensures StoreAfter(old(support.store), helper, goal, step) == StoreAfter(support.store, helper, goal, step - 1)
    ensures var rest := StoreFrames(support.store, helper, goal, step - 1);
            var pushed := PushAll(old(support.Out()), StoreFrames(old(support.store), helper, goal, step), Swap(direction));
            if ok then pushed == PushAll(support.Out(), rest, Swap(direction)) else pushed == (support.Out(), false)
  {
    ghost var port := support.Out();
    PassStoreKeepsPrefix(support.store, helper, goal, step, m);
    PassLists(support, helper, goal, step);
    ok := support.SetFullArray(helper, direction);
    PushAllAppend(port, [support.Values()], StoreFrames(support.store, helper, goal, step - 1), Swap(direction));
  }

  /**
   * `diff_set_array(now, goal, direction)`: deep copies of both, then 50 passes over the copy
   * of `now` in place, each shown with `set_full_array`, so the strip ends as that copy. The
   * result is the copy's row lists. No list that existed before is written. `ok` is false where
   * a commit raises.
   */
  method DiffSetArray(support: RgbSupport, now: seq<nat>, goal: seq<nat>, direction: Option<string>)
    returns (result: seq<nat>, ok: bool)
    requires support.Valid() && |now| == Rows && |goal| == Rows
    requires Names(now, support.store) && Names(goal, support.store)
    modifies support
    ensures support.Valid() && support.oldRandom == old(support.oldRandom)
    ensures |support.store| >= |old(support.store)| && support.store[..|old(support.store)|] == old(support.store)
    ensures PushAll(old(support.Out()), StoreFrames(old(support.store), now, Lookup(old(support.store), goal), Steps),
                    Swap(direction))
            == (support.Out(), ok)
    ensures ok ==> && result == support.led && SameSharing(result, now)
                   && (forall y :: 0 <= y < Rows ==> result[y] >= |old(support.store)|)
                   && support.Values() == StoreFrames(old(support.store), now, Lookup(old(support.store), goal), Steps)[Steps - 1]
    ensures ok && Unshared(now) ==> support.Values() == Lookup(old(support.store), goal)
  {
    ghost var start := support.store;
    var helper := support.DeepCopy(now);
    ghost var mid := support.store;
    LookupGrown(start, mid, goal);
    var goalCopy := support.DeepCopy(goal);
    LookupGrown(mid, support.store, helper);
    var goalValues := Lookup(support.store, goalCopy);
    assert IsGrid(goalValues);
    StoreFramesRenaming(start, now, support.store, helper, goalValues, Steps);
    ok := DiffPasses(support, helper, goalValues, direction, |start|);
    result := helper;
    if ok && Unshared(now) {
      StoreFramesEndOnGoal(start, now, goalValues);
    }
  }

  /**
   * `diff_set_array`'s loop part way, at `step`: the passes still to come end on the same lists,
   * and push the rest of the frames the whole loop pushes; no list below `m` was written.
   */
  ghost predicate Diffing(store0: seq<Color>, out0: Port, store: seq<Color>, out: Port,
                          helper: seq<nat>, goal: Grid, direction: Option<string>, m: nat, step: nat)
  {
    && step <= Steps && |helper| == Rows && IsGrid(goal)
    && Channels(store0) && Names(helper, store0) && Channels(store) && Names(helper, store)
    && m <= |store0| && |store| == |store0| && store[..m] == store0[..m]
    && StoreAfter(store0, helper, goal, Steps) == StoreAfter(store, helper, goal, step)
    && PushAll(out0, StoreFrames(store0, helper, goal, Steps), Swap(direction))
       == PushAll(out, StoreFrames(store, helper, goal, step), Swap(direction))
  }

  /** One round of the loop, as `PassAndShow` states it, advances `Diffing`, or ends the loop's pushes. */
  lemma DiffingStep(store0: seq<Color>, out0: Port, s: seq<Color>, out: Port, s': seq<Color>, out': Port,
                    helper: seq<nat>, goal: Grid, direction: Option<string>, m: nat, step: nat, ok: bool)
    requires Diffing(store0, out0, s, out, helper, goal, direction, m, step) && step >= 1
    requires Channels(s') && Names(helper, s') && |s'| == |s| && s'[..m] == s[..m]
    requires StoreAfter(s, helper, goal, step) == StoreAfter(s', helper, goal, step - 1)
    requires var pushed := PushAll(out, StoreFrames(s, helper, goal, step), Swap(direction));
             if ok then pushed == PushAll(out', StoreFrames(s', helper, goal, step - 1), Swap(direction))
             else pushed == (out', false)
    ensures ok ==> Diffing(store0, out0, s', out', helper, goal, direction, m, step - 1)
    ensures !ok ==> PushAll(out0, StoreFrames(store0, helper, goal, Steps), Swap(direction)) == (out', false)
                    && |s'| == |store0| && s'[..m] == store0[..m]
  {
  }

  /** One round of `diff_set_array`'s loop, advancing `Diffing` by one step or ending the pushes. */
  method DiffRound(support: RgbSupport, helper: seq<nat>, goal: Grid, step: nat, direction: Option<string>,
                   ghost m: nat, ghost store0: seq<Color>, ghost out0: Port)
    returns (ok: bool, next: nat)
    requires support.Valid() && step >= 1
    requires Diffing(store0, out0, support.store, support.Out(), helper, goal, direction, m, step)
    requires forall y :: 0 <= y < Rows ==> helper[y] >= m
    modifies support
    ensures support.Valid() && support.oldRandom == old(support.oldRandom) && support.led == helper
    ensures next == step - 1
    ensures ok ==> Diffing(store0, out0, support.store, support.Out(), helper, goal, direction, m, next)
    ensures !ok ==> PushAll(out0, StoreFrames(store0, helper, goal, Steps), Swap(direction)) == (support.Out(), false)
                    && |support.store| == |store0| && support.store[..m] == store0[..m]
  {
    next := step - 1;
    ghost var s := support.store;
    ghost var out := support.Out();
    ok := PassAndShow(support, helper, goal, step, direction, m);
    DiffingStep(store0, out0, s, out, support.store, support.Out(), helper, goal, direction, m, step, ok);
  }

  /** The loop of `diff_set_array`: 50 passes over the lists `helper`, each shown. */
  method DiffPasses(support: RgbSupport, helper: seq<nat>, goal: Grid, direction: Option<string>, ghost m: nat)
    returns (ok: bool)
    requires support.Valid() && Names(helper, support.store) && |helper| == Rows && IsGrid(goal)
    requires m <= |support.store| && forall y :: 0 <= y < Rows ==> helper[y] >= m
    modifies support
    ensures support.Valid() && support.oldRandom == old(support.oldRandom)
    ensures |support.store| == |old(support.store)| && support.store[..m] == old(support.store)[..m]
    ensures PushAll(old(support.Out()), StoreFrames(old(support.store), helper, goal, Steps), Swap(direction))
            == (support.Out(), ok)
    ensures ok ==> && support.led == helper && support.store == StoreAfter(old(support.store), helper, goal, Steps)
                   && support.Values() == StoreFrames(old(support.store), helper, goal, Steps)[Steps - 1]
  {
    ghost var store0 := support.store;
    ghost var out0 := support.Out();
    ok := true;
    var step: nat := Steps;
    while step > 0
      invariant support.Valid() && support.oldRandom == old(support.oldRandom)
      invariant Diffing(store0, out0, support.store, support.Out(), helper, goal, direction, m, step)
      invariant step < Steps ==> support.led == helper
    {
      ok, step := DiffRound(support, helper, goal, step, direction, m, store0, out0);
      if !ok {
        return;
      }
    }
    StoreAfterShown(store0, helper, goal, Steps);
  }

  // ---------------------------------------------------------------------------
  // Rotating and copying namings
  // ---------------------------------------------------------------------------

  /** Rotating the names rotates the values they show. */
  lemma LookupRotateOnce(store: seq<Color>, ids: seq<nat>)
    requires Names(ids, store)
    ensures Names(RotateOnce(ids), store) && Lookup(store, RotateOnce(ids)) == RotateOnce(Lookup(store, ids))
  {
    if ids != [] {
      assert RotateOnce(ids) == ids[1..] + [ids[0]];
    }
  }

  /** Rotating two namings alike keeps them sharing at the same places. */
  lemma SameSharingRotateOnce(a: seq<nat>, b: seq<nat>)
    requires SameSharing(a, b)
    ensures SameSharing(RotateOnce(a), RotateOnce(b))
  {
    if a != [] {
      var n := |a|;
      var ra, rb := RotateOnce(a), RotateOnce(b);
      forall i, j | 0 <= i < n && 0 <= j < n ensures SameList(ra, i, j) <==> SameList(rb, i, j) {
        var i', j' := if i < n - 1 then i + 1 else 0, if j < n - 1 then j + 1 else 0;
        assert ra[i] == a[i'] && rb[i] == b[i'] && ra[j] == a[j'] && rb[j] == b[j'];
        assert SameList(a, i', j') <==> SameList(b, i', j');
      }
    }
  }

  /** A naming that shares like one with a list per row has a list per row. */
  lemma UnsharedLike(a: seq<nat>, b: seq<nat>)
    requires SameSharing(a, b) && Unshared(b)
    ensures Unshared(a)
  {
    forall i, j | 0 <= i < j < |a| ensures a[i] != a[j] {
      assert SameList(a, i, j) <==> SameList(b, i, j);
    }
  }

  lemma SameSharingTrans(a: seq<nat>, b: seq<nat>, c: seq<nat>)
    requires SameSharing(a, b) && SameSharing(b, c)
    ensures SameSharing(a, c)
  {
  }

  /** One `cop` round moves both arrangements on by two rotations, the sharing with them. */
  lemma SharingAdvances(next: seq<nat>, led: seq<nat>, c: seq<nat>, k: nat, k2: nat)
    requires SameSharing(next, RotateOnce(RotateOnce(led))) && SameSharing(led, Rotations(c, k)) && k2 == k + 2
    ensures SameSharing(next, Rotations(c, k2))
  {
    SameSharingRotateOnce(led, Rotations(c, k));
    SameSharingRotateOnce(RotateOnce(led), RotateOnce(Rotations(c, k)));
    assert Rotations(c, k2) == RotateOnce(RotateOnce(Rotations(c, k)));
    SameSharingTrans(next, RotateOnce(RotateOnce(led)), Rotations(c, k2));
  }

  // ---------------------------------------------------------------------------
  // rb
  // ---------------------------------------------------------------------------

  /** `rb`'s direction: its own random pick when the given one is falsy. */
  function LegacyRainbowDirection(direction: Option<string>, pick: string): string {
    if Falsy(direction) then pick else direction.value
  }

  /**
   * One round of `rb`: `goal` is a deep copy of the strip's lists rotated left by one,
   * `diff_set_array` interpolates a fresh copy toward it, and `rb` keeps a deep copy of the
   * result. With a list of its own per row, the frames are the interpolation of the values.
   */
  method RbRound(support: RgbSupport, cur: seq<nat>, dir: Option<string>) returns (next: seq<nat>, ok: bool)
    requires support.Valid() && Names(cur, support.store) && |cur| == Rows && Unshared(cur)
    modifies support
    ensures support.Valid() && support.oldRandom == old(support.oldRandom)
    ensures |support.store| >= |old(support.store)| && support.store[..|old(support.store)|] == old(support.store)
    ensures var v := Lookup(old(support.store), cur);
            PushAll(old(support.Out()), PassFrames(v, RotateOnce(v), Steps), Swap(dir)) == (support.Out(), ok)
    ensures ok ==> var v := Lookup(old(support.store), cur);
                   && Names(next, support.store) && |next| == Rows && Unshared(next)
                   && Lookup(support.store, next) == RotateOnce(v) && support.Values() == RotateOnce(v)
                   && Unshared(support.led) && forall y :: 0 <= y < Rows ==> support.led[y] >= |old(support.store)|
  {
    ghost var start := support.store;
    ghost var v := Lookup(start, cur);
    var goal := RbGoal(support, cur);
    ghost var mid := support.store;
    LookupGrown(start, mid, cur);
    RotateOnceKeepsGrid(v);
    StoreFramesUnshared(mid, cur, RotateOnce(v), Steps);
    var result;
    result, ok := DiffSetArray(support, cur, goal, dir);
    next := cur;
    if ok {
      ghost var shown := support.store;
      UnsharedLike(result, cur);
      next := KeepCopy(support, result);
      assert support.store[..|start|] == shown[..|start|];
    }
  }

  /** A round of `rb` as the first of the n rounds still to come. */
  method RbStep(support: RgbSupport, cur: seq<nat>, dir: Option<string>, ghost n: nat, ghost start: seq<Color>,
                ghost pending: (Port, bool, Grid))
    returns (next: seq<nat>, ok: bool, ghost rest: nat)
    requires support.Valid() && Names(cur, support.store) && |cur| == Rows && Unshared(cur)
    requires Lookup(support.store, cur) == support.Values() && n >= 1
    requires |support.store| >= |start| && support.store[..|start|] == start
    requires pending == RainbowPush(support.Out(), support.Values(), n, Swap(dir))
    modifies support
    ensures support.Valid() && support.oldRandom == old(support.oldRandom)
    ensures |support.store| >= |start| && support.store[..|start|] == start
    ensures rest == n - 1
    ensures ok ==> pending == RainbowPush(support.Out(), support.Values(), rest, Swap(dir))
    ensures !ok ==> pending == (support.Out(), false, old(support.Values()))
    ensures ok ==> && Names(next, support.store) && |next| == Rows && Unshared(next)
                   && Lookup(support.store, next) == support.Values()
                   && Unshared(support.led) && forall y :: 0 <= y < Rows ==> support.led[y] >= |start|
  {
    ghost var port := support.Out();
    ghost var v := support.Values();
    ghost var before := support.store;
    next, ok := RbRound(support, cur, dir);
    rest := n - 1;
    assert support.store[..|start|] == before[..|start|];
    RainbowPending(pending, port, v, n, rest, Swap(dir), support.Out(), ok);
  }

  /** `goal = deepcopy(led)` rotated by `append(goal[0])` and `remove(goal[0])`. */
  method RbGoal(support: RgbSupport, cur: seq<nat>) returns (goal: seq<nat>)
    requires support.Valid() && Names(cur, support.store) && |cur| == Rows
    modifies support
    ensures support.Valid() && support.led == old(support.led) && support.written == old(support.written)
    ensures support.oldRandom == old(support.oldRandom)
    ensures |support.store| >= |old(support.store)| && support.store[..|old(support.store)|] == old(support.store)
    ensures Names(goal, support.store) && |goal| == Rows
    ensures Lookup(support.store, goal) == RotateOnce(Lookup(old(support.store), cur))
  {
    var copy := support.DeepCopy(cur);
    LookupRotateOnce(support.store, copy);
    goal := RotateOnce(copy);
  }

  /** `led = deepcopy(...)` of the strip's own lists: new lists, one per row, showing the same values. */
  method KeepCopy(support: RgbSupport, result: seq<nat>) returns (next: seq<nat>)
    requires support.Valid() && support.led == result && Unshared(result)
    modifies support
    ensures support.Valid() && support.led == old(support.led) && support.written == old(support.written)
    ensures support.oldRandom == old(support.oldRandom) && support.Values() == old(support.Values())
    ensures |support.store| >= |old(support.store)| && support.store[..|old(support.store)|] == old(support.store)
    ensures Names(next, support.store) && |next| == Rows && Unshared(next) && Lookup(support.store, next) == support.Values()
  {
    ghost var start := support.store;
    next := support.DeepCopy(result);
    LookupGrown(start, support.store, result);
    UnsharedLike(next, result);
  }

  /** The loop of `rb`, from the strip's own lists `cur`. */
  method RbRounds(support: RgbSupport, cur: seq<nat>, rounds: int, dir: Option<string>) returns (ok: bool)
    requires support.Valid() && support.led == cur && Unshared(cur)
    modifies support
    ensures support.Valid() && support.oldRandom == old(support.oldRandom)
    ensures |support.store| >= |old(support.store)| && support.store[..|old(support.store)|] == old(support.store)
    ensures var (port, delivered, last) := RainbowPush(old(support.Out()), old(support.Values()), if rounds < 0 then 0 else rounds, Swap(dir));
            support.Out() == port && ok == delivered && (ok ==> support.Values() == last)
    ensures ok && rounds <= 0 ==> support.led == cur
    ensures ok && rounds > 0 ==> Unshared(support.led) && forall y :: 0 <= y < Rows ==> support.led[y] >= |old(support.store)|
  {
    ghost var start := support.store;
    ghost var total: nat := if rounds < 0 then 0 else rounds;
    ghost var d := Swap(dir);
    ghost var pending := RainbowPush(support.Out(), support.Values(), total, d);
    ghost var left := total;
    var current := cur;
    var counter := 0;
    ok := true;
    while counter < rounds
      invariant 0 <= counter <= total && ok && left == total - counter
      invariant support.Valid() && support.oldRandom == old(support.oldRandom)
      invariant |support.store| >= |start| && support.store[..|start|] == start
      invariant Names(current, support.store) && |current| == Rows && Unshared(current)
      invariant Lookup(support.store, current) == support.Values()
      invariant counter == 0 ==> support.led == cur
      invariant counter > 0 ==> Unshared(support.led) && forall y :: 0 <= y < Rows ==> support.led[y] >= |start|
      invariant pending == RainbowPush(support.Out(), support.Values(), left, d)
    {
      current, ok, left := RbStep(support, current, dir, left, start, pending);
      if !ok {
        return;
      }
      counter := counter + 1;
    }
  }

  /**
   * `rb`: the strip becomes the palette's own lists and is shown, then `rounds` rounds each
   * interpolate to the strip rotated left by one. The palette's values never change. With no
   * round the strip is left as the palette's lists themselves; after a round it is lists of
   * its own, one per row. `pick` is the random direction used when the given one is falsy.
   */
  method LegacyRb(support: RgbSupport, rounds: int, direction: Option<string>, pick: string) returns (ok: bool)
    requires support.Valid()
    modifies support
    ensures support.Valid() && support.oldRandom == old(support.oldRandom) && support.Palette() == old(support.Palette())
    ensures var d := Swap(Some(LegacyRainbowDirection(direction, pick)));
            var (first, started) := PushAll(old(support.Out()), [old(support.Palette())], d);
            if started then
              var (port, delivered, last) := RainbowPush(first, old(support.Palette()), if rounds < 0 then 0 else rounds, d);
              support.Out() == port && ok == delivered && (ok ==> support.Values() == last)
            else support.Out() == first && !ok
    ensures ok && rounds <= 0 ==> support.led == PaletteLists
    ensures ok && rounds > 0 ==> Unshared(support.led) && forall y :: 0 <= y < Rows ==> support.led[y] >= |old(support.store)|
  {
    ghost var start := support.store;
    var dir := if Falsy(direction) then Some(pick) else direction;
    ok := support.SetFullArray(PaletteLists, dir);
    if ok {
      ok := RbRounds(support, PaletteLists, rounds, dir);
    }
    LookupGrown(start, support.store, PaletteLists);
  }

  // ---------------------------------------------------------------------------
  // cop
  // ---------------------------------------------------------------------------

  /** `cop`'s `led1` and `led2`: the palette lists `red` (0) and `blue` (5) themselves. */
  const CopLists1: seq<nat> := [0, 5, 5, 5, 0, 0, 5]
  const CopLists2: seq<nat> := [5, 0, 0, 0, 5, 5, 0]

  /** `cop` sets its `rounds` to 4 whatever it is given. */
  const CopRounds: nat := 4

  /** With the palette as imported, `cop`'s lists show the arrangements of the newer `cop`. */
  lemma CopListsShowArrangements(store: seq<Color>)
    requires |store| > BlackList && Lookup(store, PaletteLists) == Colors
    ensures Names(CopLists1, store) && Lookup(store, CopLists1) == CopLed1
    ensures Names(CopLists2, store) && Lookup(store, CopLists2) == CopLed2
  {
    assert store[0] == Lookup(store, PaletteLists)[0] == Red;
    assert store[5] == Lookup(store, PaletteLists)[5] == Blue;
  }

  /** `cop`'s inner loop: `set_full_array(led1, "right")`, then `led2`, three times. */
  method LegacyFlashRound(support: RgbSupport, led1: seq<nat>, led2: seq<nat>) returns (ok: bool)
    requires support.Valid() && Names(led1, support.store) && Names(led2, support.store)
    requires |led1| == Rows && |led2| == Rows
    modifies support
    ensures support.Valid() && support.store == old(support.store) && support.oldRandom == old(support.oldRandom)
    ensures PushAll(old(support.Out()), CopRound(Lookup(support.store, led1), Lookup(support.store, led2)), Some("right"))
            == (support.Out(), ok)
    ensures ok ==> support.led == led2
  {
    ghost var a, b := Lookup(support.store, led1), Lookup(support.store, led2);
    ghost var round := CopRound(a, b);
    ghost var pending := PushAll(support.Out(), round, Some("right"));
    var counter := 0;
    ok := true;
    while counter < Flash
      invariant 0 <= counter <= Flash
      invariant support.Valid() && support.store == old(support.store) && support.oldRandom == old(support.oldRandom)
      invariant pending == PushAll(support.Out(), round[2 * counter..], Some("right"))
      invariant counter > 0 ==> support.led == led2
    {
      CopRoundSplit(a, b, counter);
      ok := FlashPair(support, led1, led2, round[2 * (counter + 1)..]);
      if !ok {
        return;
      }
      counter := counter + 1;
    }
  }

  /** Past the first `k` flashes of a round come the two arrangements, then the rest. */
  lemma CopRoundSplit(a: Grid, b: Grid, k: nat)
    requires k < Flash
    ensures CopRound(a, b)[2 * k..] == [a, b] + CopRound(a, b)[2 * (k + 1)..]
  {
  }

  /** One `set_full_array(led1, 'right')` followed by `set_full_array(led2, 'right')`. */
  method FlashPair(support: RgbSupport, led1: seq<nat>, led2: seq<nat>, ghost later: seq<Grid>) returns (ok: bool)
    requires support.Valid() && Names(led1, support.store) && Names(led2, support.store)
    requires |led1| == Rows && |led2| == Rows
    modifies support
    ensures support.Valid() && support.store == old(support.store) && support.oldRandom == old(support.oldRandom)
    ensures ok ==> PushAll(old(support.Out()), [Lookup(support.store, led1), Lookup(support.store, led2)] + later, Some("right"))
                   == PushAll(support.Out(), later, Some("right"))
    ensures !ok ==> PushAll(old(support.Out()), [Lookup(support.store, led1), Lookup(support.store, led2)] + later, Some("right"))
                    == (support.Out(), false)
    ensures ok ==> support.led == led2
  {
    ghost var a, b := Lookup(support.store, led1), Lookup(support.store, led2);
    assert [a, b] + later == [a] + ([b] + later);
    PushAllAppend(support.Out(), [a], [b] + later, Some("right"));
    ok := support.SetFullArray(led1, Some("right"));
    if !ok {
      return;
    }
    PushAllAppend(support.Out(), [b], later, Some("right"));
    ok := support.SetFullArray(led2, Some("right"));
  }

  /** `goal = deepcopy(l)`, rotated twice by `append(goal[0])` and `remove(goal[0])`, then `deepcopy(goal)`. */
  method CopAdvance(support: RgbSupport, ids: seq<nat>) returns (next: seq<nat>)
    requires support.Valid() && Names(ids, support.store) && |ids| == Rows
    modifies support
    ensures support.Valid() && support.led == old(support.led) && support.written == old(support.written)
    ensures support.oldRandom == old(support.oldRandom)
    ensures |support.store| >= |old(support.store)| && support.store[..|old(support.store)|] == old(support.store)
    ensures Names(next, support.store) && |next| == Rows
    ensures Lookup(support.store, next) == RotateOnce(RotateOnce(Lookup(old(support.store), ids)))
    ensures SameSharing(next, RotateOnce(RotateOnce(ids)))
    ensures forall y :: 0 <= y < Rows ==> next[y] >= |old(support.store)|
  {
    ghost var start := support.store;
    var goal := support.DeepCopy(ids);
    LookupRotateOnce(support.store, goal);
    SameSharingRotateOnce(goal, ids);
    goal := RotateOnce(goal);
    LookupRotateOnce(support.store, goal);
    SameSharingRotateOnce(goal, RotateOnce(ids));
    goal := RotateOnce(goal);
    ghost var mid := support.store;
    next := support.DeepCopy(goal);
    SameSharingTrans(next, goal, RotateOnce(RotateOnce(ids)));
    assert support.store[..|start|] == mid[..|start|];
  }

  /** One round of `cop`: the flashes, then both arrangements moved on. */
  method LegacyCopRound(support: RgbSupport, led1: seq<nat>, led2: seq<nat>) returns (next1: seq<nat>, next2: seq<nat>, ok: bool)
    requires support.Valid() && Names(led1, support.store) && Names(led2, support.store)
    requires |led1| == Rows && |led2| == Rows
    modifies support
    ensures support.Valid() && support.oldRandom == old(support.oldRandom)
    ensures |support.store| >= |old(support.store)| && support.store[..|old(support.store)|] == old(support.store)
    ensures PushAll(old(support.Out()), CopRound(Lookup(old(support.store), led1), Lookup(old(support.store), led2)), Some("right"))
            == (support.Out(), ok)
    ensures ok ==> && support.led == led2 && support.Values() == Lookup(old(support.store), led2)
                   && Names(next1, support.store) && |next1| == Rows && Names(next2, support.store) && |next2| == Rows
                   && Lookup(support.store, next1) == RotateOnce(RotateOnce(Lookup(old(support.store), led1)))
                   && Lookup(support.store, next2) == RotateOnce(RotateOnce(Lookup(old(support.store), led2)))
                   && SameSharing(next2, RotateOnce(RotateOnce(led2)))
                   && (forall y :: 0 <= y < Rows ==> next2[y] >= |old(support.store)|)
  {
    next1, next2 := led1, led2;
    ok := LegacyFlashRound(support, led1, led2);
    if ok {
      next1, next2 := AdvanceBoth(support, led1, led2);
    }
  }

  /** The end of a `cop` round: `led1` and `led2` each moved on by `CopAdvance`; the strip stays as it is. */
  method AdvanceBoth(support: RgbSupport, led1: seq<nat>, led2: seq<nat>) returns (next1: seq<nat>, next2: seq<nat>)
    requires support.Valid() && Names(led1, support.store) && Names(led2, support.store)
    requires |led1| == Rows && |led2| == Rows
    modifies support
    ensures support.Valid() && support.led == old(support.led) && support.written == old(support.written)
    ensures support.oldRandom == old(support.oldRandom) && support.Values() == old(support.Values())
    ensures |support.store| >= |old(support.store)| && support.store[..|old(support.store)|] == old(support.store)
    ensures Names(next1, support.store) && |next1| == Rows && Names(next2, support.store) && |next2| == Rows
    ensures Lookup(support.store, next1) == RotateOnce(RotateOnce(Lookup(old(support.store), led1)))
    ensures Lookup(support.store, next2) == RotateOnce(RotateOnce(Lookup(old(support.store), led2)))
    ensures SameSharing(next2, RotateOnce(RotateOnce(led2)))
    ensures forall y :: 0 <= y < Rows ==> next2[y] >= |old(support.store)|
  {
    ghost var start := support.store;
    next1 := CopAdvance(support, led1);
    ghost var mid := support.store;
    LookupGrown(start, mid, led2);
    next2 := CopAdvance(support, led2);
    LookupGrown(mid, support.store, next1);
    LookupGrown(start, support.store, support.led);
    assert support.store[..|start|] == mid[..|start|];
  }

  /**
   * What `cop` holds after `done` rounds, starting from the values `v1` and `v2`: `led1` and
   * `led2` show them rotated by two per round, `led2` shares lists as `CopLists2` rotated
   * alike, and the strip shows the previous round's `led2`. After a round the arrangements
   * are new lists, and after two rounds so is the strip.
   */
  ghost predicate CopState(store: seq<Color>, m: nat, led1: seq<nat>, led2: seq<nat>, shown: seq<nat>,
                           v1: Grid, v2: Grid, done: nat)
  {
    CopArrangements(store, led1, led2, v1, v2, done) && CopShown(store, m, led2, shown, v2, done)
  }

  /** The two arrangements after `done` rounds. */
  ghost predicate CopArrangements(store: seq<Color>, led1: seq<nat>, led2: seq<nat>, v1: Grid, v2: Grid, done: nat)
  {
    && Names(led1, store) && |led1| == Rows && Names(led2, store) && |led2| == Rows
    && Lookup(store, led1) == Rotations(v1, 2 * done) && Lookup(store, led2) == Rotations(v2, 2 * done)
    && SameSharing(led2, Rotations(CopLists2, 2 * done))
  }

  /** The strip after `done` rounds, and which lists are new since the store had `m` lists. */
  ghost predicate CopShown(store: seq<Color>, m: nat, led2: seq<nat>, shown: seq<nat>, v2: Grid, done: nat)
  {
    && (done > 0 ==> && Names(shown, store) && Lookup(store, shown) == Rotations(v2, 2 * (done - 1))
                     && SameSharing(shown, Rotations(CopLists2, 2 * (done - 1)))
                     && forall y :: 0 <= y < |led2| ==> led2[y] >= m)
    && (done > 1 ==> forall y :: 0 <= y < |shown| ==> shown[y] >= m)
  }

  /** Before the first round: the arrangements are the palette lists `CopLists1` and `CopLists2`. */
  lemma CopStart(store: seq<Color>, led: seq<nat>)
    requires |store| > BlackList
    ensures CopState(store, |store|, CopLists1, CopLists2, led, Lookup(store, CopLists1), Lookup(store, CopLists2), 0)
  {
  }

  /** Two more single rotations. */
  lemma RotateTwice<T>(v: seq<T>, done: nat, after: nat)
    requires after == done + 1
    ensures Rotations(v, 2 * after) == RotateOnce(RotateOnce(Rotations(v, 2 * done)))
  {
    assert 2 * after == 2 * done + 2;
  }

  /** A round moves both arrangements on by two rotations. */
  lemma ArrangementsAdvance(before: seq<Color>, store: seq<Color>, led1: seq<nat>, led2: seq<nat>,
                            next1: seq<nat>, next2: seq<nat>, v1: Grid, v2: Grid, done: nat, after: nat)
    requires CopArrangements(before, led1, led2, v1, v2, done) && after == done + 1
    requires Names(next1, store) && |next1| == Rows && Names(next2, store) && |next2| == Rows
    requires Lookup(store, next1) == RotateOnce(RotateOnce(Lookup(before, led1)))
    requires Lookup(store, next2) == RotateOnce(RotateOnce(Lookup(before, led2)))
    requires SameSharing(next2, RotateOnce(RotateOnce(led2)))
    ensures CopArrangements(store, next1, next2, v1, v2, after)
  {
    SharingAdvances(next2, led2, CopLists2, 2 * done, 2 * after);
    RotateTwice(v1, done, after);
    RotateTwice(v2, done, after);
  }

  /** After a round the strip shows the arrangement `led2` the round began with, and the new one is fresh. */
  lemma ShownAdvances(before: seq<Color>, store: seq<Color>, m: nat, led1: seq<nat>, led2: seq<nat>, shown: seq<nat>,
                      next2: seq<nat>, v1: Grid, v2: Grid, done: nat, after: nat)
    requires CopState(before, m, led1, led2, shown, v1, v2, done) && m <= |before| && after == done + 1
    requires |store| >= |before| && store[..|before|] == before
    requires forall y :: 0 <= y < |next2| ==> next2[y] >= |before|
    ensures CopShown(store, m, next2, led2, v2, after)
  {
    LookupGrown(before, store, led2);
  }

  /** The frames of the rounds still to come after `done`: this round's, then the rest from two rotations on. */
  lemma CopFramesAdvance(v1: Grid, v2: Grid, done: nat, after: nat)
    requires done < CopRounds && after == done + 1
    ensures CopFrames(Rotations(v1, 2 * done), Rotations(v2, 2 * done), CopRounds - done)
            == CopRound(Rotations(v1, 2 * done), Rotations(v2, 2 * done))
               + CopFrames(Rotations(v1, 2 * after), Rotations(v2, 2 * after), CopRounds - after)
  {
    CopFramesStep(Rotations(v1, 2 * done), Rotations(v2, 2 * done), CopRounds - done);
    RotateTwice(v1, done, after);
    RotateTwice(v2, done, after);
  }

  /** One iteration of `cop`'s outer loop, from the state after `done` rounds. */
  method CopIteration(support: RgbSupport, led1: seq<nat>, led2: seq<nat>, ghost v1: Grid, ghost v2: Grid,
                      ghost done: nat, ghost start: seq<Color>, ghost pending: (Port, bool))
    returns (next1: seq<nat>, next2: seq<nat>, ok: bool, ghost after: nat)
    requires support.Valid() && |support.store| >= |start| && support.store[..|start|] == start && done < CopRounds
    requires CopState(support.store, |start|, led1, led2, support.led, v1, v2, done)
    requires pending == PushAll(support.Out(), CopFrames(Rotations(v1, 2 * done), Rotations(v2, 2 * done), CopRounds - done),
                                Some("right"))
    modifies support
    ensures support.Valid() && support.oldRandom == old(support.oldRandom)
    ensures |support.store| >= |start| && support.store[..|start|] == start
    ensures after == done + 1
    ensures ok ==> pending == PushAll(support.Out(), CopFrames(Rotations(v1, 2 * after), Rotations(v2, 2 * after), CopRounds - after),
                                      Some("right"))
    ensures !ok ==> pending == (support.Out(), false)
    ensures ok ==> CopState(support.store, |start|, next1, next2, support.led, v1, v2, after)
  {
    ghost var before, shown := support.store, support.led;
    after := done + 1;
    CopFramesAdvance(v1, v2, done, after);
    PushAllAppend(support.Out(), CopRound(Rotations(v1, 2 * done), Rotations(v2, 2 * done)),
                  CopFrames(Rotations(v1, 2 * after), Rotations(v2, 2 * after), CopRounds - after), Some("right"));
    next1, next2, ok := LegacyCopRound(support, led1, led2);
    assert support.store[..|start|] == before[..|start|];
    if ok {
      ArrangementsAdvance(before, support.store, led1, led2, next1, next2, v1, v2, done, after);
      ShownAdvances(before, support.store, |start|, led1, led2, shown, next2, v1, v2, done, after);
    }
  }

  /**
   * `cop`: four rounds, whatever rounds and direction it is given, each showing `led1` and
   * `led2` three times with "right" and then moving both on by two rotations through deep
   * copies. The first round shows the palette lists themselves; the strip is left as the
   * last round's `led2`, whose rows share lists as the arrangement's colours do.
   */
  method LegacyCop(support: RgbSupport) returns (ok: bool)
    requires support.Valid()
    modifies support
    ensures support.Valid() && support.oldRandom == old(support.oldRandom) && support.Palette() == old(support.Palette())
    ensures PushAll(old(support.Out()),
                    CopFrames(Lookup(old(support.store), CopLists1), Lookup(old(support.store), CopLists2), CopRounds),
                    Some("right"))
            == (support.Out(), ok)
    ensures ok ==> && support.Values() == Rotations(Lookup(old(support.store), CopLists2), 2 * (CopRounds - 1))
                   && SameSharing(support.led, Rotations(CopLists2, 2 * (CopRounds - 1)))
                   && forall y :: 0 <= y < Rows ==> support.led[y] >= |old(support.store)|
  {
    ghost var start := support.store;
    ghost var v1, v2 := Lookup(start, CopLists1), Lookup(start, CopLists2);
    ghost var pending := PushAll(support.Out(), CopFrames(v1, v2, CopRounds), Some("right"));
    var led1, led2 := CopLists1, CopLists2;
    CopStart(start, support.led);
    var roundsCounter := 0;
    ghost var done: nat := 0;
    ok := true;
    while roundsCounter < CopRounds
      invariant 0 <= roundsCounter <= CopRounds && ok && done == roundsCounter
      invariant support.Valid() && support.oldRandom == old(support.oldRandom)
      invariant |support.store| >= |start| && support.store[..|start|] == start
      invariant CopState(support.store, |start|, led1, led2, support.led, v1, v2, done)
      invariant pending == PushAll(support.Out(), CopFrames(Rotations(v1, 2 * done), Rotations(v2, 2 * done),
                                                            CopRounds - done), Some("right"))
    {
      var next1, next2;
      next1, next2, ok, done := CopIteration(support, led1, led2, v1, v2, done, start, pending);
      if !ok {
        LookupGrown(start, support.store, PaletteLists);
        return;
      }
      led1, led2 := next1, next2;
      roundsCounter := roundsCounter + 1;
    }
    CopEnd(support.store, start, led1, led2, support.led, v1, v2);
  }

  /** After the last round the strip shows the final arrangement, and the palette lists are as they were. */
  lemma CopEnd(store: seq<Color>, start: seq<Color>, led1: seq<nat>, led2: seq<nat>, shown: seq<nat>, v1: Grid, v2: Grid)
    requires |start| > BlackList && |store| >= |start| && store[..|start|] == start
    requires CopState(store, |start|, led1, led2, shown, v1, v2, CopRounds)
    ensures Names(shown, store) && Lookup(store, shown) == Rotations(v2, 2 * (CopRounds - 1))
    ensures SameSharing(shown, Rotations(CopLists2, 2 * (CopRounds - 1)))
    ensures |shown| == Rows && forall y :: 0 <= y < Rows ==> shown[y] >= |start|
    ensures Lookup(store, PaletteLists) == Lookup(start, PaletteLists)
  {
    LookupGrown(start, store, PaletteLists);
  }

  /**
   * After `cop` the strip's rows 0, 2, 3 and 4 are one list (red) and rows 1, 5 and 6 another
   * (blue): `set_led(0, c)` then writes c into rows 0, 2, 3 and 4 together, and leaves the others.
   */
  lemma CopLeavesRowsShared(led: seq<nat>, g: Grid, c: Color)
    requires SameSharing(led, Rotations(CopLists2, 2 * (CopRounds - 1))) && |g| == Rows
    ensures var after := Overwrite(led, g, led[0], c);
            && after[0] == c && after[2] == c && after[3] == c && after[4] == c
            && after[1] == g[1] && after[5] == g[5] && after[6] == g[6]
  {
    RotationsAreRotateLeft(CopLists2, 6);
    var r := Rotations(CopLists2, 6);
    assert r == [0, 5, 0, 0, 0, 5, 5];
    assert r[0] == r[2] == r[3] == r[4] && r[0] != r[1] && r[0] != r[5] && r[0] != r[6];
    forall y | 0 <= y < Rows ensures led[y] == led[0] <==> r[y] == r[0] {
      assert SameList(led, y, 0) <==> SameList(r, y, 0);
    }
  }

  // ---------------------------------------------------------------------------
  // bounce, wave, fall: geometry
  // ---------------------------------------------------------------------------

  /**
   * The older `bounce` and `wave` size themselves as the newer ones do, and the older `commit`
   * sends the same rows up or down (in the opposite order), so every row they light is sent
   * and every row sent is lit.
   */
  lemma LegacyGeometryMatchesOrders(direction: string, rounds: Option<int>)
    requires direction in Directions
    ensures LitMatchesOrder(BounceLit(BounceShape(direction, rounds).ledCount), LegacyRowOrder(Some(direction)).value)
    ensures LitMatchesOrder(WaveLit(WaveShape(direction, rounds).ledCount), LegacyRowOrder(Some(direction)).value)
  {
    var swapped := Swap(Some(direction)).value;
    LegacyOrdersAreSwapped(Some(direction));
    GeometryMatchesOrders(swapped, rounds);
    assert BounceShape(swapped, rounds) == BounceShape(direction, rounds);
    assert WaveShape(swapped, rounds) == WaveShape(direction, rounds);
  }

  /** The older `fall` too lights row 4 when sending up or down, where row 4 is never sent. */
  lemma LegacyFallLightsUnsentRow(direction: string)
    requires direction in Directions && !Horizontal(Some(direction))
    ensures 4 in FallLit && 4 !in LegacyRowOrder(Some(direction)).value
    ensures FallShape(Some(direction), None) == Shape(3, 5)
  {
    LegacyOrdersAreSwapped(Some(direction));
    FallLightsUnsentRow(Swap(Some(direction)).value);
  }
}
