/**
 * The newer controller's serial link (controller/src/candlestick/serial_controller.py): a
 * `SerialController` holds the seven LED rows and, on commit, sends them in the row order the
 * direction selects, framed by 255 and 254, or logs them when no serial port could be opened.
 * The port is modelled by what was written to it (`written`) and what was logged instead
 * (`logged`); whether the port opens is a constructor parameter.
 */
module LedStrip {
  import opened Wrappers
  import opened Leds

  /** Seven row indices, each naming a row of the strip. */
  predicate ValidOrder(order: seq<nat>) {
    |order| == Rows && forall k :: 0 <= k < |order| ==> order[k] < Rows
  }

  /** Rows 0 through 6. */
  function Forward(): (r: seq<nat>)
    ensures |r| == Rows && forall i :: 0 <= i < Rows ==> r[i] == i
  {
    [0, 1, 2, 3, 4, 5, 6]
  }

  /** Rows 6 through 0. */
  function Backward(): (r: seq<nat>)
    ensures |r| == Rows && forall i :: 0 <= i < Rows ==> r[i] == Rows - 1 - i
  {
    [6, 5, 4, 3, 2, 1, 0]
  }

  lemma OrderFits(g: Grid, order: seq<nat>)
    requires IsGrid(g) && ValidOrder(order)
    ensures Fits(g, order)
  {
  }

  /** The row order `commit_arr` sends; None where it never binds `values` (UnboundLocalError). */
  function RowOrder(direction: Option<string>): (r: Option<seq<nat>>)
    ensures r.Some? ==> ValidOrder(r.value)
  {
    if Falsy(direction) || direction.value == "right" then Some(Forward())
    else if direction.value == "left" then Some(Backward())
    else if direction.value == "down" then Some([3, 2, 1, 0, 1, 2, 3])
    else if direction.value == "up" then Some([0, 1, 2, 3, 2, 1, 0])
    else None
  }

  /** The values `commit_arr` sends for the rows it holds; None where building them raises. */
  function Commit(led: Grid, direction: Option<string>): Option<seq<int>> {
    match RowOrder(direction)
    case None => None
    case Some(order) => if Fits(led, order) then Some(Payload(led, order)) else None
  }

  /** The 21 values of a full strip, for every direction the source handles, and only for those. */
  lemma CommitDirections(led: Grid, direction: Option<string>)
    requires IsGrid(led)
    ensures Commit(led, direction).Some? <==> Falsy(direction) || direction.value in Directions
    ensures Commit(led, direction).Some? ==>
              var order := RowOrder(direction).value;
              && |order| == Rows
              && |Commit(led, direction).value| == 21
              && forall k, j :: 0 <= k < Rows && 0 <= j < 3 ==>
                   Commit(led, direction).value[3 * k + j] == led[order[k]][j]
  {
    if Commit(led, direction).Some? {
      var order := RowOrder(direction).value;
      forall k, j | 0 <= k < Rows && 0 <= j < 3
        ensures Commit(led, direction).value[3 * k + j] == led[order[k]][j]
      {
        PayloadAt(led, order, k, j);
      }
    }
  }

  /** None and "right" send the rows in order; "left" reverses the rows, not the channels. */
  lemma CommitRightAndLeft(led: Grid)
    requires IsGrid(led)
    ensures Commit(led, None) == Commit(led, Some("right")) == Commit(led, Some(""))
    ensures forall k, j :: 0 <= k < Rows && 0 <= j < 3 ==>
              && Commit(led, None).value[3 * k + j] == led[k][j]
              && Commit(led, Some("left")).value[3 * (6 - k) + j] == led[k][j]
  {
    CommitDirections(led, None);
    CommitDirections(led, Some("left"));
    forall k, j | 0 <= k < Rows && 0 <= j < 3
      ensures Commit(led, None).value[3 * k + j] == led[k][j]
      ensures Commit(led, Some("left")).value[3 * (6 - k) + j] == led[k][j]
    {
      PayloadAt(led, Forward(), k, j);
      PayloadAt(led, Backward(), 6 - k, j);
    }
  }

  /** The vertical orders mirror the strip around row 3 and never show rows 4-6. */
  lemma VerticalOrdersShowRowsZeroToThree(direction: string)
    requires direction == "up" || direction == "down"
    ensures var order := RowOrder(Some(direction)).value;
            (forall k :: 0 <= k < |order| ==> order[k] <= 3)
            && (forall k :: 0 <= k < |order| ==> order[k] == order[6 - k])
  {
  }

  /** What left the controller: frames on the serial line, or payloads in the log. */
  datatype Port = Port(connected: bool, written: seq<seq<int>>, logged: seq<seq<int>>)

  /** `serial_write` or the log line; `bytearray` raises for a value outside 0..255. */
  function Emit(port: Port, values: seq<int>): Option<Port> {
    if port.connected then
      if AllBytes(values) then Some(port.(written := port.written + [Frame(values)])) else None
    else Some(port.(logged := port.logged + [values]))
  }

  function CommitTo(port: Port, led: Grid, direction: Option<string>): Option<Port> {
    match Commit(led, direction)
    case None => None
    case Some(values) => Emit(port, values)
  }

  /** A series of `set_full_array` calls, stopping at the first that raises. */
  function PushAll(port: Port, grids: seq<Grid>, direction: Option<string>): (r: (Port, bool))
    ensures r.0.connected == port.connected
    decreases |grids|
  {
    if grids == [] then (port, true)
    else
      match CommitTo(port, grids[0], direction)
      case None => (port, false)
      case Some(next) => PushAll(next, grids[1..], direction)
  }

  lemma {:induction false} PushAllAppend(port: Port, a: seq<Grid>, b: seq<Grid>, direction: Option<string>)
    ensures PushAll(port, a + b, direction)
            == (var (mid, ok) := PushAll(port, a, direction);
                if ok then PushAll(mid, b, direction) else (mid, false))
    decreases |a|
  {
    if a == [] {
      assert a + b == b;
    } else {
      assert (a + b)[1..] == a[1..] + b;
      match CommitTo(port, a[0], direction)
      case None =>
      case Some(next) => PushAllAppend(next, a[1..], b, direction);
    }
  }

  /** The payloads a series of strips produces in one row order. */
  function Payloads(grids: seq<Grid>, order: seq<nat>): (r: seq<seq<int>>)
    requires forall k :: 0 <= k < |grids| ==> Fits(grids[k], order)
    ensures |r| == |grids|
    ensures forall k :: 0 <= k < |grids| ==> r[k] == Payload(grids[k], order)
  {
    seq(|grids|, k requires 0 <= k < |grids| => Payload(grids[k], order))
  }

  function Frames(payloads: seq<seq<int>>): (r: seq<seq<int>>)
    ensures |r| == |payloads|
    ensures forall k :: 0 <= k < |payloads| ==> r[k] == Frame(payloads[k])
  {
    seq(|payloads|, k requires 0 <= k < |payloads| => Frame(payloads[k]))
  }

  /** Payloads gone out: framed on the serial line when the port is open, logged otherwise. */
  function Deliver(port: Port, payloads: seq<seq<int>>): Port {
    if port.connected then port.(written := port.written + Frames(payloads))
    else port.(logged := port.logged + payloads)
  }

  lemma DeliverCons(port: Port, p: seq<int>, rest: seq<seq<int>>)
    requires AllBytes(p)
    ensures Emit(port, p).Some? && Deliver(Emit(port, p).value, rest) == Deliver(port, [p] + rest)
  {
    if port.connected {
      assert Frames([p] + rest) == [Frame(p)] + Frames(rest);
    }
  }

  /** Strips of byte values, in a direction the source handles, all go out, in order. */
  lemma {:induction false} PushAllDelivers(port: Port, grids: seq<Grid>, direction: Option<string>)
    requires RowOrder(direction).Some?
    requires forall k :: 0 <= k < |grids| ==> ByteGrid(grids[k])
    ensures var order := RowOrder(direction).value;
            && (forall k :: 0 <= k < |grids| ==> Fits(grids[k], order))
            && PushAll(port, grids, direction) == (Deliver(port, Payloads(grids, order)), true)
    decreases |grids|
  {
    var order := RowOrder(direction).value;
    forall k | 0 <= k < |grids|
      ensures Fits(grids[k], order)
    {
      OrderFits(grids[k], order);
    }
    if grids == [] {
      assert Payloads(grids, order) == [];
      assert port.written + Frames([]) == port.written;
      assert port.logged + [] == port.logged;
    } else {
      var g := grids[0];
      var p := Payload(g, order);
      PayloadBytes(g, order);
      DeliverCons(port, p, Payloads(grids[1..], order));
      PushAllDelivers(Emit(port, p).value, grids[1..], direction);
      assert Payloads(grids, order) == [p] + Payloads(grids[1..], order);
    }
  }

  /**
   * `serial_write` as written: while a response is waiting it calls `sleep`, which the module
   * never imports, so a waiting response before the write raises NameError before anything is
   * written, and one after the write raises once the frame is out.
   */
  function SerialWriteAsWritten(values: seq<int>, waitingBefore: bool, waitingAfter: bool): (r: (Option<seq<int>>, bool))
  {
    if waitingBefore then (None, true)
    else (Some(Frame(values)), waitingAfter)
  }

  /** Strips of byte values, in a direction the source handles, never make a commit raise. */
  lemma PushAllSucceeds(port: Port, grids: seq<Grid>, direction: Option<string>)
    requires RowOrder(direction).Some?
    requires forall k :: 0 <= k < |grids| ==> ByteGrid(grids[k])
    ensures PushAll(port, grids, direction).1
  {
    PushAllDelivers(port, grids, direction);
  }

  /** Any response from the device makes `serial_write` raise. */
  lemma SerialWriteRaisesOnResponse(values: seq<int>, waitingBefore: bool, waitingAfter: bool)
    ensures SerialWriteAsWritten(values, waitingBefore, waitingAfter).1 <==> waitingBefore || waitingAfter
    ensures waitingBefore ==> SerialWriteAsWritten(values, waitingBefore, waitingAfter).0 == None
  {
  }

  /**
   * The controller object. Its `serial_write` is modelled as intended: waiting responses are
   * drained and the frame is written (see `SerialWriteAsWritten` for the code as written).
   */
  class SerialController {
    var led: Grid
    var serialConnected: bool
    var written: seq<seq<int>>
    var logged: seq<seq<int>>

    function Out(): Port
      reads this
    {
      Port(serialConnected, written, logged)
    }

    /** Seven black rows; `portOpens` says whether opening the serial port succeeded. */
    constructor(portOpens: bool)
      ensures led == Dark() && serialConnected == portOpens && written == [] && logged == []
    {
      led := Dark();
      serialConnected := portOpens;
      written := [];
      logged := [];
    }

    /** `commit_arr`; `ok` is false where the source raises, and then nothing is sent. */
    method CommitArr(direction: Option<string>) returns (ok: bool)
      modifies this
      ensures led == old(led)
      ensures ok == CommitTo(old(Out()), led, direction).Some?
      ensures Out() == if ok then CommitTo(old(Out()), led, direction).value else old(Out())
    {
      var order := RowOrder(direction);
      if order.None? || !Fits(led, order.value) {
        return false;
      }
      var values := Payload(led, order.value);
      if serialConnected {
        if !AllBytes(values) {
          return false;
        }
        written := written + [Frame(values)];
      } else {
        logged := logged + [values];
      }
      ok := true;
    }

    /** `set_full_array`: the strip becomes `values`, then it is committed. */
    method SetFullArray(values: Grid, direction: Option<string>) returns (ok: bool)
      modifies this
      ensures led == values
      ensures PushAll(old(Out()), [values], direction) == (Out(), ok)
    {
      led := values;
      ok := CommitArr(direction);
    }

    /**
     * `set_led`: row x (a Python index, so -7 picks row 0) becomes `color`; committed only when
     * `send` is true. An index outside the strip raises IndexError and changes nothing.
     */
    method SetLed(x: int, color: Color, send: bool, direction: Option<string>) returns (ok: bool)
      modifies this
      ensures var n := |old(led)|;
              if x < -n || x >= n then !ok && led == old(led) && Out() == old(Out())
              else
                && led == old(led)[(if x < 0 then x + n else x) := color]
                && (send ==> PushAll(old(Out()), [led], direction) == (Out(), ok))
                && (!send ==> ok && Out() == old(Out()))
    {
      var n := |led|;
      if x < -n || x >= n {
        return false;
      }
      var index := if x < 0 then x + n else x;
      led := led[index := color];
      ok := true;
      if send {
        ok := CommitArr(direction);
      }
    }

    /** Painting place `i` extends the painted prefix by one. */
    static lemma PaintNext(strip: seq<Color>, orig: seq<Color>, i: nat, color: Color)
      requires i < |orig| && strip == seq(i, _ => color) + orig[i..]
      ensures strip[i := color] == seq(i + 1, _ => color) + orig[i + 1..]
    {
    }

    /** `set_all`: the first seven rows become `color`, then the strip is committed with "right". */
    method SetAll(color: Color) returns (ok: bool)
      modifies this
      ensures |old(led)| >= Rows ==>
                && led == seq(Rows, _ => color) + old(led)[Rows..]
                && PushAll(old(Out()), [led], Some("right")) == (Out(), ok)
      ensures |old(led)| < Rows ==> !ok && led == seq(|old(led)|, _ => color) && Out() == old(Out())
    {
      for i := 0 to Rows
        invariant |led| == |old(led)| && i <= |led|
        invariant led == seq(i, _ => color) + old(led)[i..]
        invariant Out() == old(Out())
      {
        if i >= |led| {
          assert old(led)[i..] == [];
          return false;
        }
        PaintNext(led, old(led), i, color);
        led := led[i := color];
      }
      ok := CommitArr(Some("right"));
    }
  }
}
