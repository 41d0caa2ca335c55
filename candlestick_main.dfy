/**
 * The newer controller's entry points (controller/src/candlestick/main.py): the table of
 * pattern programs, `run_random` with the name it reports, and `run_program`'s loop. The
 * patterns themselves are not called here: each repetition yields the call it would make
 * (`Invocation`). The random choices are parameters, and the source's endless loop is
 * modelled for a given number of repetitions.
 */
module Candlestick {
  import opened Wrappers
  import opened Leds

  /** The pattern functions the table can call. */
  datatype Pattern = Fall | Wave | Bounce | Cop | Rb

  /** The table's keys, in the order `list(functions.keys())` yields them. */
  const FunctionNames: seq<string> := ["fall", "wave", "bounce", "cop", "rb", "rb2"]

  /** The names `run_random` can report. */
  const ReportedNames: seq<string> := ["fall", "wave", "bounce", "cop", "rb"]

  /** `functions`: `rb2` is a second key for the rainbow, to pick it more often. */
  function Functions(): map<string, Pattern> {
    map["fall" := Fall, "wave" := Wave, "bounce" := Bounce, "cop" := Cop, "rb" := Rb, "rb2" := Rb]
  }

  /** One call of a pattern function: which one, with the speed and direction it is given. */
  datatype Invocation = Invocation(pattern: Pattern, speed: int, direction: string)

  /** Six distinct keys, exactly those of the table, and `rb2` runs the same function as `rb`. */
  lemma TableShape()
    ensures |FunctionNames| == 6
    ensures forall i, j :: 0 <= i < j < |FunctionNames| ==> FunctionNames[i] != FunctionNames[j]
    ensures forall name :: name in Functions() <==> name in FunctionNames
    ensures Functions()["rb2"] == Functions()["rb"] == Rb
    ensures forall name :: name in Functions() && Functions()[name] == Rb ==> name == "rb" || name == "rb2"
  {
  }

  /** The name `run_random` reports for the key it drew. */
  function Reported(name: string): string {
    if name == "rb2" then "rb" else name
  }

  /** Whatever key is drawn, the reported name is never `rb2`, and names the same function. */
  lemma ReportedRunsTheDrawnPattern(name: string)
    requires name in FunctionNames
    ensures Reported(name) in ReportedNames && Reported(name) != "rb2"
    ensures Reported(name) in Functions() && Functions()[Reported(name)] == Functions()[name]
  {
  }

  /** What one `run_random` calls, for a drawn key index and direction index. */
  function RandomInvocation(programPick: nat, directionPick: nat, speed: int): (r: Invocation)
    requires programPick < |FunctionNames| && directionPick < |Directions|
    ensures r.direction in Directions
    ensures Reported(FunctionNames[programPick]) in Functions()
            && r.pattern == Functions()[Reported(FunctionNames[programPick])]
  {
    Invocation(Functions()[FunctionNames[programPick]], speed, Directions[directionPick])
  }

  /** A shared `multiprocessing` text slot the parent process reads. */
  class SharedSlot {
    var value: string

    constructor(initial: string)
      ensures value == initial
    {
      value := initial;
    }
  }

  /**
   * `run_random`: draws a key and a direction, publishes the reported name and the direction
   * in the slots that are given (null where the caller passed None), and makes the call. When
   * one slot is passed for both, the direction is written last and stays.
   */
  method RunRandom(speed: int, programSlot: SharedSlot?, directionSlot: SharedSlot?, programPick: nat, directionPick: nat)
    returns (call: Invocation)
    requires programPick < |FunctionNames| && directionPick < |Directions|
    modifies programSlot, directionSlot
    ensures call == RandomInvocation(programPick, directionPick, speed)
    ensures directionSlot != null ==> directionSlot.value == call.direction
    ensures programSlot != null && programSlot != directionSlot ==>
              programSlot.value == Reported(FunctionNames[programPick])
  {
    var program := FunctionNames[programPick];
    var direction := Directions[directionPick];
    var programToReport := if program == "rb2" then "rb" else program;
    if programSlot != null {
      programSlot.value := programToReport;
    }
    if directionSlot != null {
      directionSlot.value := direction;
    }
    call := Invocation(Functions()[program], speed, direction);
  }

  /** The direction `run_program` settles on once, before its loop. */
  function ProgramDirection(direction: Option<string>, directionPick: nat): string
    requires directionPick < |Directions|
  {
    if direction.None? then Directions[directionPick] else direction.value
  }

  /**
   * The first `repetitions` rounds of `run_program`'s endless loop. For "random", round k
   * draws `randomPicks[k]`. For a fixed program, the slots are written before each call, so
   * an unknown name has already published itself when `functions[program]` raises (`ok` false).
   */
  method RunProgram(program: string, speed: int, direction: Option<string>, directionPick: nat,
                    programSlot: SharedSlot?, directionSlot: SharedSlot?,
                    randomPicks: seq<(nat, nat)>, repetitions: nat)
    returns (calls: seq<Invocation>, ok: bool)
    requires directionPick < |Directions|
    requires program == "random" ==> |randomPicks| >= repetitions
    requires forall k :: 0 <= k < |randomPicks| ==> randomPicks[k].0 < |FunctionNames| && randomPicks[k].1 < |Directions|
    modifies programSlot, directionSlot
    ensures program == "random" ==>
              && ok && |calls| == repetitions
              && (forall k :: 0 <= k < repetitions ==>
                    calls[k] == RandomInvocation(randomPicks[k].0, randomPicks[k].1, speed))
    ensures program != "random" && program in Functions() ==>
              && ok && |calls| == repetitions
              && (forall k :: 0 <= k < repetitions ==>
                    calls[k] == Invocation(Functions()[program], speed, ProgramDirection(direction, directionPick)))
    ensures program != "random" && program !in Functions() ==> calls == [] && ok == (repetitions == 0)
    ensures program != "random" && repetitions > 0 && directionSlot != null ==>
              directionSlot.value == ProgramDirection(direction, directionPick)
    ensures program != "random" && repetitions > 0 && programSlot != null && programSlot != directionSlot ==>
              programSlot.value == program
  {
    var chosen := if direction.None? then Directions[directionPick] else direction.value;
    calls := [];
    ok := true;
    var k := 0;
    while k < repetitions
      invariant 0 <= k <= repetitions && |calls| == k
      invariant program == "random" ==>
                  forall j :: 0 <= j < k ==> calls[j] == RandomInvocation(randomPicks[j].0, randomPicks[j].1, speed)
      invariant program != "random" && program in Functions() ==>
                  forall j :: 0 <= j < k ==> calls[j] == Invocation(Functions()[program], speed, chosen)
      invariant program != "random" && k > 0 ==> program in Functions()
      invariant program != "random" && k > 0 && directionSlot != null ==> directionSlot.value == chosen
      invariant program != "random" && k > 0 && programSlot != null && programSlot != directionSlot ==>
                  programSlot.value == program
    {
      var call: Invocation;
      if program == "random" {
        call := RunRandom(speed, programSlot, directionSlot, randomPicks[k].0, randomPicks[k].1);
      } else {
        if programSlot != null {
          programSlot.value := program;
        }
        if directionSlot != null {
          directionSlot.value := chosen;
        }
        if program !in Functions() {
          return [], false;
        }
        call := Invocation(Functions()[program], speed, chosen);
      }
      calls := calls + [call];
      k := k + 1;
    }
  }
}
