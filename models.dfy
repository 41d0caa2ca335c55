/**
 * The hub's message schema: the three message tags, the operator command with its speed bound,
 * the per-device state record and the three websocket message shapes. Validation is modelled as
 * a function from a decoded JSON object to a result; a field must carry a value of its own JSON
 * type (or null, or be missing when it has a default), and keys the schema does not name are ignored.
 */
module Models {
  import opened Wrappers
  import opened Json

  datatype MessageType = Status | Heartbeat | Command

  /** The string value each tag has on the wire. */
  function Tag(t: MessageType): string {
    match t
    case Status => "status"
    case Heartbeat => "heartbeat"
    case Command => "command"
  }

  /** Enum validation of a `type` value. */
  function ParseMessageType(v: Value): Option<MessageType> {
    if v == Str("status") then Some(Status)
    else if v == Str("heartbeat") then Some(Heartbeat)
    else if v == Str("command") then Some(Command)
    else None
  }

  /** Exactly three tags exist, and each parses back to itself. */
  lemma ExactlyThreeTags(v: Value)
    ensures ParseMessageType(v).Some? <==> v in {Str("status"), Str("heartbeat"), Str("command")}
    ensures ParseMessageType(v).Some? ==> v == Str(Tag(ParseMessageType(v).value))
    ensures forall t :: ParseMessageType(Str(Tag(t))) == Some(t)
  {
    forall t: MessageType ensures ParseMessageType(Str(Tag(t))) == Some(t) {
      match t
      case Status =>
      case Heartbeat =>
      case Command =>
    }
  }

  // ---------------------------------------------------------------------------
  // Optional fields
  // ---------------------------------------------------------------------------

  /** An `Optional[str] = None` field: missing or null is None, a string is kept, anything else is rejected. */
  function OptionalString(o: Object, key: string): Result<Option<string>, string> {
    if key !in o || o[key] == Null then Ok(None)
    else if o[key].Str? then Ok(Some(o[key].s))
    else Err(key)
  }

  function OptionalInt(o: Object, key: string): Result<Option<int>, string> {
    if key !in o || o[key] == Null then Ok(None)
    else if o[key].Int? then Ok(Some(o[key].i))
    else Err(key)
  }

  function OptionalBool(o: Object, key: string): Result<Option<bool>, string> {
    if key !in o || o[key] == Null then Ok(None)
    else if o[key].Bool? then Ok(Some(o[key].b))
    else Err(key)
  }

  /** A `type` field with a default tag: missing gives the default, present must be one of the three tags. */
  function TypeField(o: Object, default: MessageType): Result<MessageType, string> {
    if "type" !in o then Ok(default)
    else if ParseMessageType(o["type"]).Some? then Ok(ParseMessageType(o["type"]).value)
    else Err("type")
  }

  // ---------------------------------------------------------------------------
  // Operator command (request body of the command endpoint)
  // ---------------------------------------------------------------------------

  datatype CandlestickCommand = CandlestickCommand(
    program: Option<string>,
    speed: Option<int>,
    direction: Option<string>,
    color: Option<string>)

  predicate SpeedInRange(speed: Option<int>) {
    speed.None? || 1 <= speed.value <= 100
  }

  function ParseCandlestickCommand(o: Object): (r: Result<CandlestickCommand, string>)
    ensures r.Ok? ==> SpeedInRange(r.value.speed)
  {
    var program :- OptionalString(o, "program");
    var speed :- OptionalInt(o, "speed");
    var direction :- OptionalString(o, "direction");
    var color :- OptionalString(o, "color");
    if SpeedInRange(speed) then Ok(CandlestickCommand(program, speed, direction, color))
    else Err("speed")
  }

  /** With well-typed fields, a command is accepted exactly when its speed is absent or within [1, 100]. */
  lemma CommandValidIff(o: Object)
    requires OptionalString(o, "program").Ok? && OptionalString(o, "direction").Ok?
    requires OptionalString(o, "color").Ok? && OptionalInt(o, "speed").Ok?
    ensures ParseCandlestickCommand(o).Ok? <==> SpeedInRange(OptionalInt(o, "speed").value)
    ensures ParseCandlestickCommand(o).Ok? ==>
      ParseCandlestickCommand(o).value == CandlestickCommand(
        OptionalString(o, "program").value, OptionalInt(o, "speed").value,
        OptionalString(o, "direction").value, OptionalString(o, "color").value)
  {
  }

  /** A command with every field absent is valid and carries nothing. */
  lemma EmptyCommandValid()
    ensures ParseCandlestickCommand(map[]) == Ok(CandlestickCommand(None, None, None, None))
  {
  }

  // ---------------------------------------------------------------------------
  // Device state held by the hub
  // ---------------------------------------------------------------------------

  /** `lastSeen` is a timestamp in microseconds. */
  datatype CandlestickState = CandlestickState(
    id: string,
    connected: bool,
    program: Option<string>,
    random: Option<bool>,
    speed: Option<int>,
    direction: Option<string>,
    color: Option<string>,
    lastSeen: int)

  /** A state built from its three required fields; every optional field defaults to None. */
  function NewState(id: string, connected: bool, lastSeen: int): CandlestickState {
    CandlestickState(id, connected, None, None, None, None, None, lastSeen)
  }

  // ---------------------------------------------------------------------------
  // Websocket messages
  // ---------------------------------------------------------------------------

  datatype StatusMessage = StatusMessage(
    tag: MessageType,
    program: Option<string>,
    random: Option<bool>,
    speed: Option<int>,
    direction: Option<string>,
    color: Option<string>)

  datatype HeartbeatMessage = HeartbeatMessage(tag: MessageType)

  datatype CommandMessage = CommandMessage(
    tag: MessageType,
    program: Option<string>,
    speed: Option<int>,
    direction: Option<string>,
    color: Option<string>)

  function ParseStatusMessage(o: Object): Result<StatusMessage, string> {
    var tag :- TypeField(o, Status);
    var program :- OptionalString(o, "program");
    var random :- OptionalBool(o, "random");
    var speed :- OptionalInt(o, "speed");
    var direction :- OptionalString(o, "direction");
    var color :- OptionalString(o, "color");
    Ok(StatusMessage(tag, program, random, speed, direction, color))
  }

  function ParseHeartbeatMessage(o: Object): Result<HeartbeatMessage, string> {
    var tag :- TypeField(o, Heartbeat);
    Ok(HeartbeatMessage(tag))
  }

  function ParseCommandMessage(o: Object): Result<CommandMessage, string> {
    var tag :- TypeField(o, Command);
    var program :- OptionalString(o, "program");
    var speed :- OptionalInt(o, "speed");
    var direction :- OptionalString(o, "direction");
    var color :- OptionalString(o, "color");
    Ok(CommandMessage(tag, program, speed, direction, color))
  }

  /** Each message shape supplies its own tag when the object has no `type` key. */
  lemma DefaultTags(o: Object)
    requires "type" !in o
    ensures ParseStatusMessage(o).Ok? ==> ParseStatusMessage(o).value.tag == Status
    ensures ParseHeartbeatMessage(o) == Ok(HeartbeatMessage(Heartbeat))
    ensures ParseCommandMessage(o).Ok? ==> ParseCommandMessage(o).value.tag == Command
  {
  }

  /** Status and command messages accept any integer speed; only the operator command is bounded. */
  lemma OnlyOperatorCommandBoundsSpeed(n: int)
    ensures ParseStatusMessage(map["speed" := Int(n)]).Ok?
    ensures ParseCommandMessage(map["speed" := Int(n)]).Ok?
    ensures ParseCandlestickCommand(map["speed" := Int(n)]).Ok? <==> 1 <= n <= 100
  {
  }
}
