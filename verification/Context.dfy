/** The runtime context of a run: its message history, pending executions and pointers into plan and log. */
module Context {
  import opened Prelude
  import opened Json
  import opened Text
  import opened Models

  const BAD_ROLE := "role must be one of system,user,assistant,tool"
  const NO_CONTENT := "content must be a non-empty string"
  const EMPTY_ID := "execution_id must be a non-empty string"

  /** As handed in when raw; as the store gives it back (role and content trimmed) once it is part of a snapshot. */
  datatype Message = Message(role: string, content: string, name: Option<string>, toolCallId: Option<string>,
                             meta: map<string, Json>)

  datatype Snapshot = Snapshot(
    turn: nat,
    step: nat,
    plannerVersion: int,
    messages: seq<Message>,
    memory: map<string, Json>,
    pendingLast: Option<ExecId>,
    pending: seq<ExecId>,
    checkpointSeq: Option<nat>)

  /** `AgentMessage.from_dict`. */
  function Validate(m: Message): Outcome<Message> {
    var role, content := Strip(m.role), Strip(m.content);
    if role != "system" && role != "user" && role != "assistant" && role != "tool" then
      Err(BAD_ROLE)
    else if content == "" then Err(NO_CONTENT)
    else Ok(m.(role := role, content := content))
  }

  function ValidateAll(ms: seq<Message>): Outcome<seq<Message>> {
    if ms == [] then Ok([])
    else
      match Validate(ms[0])
      case Err(e) => Err(e)
      case Ok(m) =>
        match ValidateAll(ms[1..])
        case Err(e) => Err(e)
        case Ok(rest) => Ok([m] + rest)
  }

  function InitContext(seed: seq<Message>, memory: map<string, Json>): Outcome<Snapshot> {
    match ValidateAll(seed)
    case Err(e) => Err(e)
    case Ok(ms) => Ok(Snapshot(|ms|, 0, 0, ms, memory, None, [], None))
  }

  function AppendMessage(c: Snapshot, m: Message): Outcome<Snapshot> {
    match Validate(m)
    case Err(e) => Err(e)
    case Ok(clean) => Ok(c.(messages := c.messages + [clean], turn := c.turn + 1))
  }

  function SyncPlanner(c: Snapshot, version: int, cursor: Option<nat>): Snapshot {
    c.(plannerVersion := version, step := if cursor.Some? then cursor.value else c.step)
  }

  /** `_project_pending_ids_with_add`. */
  function PendingWith(pending: seq<ExecId>, id: ExecId): seq<ExecId> {
    if id in pending then pending else pending + [id]
  }

  function SetPending(c: Snapshot, pending: seq<ExecId>): Snapshot {
    c.(pending := pending, pendingLast := Last(pending))
  }

  function AddPending(c: Snapshot, id: ExecId): Outcome<Snapshot> {
    if id == "" then Err(EMPTY_ID) else Ok(SetPending(c, PendingWith(c.pending, id)))
  }

  function ClearPending(c: Snapshot, id: ExecId): Snapshot {
    SetPending(c, Without(c.pending, id))
  }

  function CheckpointContext(c: Snapshot, seqId: nat): Snapshot {
    c.(checkpointSeq := Some(seqId))
  }
}
