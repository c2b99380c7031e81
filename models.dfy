/** The protocol's records: messages, tasks, agent cards and their enumerations,
    with the defaults the pydantic models give to fields left out. Timestamps are
    readings of a monotone clock (`nat`) supplied by the caller. */
module Models {
  import opened Options

  /** `MessageType`: exactly five kinds of message. */
  datatype MessageType = TEXT | IMAGE | AUDIO | VIDEO | FILE

  /** The wire value of each message type. */
  function MessageTypeName(t: MessageType): string {
    match t
    case TEXT => "text"
    case IMAGE => "image"
    case AUDIO => "audio"
    case VIDEO => "video"
    case FILE => "file"
  }

  /** `MessageType(s)`: the type whose wire value is `s`, or nothing (the enum raises). */
  function ParseMessageType(s: string): (r: Option<MessageType>)
    ensures r.Some? ==> MessageTypeName(r.value) == s
  {
    if s == "text" then Some(TEXT)
    else if s == "image" then Some(IMAGE)
    else if s == "audio" then Some(AUDIO)
    else if s == "video" then Some(VIDEO)
    else if s == "file" then Some(FILE)
    else None
  }

  /** Every message type is accepted back from its wire value, and nothing else is. */
  lemma MessageTypeRoundTrip(t: MessageType, s: string)
    ensures ParseMessageType(MessageTypeName(t)) == Some(t)
    ensures ParseMessageType(s) == Some(t) <==> s == MessageTypeName(t)
  {
  }

  /** `TaskStatus`: exactly six states of a task. */
  datatype TaskStatus = CREATED | IN_PROGRESS | WAITING_FOR_INPUT | COMPLETED | FAILED | CANCELLED {
    /** The states after which the design expects no further progress. */
    predicate IsTerminal() {
      this == COMPLETED || this == FAILED || this == CANCELLED
    }
  }

  function StatusName(s: TaskStatus): string {
    match s
    case CREATED => "created"
    case IN_PROGRESS => "in_progress"
    case WAITING_FOR_INPUT => "waiting_for_input"
    case COMPLETED => "completed"
    case FAILED => "failed"
    case CANCELLED => "cancelled"
  }

  /** `TaskStatus(s)`: the status whose wire value is `s`, or nothing (the enum raises). */
  function ParseStatus(s: string): (r: Option<TaskStatus>)
    ensures r.Some? ==> StatusName(r.value) == s
  {
    if s == "created" then Some(CREATED)
    else if s == "in_progress" then Some(IN_PROGRESS)
    else if s == "waiting_for_input" then Some(WAITING_FOR_INPUT)
    else if s == "completed" then Some(COMPLETED)
    else if s == "failed" then Some(FAILED)
    else if s == "cancelled" then Some(CANCELLED)
    else None
  }

  /** Every status is accepted back from its wire value, and nothing else is. */
  lemma StatusRoundTrip(st: TaskStatus, s: string)
    ensures ParseStatus(StatusName(st)) == Some(st)
    ensures ParseStatus(s) == Some(st) <==> s == StatusName(st)
  {
  }

  /** A JSON value, as carried in metadata, structured content and capability parameters. */
  datatype Value =
    | Null
    | Bool(b: bool)
    | Int(i: int)
    | Str(s: string)
    | Array(items: seq<Value>)
    | Object(fields: map<string, Value>)

  /** A message's content: either plain text or a string-keyed structure. */
  datatype Content = Text(text: string) | Structured(fields: map<string, Value>) {
    /** Python truthiness of the content (`if message.content:`). */
    predicate IsTruthy() {
      match this
      case Text(s) => s != ""
      case Structured(m) => |m| != 0
    }
  }

  /** `Message`; `msgType` defaults to `TEXT` when not given. */
  datatype Message = Message(id: string, content: Content, createdAt: nat, msgType: MessageType := TEXT)

  /** `Task`; a task built without status, messages or metadata starts `CREATED`, empty and with no metadata. */
  datatype Task = Task(
    id: string,
    title: string,
    description: string,
    createdAt: nat,
    updatedAt: nat,
    status: TaskStatus := CREATED,
    messages: seq<Message> := [],
    metadata: map<string, Value> := map[])

  /** `Task(id=..., title=..., description=...)` at clock reading `now`, all other fields defaulted. */
  function NewTask(id: string, title: string, description: string, now: nat): (t: Task)
    ensures t.id == id && t.title == title && t.description == description
    ensures t.status == CREATED && t.messages == [] && t.metadata == map[]
    ensures t.createdAt == now && t.updatedAt == now
  {
    Task(id, title, description, now, now)
  }

  /** `Message(id=..., content=...)` at clock reading `now`, its type defaulted. */
  function NewMessage(id: string, content: Content, now: nat): (m: Message)
    ensures m.id == id && m.content == content && m.createdAt == now
    ensures m.msgType == TEXT
  {
    Message(id, content, now)
  }

  /** `AgentCapability`; its parameter schema is optional. */
  datatype AgentCapability = AgentCapability(name: string, description: string, parameters: Option<map<string, Value>> := None)

  /** `AgentCard`; without them it has no capabilities and does not require authentication. */
  datatype AgentCard = AgentCard(
    id: string,
    name: string,
    description: string,
    version: string,
    baseUrl: string,
    capabilities: seq<AgentCapability> := [],
    authRequired: bool := false)

  /** `AgentCard(id=..., name=..., description=..., version=..., base_url=...)`. */
  function NewAgentCard(id: string, name: string, description: string, version: string, baseUrl: string): (c: AgentCard)
    ensures c.id == id && c.baseUrl == baseUrl
    ensures c.capabilities == [] && !c.authRequired
  {
    AgentCard(id, name, description, version, baseUrl)
  }

  /** `AgentCapability(name=..., description=...)`. */
  function NewCapability(name: string, description: string): (c: AgentCapability)
    ensures c.name == name && c.description == description && c.parameters == None
  {
    AgentCapability(name, description)
  }

  /** `task.messages.append(m)`: the new message goes last, the earlier ones stay as they were. */
  function Append(t: Task, m: Message): (r: Task)
    ensures r.messages == t.messages + [m]
    ensures |r.messages| == |t.messages| + 1 && r.messages[|t.messages|] == m
    ensures r.id == t.id && r.status == t.status && r.updatedAt == t.updatedAt
    ensures r.createdAt == t.createdAt && r.title == t.title && r.description == t.description && r.metadata == t.metadata
  {
    t.(messages := t.messages + [m])
  }
}
