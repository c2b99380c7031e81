/** The product agent's own HTTP endpoints, which work directly on the agent's task
    store instead of going through the shared protocol server: their task and message
    records have narrower enumerations, creation overwrites, and posting only takes text. */
module ProductEndpoints {
  import opened Options
  import opened Strings
  import opened Models
  import Server
  import ProductAgent

  /** The endpoints' own `TaskStatus`: three of the protocol's six states. */
  datatype LocalStatus = Created | InProgress | Completed

  function LocalStatusName(s: LocalStatus): string {
    match s
    case Created => "created"
    case InProgress => "in_progress"
    case Completed => "completed"
  }

  /** The protocol status with the same wire value. */
  function Widen(s: LocalStatus): (r: TaskStatus)
    ensures StatusName(r) == LocalStatusName(s)
    ensures r != WAITING_FOR_INPUT && r != FAILED && r != CANCELLED
  {
    match s
    case Created => CREATED
    case InProgress => IN_PROGRESS
    case Completed => COMPLETED
  }

  /** Each local status is read back by the protocol as the status it widens to, and
      only the three states `created`, `in_progress`, `completed` are local ones. */
  lemma LocalStatusesAreProtocolStatuses(s: LocalStatus, st: TaskStatus)
    ensures ParseStatus(LocalStatusName(s)) == Some(Widen(s))
    ensures (exists l :: Widen(l) == st) <==> st == CREATED || st == IN_PROGRESS || st == COMPLETED
  {
    StatusRoundTrip(Widen(s), LocalStatusName(s));
    if st == CREATED {
      assert Widen(Created) == st;
    } else if st == IN_PROGRESS {
      assert Widen(InProgress) == st;
    } else if st == COMPLETED {
      assert Widen(Completed) == st;
    }
  }

  /** The endpoints' own `MessageType`: text, image and video only. */
  function ParseLocalMessageType(s: string): (r: Option<MessageType>)
    ensures r.Some? <==> s == "text" || s == "image" || s == "video"
    ensures r.Some? ==> MessageTypeName(r.value) == s
  {
    if s == "text" then Some(TEXT)
    else if s == "image" then Some(IMAGE)
    else if s == "video" then Some(VIDEO)
    else None
  }

  /** The message `send_message` builds: id, type and content default to a fresh `msg_`
      id, `TEXT` and the empty text; a type outside the local three, or content that is
      not a string, fails validation. */
  function LocalMessageFromRequest(req: Server.MessageRequest, hex: string, now: nat): (r: Server.Response<Message>)
    requires IsHexToken(hex, 10)
    ensures r.Ok? || r == Server.Invalid
    ensures r == Server.Invalid <==>
              (req.msgType.Some? && ParseLocalMessageType(req.msgType.value).None?) ||
              (req.content.Some? && req.content.value.Structured?)
    ensures r.Ok? ==> r.value.createdAt == now && r.value.content == req.content.GetOr(Text(""))
    ensures r.Ok? && req.id.Some? ==> r.value.id == req.id.value
    ensures r.Ok? && req.id.None? ==> Server.IsGeneratedMessageId(r.value.id)
    ensures r.Ok? && req.msgType.None? ==> r.value.msgType == TEXT
    ensures r.Ok? && req.msgType.Some? ==> MessageTypeName(r.value.msgType) == req.msgType.value
  {
    var id := req.id.GetOr(Server.GeneratedMessageId(hex));
    assert req.id.None? ==> id[4..] == hex;
    var msgType := if req.msgType.Some? then ParseLocalMessageType(req.msgType.value) else Some(TEXT);
    var content := req.content.GetOr(Text(""));
    if msgType.None? || content.Structured? then Server.Invalid
    else Server.Ok(Message(id, content, now, msgType.value))
  }

  /** Whatever these endpoints accept, the shared server accepts as the same message;
      audio and file messages and structured content are accepted only there. */
  lemma LocalMessagesAreProtocolMessages(req: Server.MessageRequest, hex: string, now: nat)
    requires IsHexToken(hex, 10)
    ensures LocalMessageFromRequest(req, hex, now).Ok? ==>
              Server.MessageFromRequest(req, hex, now) == LocalMessageFromRequest(req, hex, now)
    ensures req.msgType == Some("audio") || req.msgType == Some("file") ==>
              LocalMessageFromRequest(req, hex, now) == Server.Invalid
  {
    if LocalMessageFromRequest(req, hex, now).Ok? && req.msgType.Some? {
      var s := req.msgType.value;
      assert ParseMessageType(s) == ParseLocalMessageType(s);
    }
  }

  /** The endpoint module, holding the agent whose store the endpoints read and write. */
  class ProductService {
    const agent: ProductAgent.ProductAgent

    constructor ()
      ensures fresh(agent) && fresh(agent.server) && agent.server.tasks == map[] && agent.server.Valid()
    {
      agent := new ProductAgent.ProductAgent();
    }

    /** `POST /agent/a2a/tasks`: a fresh `CREATED` task with no messages is stored under
        its id, replacing whatever task had that id, and is returned. The block meant to
        keep earlier messages reads back the task just stored, so it keeps none. */
    method CreateTask(req: Server.TaskRequest, hex: string, now: nat) returns (t: Task)
      requires agent.server.Valid() && IsHexToken(hex, 10)
      modifies agent.server`tasks
      ensures agent.server.Valid()
      ensures t == Server.TaskFromRequest(req, hex, now) && t.messages == []
      ensures agent.server.tasks == old(agent.server.tasks)[t.id := t]
    {
      t := Server.TaskFromRequest(req, hex, now);
      agent.server.Put(t);
      var stored := agent.server.tasks[t.id];
      t := t.(messages := if stored.messages != [] then stored.messages else t.messages);
    }

    /** `GET /agent/a2a/tasks/{id}`: the stored task, or 404. */
    function GetTask(id: string): (r: Server.Response<Task>)
      reads agent, agent.server
      requires agent.server.Valid()
      ensures r.Ok? || r == Server.NotFound
      ensures r.Ok? <==> id in agent.server.tasks
      ensures r.Ok? ==> r.value == agent.server.tasks[id] && r.value.id == id
    {
      agent.server.GetTask(id)
    }

    /** `POST /agent/a2a/tasks/{id}/messages`: 404 on an unknown task and a message that
        fails validation leave the store as it was; otherwise the message is appended,
        `updated_at` is touched and the task becomes `IN_PROGRESS`. */
    method SendMessage(taskId: string, req: Server.MessageRequest, hex: string, now: nat)
      returns (r: Server.Response<Message>)
      requires agent.server.Valid() && IsHexToken(hex, 10)
      modifies agent.server`tasks
      ensures agent.server.Valid()
      ensures r.Ok? || r == Server.NotFound || r == Server.Invalid
      ensures r == Server.NotFound <==> taskId !in old(agent.server.tasks)
      ensures r == Server.Invalid <==>
                taskId in old(agent.server.tasks) && LocalMessageFromRequest(req, hex, now) == Server.Invalid
      ensures !r.Ok? ==> agent.server.tasks == old(agent.server.tasks)
      ensures r.Ok? ==> r == LocalMessageFromRequest(req, hex, now)
      ensures r.Ok? ==> agent.server.tasks ==
                          old(agent.server.tasks)[taskId := Server.Posted(old(agent.server.tasks)[taskId], r.value, now)]
    {
      if taskId !in agent.server.tasks {
        return Server.NotFound;
      }
      var task := agent.server.tasks[taskId];
      r := LocalMessageFromRequest(req, hex, now);
      if r.Ok? {
        task := Server.Posted(task, r.value, now);
        agent.server.Put(task);
      }
    }
  }
}
