/** The protocol server: an in-memory task store with the create / get /
    post-message / update endpoints, and the per-task message handlers. */
module Server {
  import opened Options
  import opened Strings
  import opened Models

  /** The outcome of one endpoint call: its value, or the HTTP error it ends with
      (404 `NotFound`, 409 `Conflict`, a rejected field value `Invalid`). */
  datatype Response<T> = Ok(value: T) | NotFound | Conflict | Invalid

  /** The body of `POST /a2a/tasks`; every field may be left out. */
  datatype TaskRequest = TaskRequest(
    id: Option<string>,
    title: Option<string>,
    description: Option<string>,
    metadata: Option<map<string, Value>>)

  /** The body of `POST /a2a/tasks/{id}/messages`; every field may be left out. */
  datatype MessageRequest = MessageRequest(id: Option<string>, msgType: Option<string>, content: Option<Content>)

  /** The body of `PUT /a2a/tasks/{id}`. */
  datatype UpdateRequest = UpdateRequest(status: Option<string>)

  /** The title a task gets when the request names none. */
  const DefaultTitle: string := "새 작업"

  /** `f"task_{uuid.uuid4().hex[:10]}"`. */
  function GeneratedTaskId(hex: string): string {
    "task_" + hex
  }

  /** `f"msg_{uuid.uuid4().hex[:10]}"`. */
  function GeneratedMessageId(hex: string): string {
    "msg_" + hex
  }

  /** The shape of a task id the server makes up: `task_` and ten hexadecimal digits. */
  predicate IsGeneratedTaskId(id: string) {
    |id| == 15 && StartsWith(id, "task_") && IsHexToken(id[5..], 10)
  }

  /** The shape of a message id the server makes up: `msg_` and ten hexadecimal digits. */
  predicate IsGeneratedMessageId(id: string) {
    |id| == 14 && StartsWith(id, "msg_") && IsHexToken(id[4..], 10)
  }

  /** The task `create_task` builds from a request body at clock reading `now`. */
  function TaskFromRequest(req: TaskRequest, hex: string, now: nat): (t: Task)
    requires IsHexToken(hex, 10)
    ensures req.id.Some? ==> t.id == req.id.value
    ensures req.id.None? ==> IsGeneratedTaskId(t.id)
    ensures t.title == req.title.GetOr(DefaultTitle) && t.description == req.description.GetOr("")
    ensures t.metadata == req.metadata.GetOr(map[])
    ensures t.status == CREATED && t.messages == [] && t.createdAt == now && t.updatedAt == now
  {
    var id := req.id.GetOr(GeneratedTaskId(hex));
    assert req.id.None? ==> id[5..] == hex;
    Task(id, req.title.GetOr(DefaultTitle), req.description.GetOr(""), now, now, CREATED, [], req.metadata.GetOr(map[]))
  }

  /** The message `add_message` builds: its id, type and content default to a fresh
      `msg_` id, `TEXT` and the empty text; a type that is not a `MessageType` is refused. */
  function MessageFromRequest(req: MessageRequest, hex: string, now: nat): (r: Response<Message>)
    requires IsHexToken(hex, 10)
    ensures r.Ok? || r == Invalid
    ensures r == Invalid <==> req.msgType.Some? && ParseMessageType(req.msgType.value).None?
    ensures r.Ok? ==> r.value.createdAt == now && r.value.content == req.content.GetOr(Text(""))
    ensures r.Ok? && req.id.Some? ==> r.value.id == req.id.value
    ensures r.Ok? && req.id.None? ==> IsGeneratedMessageId(r.value.id)
    ensures r.Ok? && req.msgType.None? ==> r.value.msgType == TEXT
    ensures r.Ok? && req.msgType.Some? ==> MessageTypeName(r.value.msgType) == req.msgType.value
  {
    var id := req.id.GetOr(GeneratedMessageId(hex));
    assert req.id.None? ==> id[4..] == hex;
    var msgType := if req.msgType.Some? then ParseMessageType(req.msgType.value) else Some(TEXT);
    if msgType.None? then Invalid
    else Ok(Message(id, req.content.GetOr(Text("")), now, msgType.value))
  }

  /** What posting `m` does to its task: appended last, `updated_at` touched, status `IN_PROGRESS`. */
  function Posted(t: Task, m: Message, now: nat): (r: Task)
    ensures r.messages == t.messages + [m] && r.updatedAt == now && r.status == IN_PROGRESS
    ensures r.id == t.id && r.title == t.title && r.description == t.description
    ensures r.createdAt == t.createdAt && r.metadata == t.metadata
  {
    t.(messages := t.messages + [m], updatedAt := now, status := IN_PROGRESS)
  }

  /** What `update_task` does to a stored task: any valid status is taken as it is,
      with no check against the current one, and `updated_at` is touched; a value that is
      not a `TaskStatus` raises before anything changes. */
  function ApplyUpdate(t: Task, req: UpdateRequest, now: nat): (r: Response<Task>)
    ensures r.Ok? || r == Invalid
    ensures r == Invalid <==> req.status.Some? && ParseStatus(req.status.value).None?
    ensures r.Ok? ==> r.value.updatedAt == now && r.value.messages == t.messages && r.value.id == t.id
    ensures r.Ok? ==> r.value.createdAt == t.createdAt && r.value.metadata == t.metadata
    ensures r.Ok? && req.status.Some? ==> StatusName(r.value.status) == req.status.value
    ensures r.Ok? && req.status.None? ==> r.value.status == t.status
  {
    if req.status.None? then Ok(t.(updatedAt := now))
    else match ParseStatus(req.status.value)
      case None => Invalid
      case Some(s) => Ok(t.(status := s, updatedAt := now))
  }

  /** There is no transition table: every status, terminal or not, can be set on every task. */
  lemma UpdateSkipsTransitionCheck(t: Task, s: TaskStatus, now: nat)
    ensures ApplyUpdate(t, UpdateRequest(Some(StatusName(s))), now) == Ok(t.(status := s, updatedAt := now))
  {
    StatusRoundTrip(s, StatusName(s));
  }

  class A2AServer {
    const card: AgentCard
    var tasks: map<string, Task>
    /** `message_handlers`: the handler registered for each task id, by name. */
    var handlers: map<string, string>

    /** Every task is stored under its own id. */
    ghost predicate Valid()
      reads this
    {
      forall id :: id in tasks ==> tasks[id].id == id
    }

    constructor (card: AgentCard)
      ensures this.card == card && tasks == map[] && handlers == map[] && Valid()
    {
      this.card := card;
      tasks := map[];
      handlers := map[];
    }

    /** `GET /a2a/.well-known/agent.json`. */
    function GetAgentCard(): (c: AgentCard)
      ensures c == card
    {
      card
    }

    /** `POST /a2a/tasks`: a clash with a stored id is refused with 409 and changes nothing;
        otherwise exactly one new `CREATED` task is stored under its id. */
    method CreateTask(req: TaskRequest, hex: string, now: nat) returns (r: Response<Task>)
      requires Valid() && IsHexToken(hex, 10)
      modifies this`tasks
      ensures Valid()
      ensures r.Ok? || r == Conflict
      ensures r == Conflict <==> req.id.GetOr(GeneratedTaskId(hex)) in old(tasks)
      ensures r == Conflict ==> tasks == old(tasks)
      ensures r.Ok? ==> r.value == TaskFromRequest(req, hex, now)
      ensures r.Ok? ==> r.value.id !in old(tasks) && tasks == old(tasks)[r.value.id := r.value]
    {
      var id := req.id.GetOr(GeneratedTaskId(hex));
      if id in tasks {
        return Conflict;
      }
      var task := TaskFromRequest(req, hex, now);
      tasks := tasks[id := task];
      r := Ok(task);
    }

    /** `GET /a2a/tasks/{id}`: the stored task, or 404; reading changes nothing. */
    function GetTask(id: string): (r: Response<Task>)
      reads this
      requires Valid()
      ensures r.Ok? || r == NotFound
      ensures r.Ok? <==> id in tasks
      ensures r.Ok? ==> r.value == tasks[id] && r.value.id == id
    {
      if id in tasks then Ok(tasks[id]) else NotFound
    }

    /** `handle_new_message`: the handler that is invoked for a message on `taskId` —
        the one registered for that id, if any, and no other. */
    function HandlerFor(taskId: string): (h: Option<string>)
      reads this
      ensures h.Some? <==> taskId in handlers
      ensures h.Some? ==> h.value == handlers[taskId]
    {
      if taskId in handlers then Some(handlers[taskId]) else None
    }

    /** `POST /a2a/tasks/{id}/messages`: 404 on an unknown task and a refused type
        leave the store as it was; otherwise exactly one message is appended, the task
        becomes `IN_PROGRESS`, and the task's own handler (only) is invoked. */
    method AddMessage(taskId: string, req: MessageRequest, hex: string, now: nat)
      returns (r: Response<Message>, invoked: Option<string>)
      requires Valid() && IsHexToken(hex, 10)
      modifies this`tasks
      ensures Valid()
      ensures r.Ok? || r == NotFound || r == Invalid
      ensures r == NotFound <==> taskId !in old(tasks)
      ensures r == Invalid <==> taskId in old(tasks) && MessageFromRequest(req, hex, now) == Invalid
      ensures !r.Ok? ==> tasks == old(tasks) && invoked == None
      ensures r.Ok? ==> r == MessageFromRequest(req, hex, now) && invoked == HandlerFor(taskId)
      ensures r.Ok? ==> tasks == old(tasks)[taskId := Posted(old(tasks)[taskId], r.value, now)]
    {
      invoked := None;
      if taskId !in tasks {
        return NotFound, None;
      }
      r := MessageFromRequest(req, hex, now);
      if r.Ok? {
        tasks := tasks[taskId := Posted(tasks[taskId], r.value, now)];
        invoked := HandlerFor(taskId);
      }
    }

    /** `PUT /a2a/tasks/{id}`: 404 on an unknown task; otherwise `ApplyUpdate`, stored. */
    method UpdateTask(taskId: string, req: UpdateRequest, now: nat) returns (r: Response<Task>)
      requires Valid()
      modifies this`tasks
      ensures Valid()
      ensures r == NotFound <==> taskId !in old(tasks)
      ensures taskId in old(tasks) ==> r == ApplyUpdate(old(tasks)[taskId], req, now)
      ensures r.Ok? ==> tasks == old(tasks)[taskId := r.value]
      ensures !r.Ok? ==> tasks == old(tasks)
    {
      if taskId !in tasks {
        return NotFound;
      }
      r := ApplyUpdate(tasks[taskId], req, now);
      if r.Ok? {
        tasks := tasks[taskId := r.value];
      }
    }

    /** `register_message_handler`: registering again for the same id replaces the handler. */
    method RegisterMessageHandler(taskId: string, handler: string)
      modifies this`handlers
      ensures handlers == old(handlers)[taskId := handler]
    {
      handlers := handlers[taskId := handler];
    }

    /** `self.server.tasks[task.id] = task`, as the agents and the query API write it. */
    method Put(t: Task)
      requires Valid()
      modifies this`tasks
      ensures Valid()
      ensures tasks == old(tasks)[t.id := t]
    {
      tasks := tasks[t.id := t];
    }
  }
}
