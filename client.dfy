/** The protocol client: a registry of discovered agent cards, and the remote
    operations that are allowed only against a registered agent. The transport is
    abstract: each call is given the remote's reply to the request it builds. */
module Client {
  import opened Options
  import opened Strings
  import opened Models

  /** A request body as sent on the wire. */
  datatype Body =
    | TaskBody(id: string, title: string, description: string, metadata: map<string, Value>)
    | MessageBody(id: string, msgType: MessageType, content: string)

  datatype Request = Get(url: string) | Post(url: string, body: Body)

  /** The remote's answer once status and schema are checked: the expected record, or
      `Failed` for a transport error, a non-2xx status or a body of the wrong shape. */
  datatype Reply = CardReply(card: AgentCard) | TaskReply(task: Task) | MessageReply(message: Message) | Failed

  /** What a client call returns or raises: `UnknownAgent` is the `ValueError` for an
      unregistered key, `RemoteError` the wrapped transport or protocol failure. */
  datatype ClientResult<T> = Ok(value: T) | UnknownAgent | RemoteError

  /** One client call: the request it put on the wire (none if it stopped before) and its result. */
  datatype Exchange<T> = Exchange(sent: Option<Request>, result: ClientResult<T>)

  function CardUrl(agentUrl: string): string {
    agentUrl + "/.well-known/agent.json"
  }

  function TasksUrl(baseUrl: string): string {
    baseUrl + "/a2a/tasks"
  }

  function TaskUrl(baseUrl: string, taskId: string): string {
    baseUrl + "/a2a/tasks/" + taskId
  }

  function MessagesUrl(baseUrl: string, taskId: string): string {
    baseUrl + "/a2a/tasks/" + taskId + "/messages"
  }

  /** The result a call gets from a reply of the expected kind. */
  function TaskResult(reply: Reply): (r: ClientResult<Task>)
    ensures r.Ok? <==> reply.TaskReply?
    ensures r.Ok? ==> r.value == reply.task
    ensures !r.Ok? ==> r == RemoteError
  {
    if reply.TaskReply? then Ok(reply.task) else RemoteError
  }

  class A2AClient {
    const agentId: string
    const baseUrl: Option<string>
    /** `registered_agents`: agent cards by key. */
    var registered: map<string, AgentCard>

    constructor (agentId: string, baseUrl: Option<string>)
      ensures this.agentId == agentId && this.baseUrl == baseUrl && registered == map[]
    {
      this.agentId := agentId;
      this.baseUrl := baseUrl;
      registered := map[];
    }

    /** `discover_agent`: fetches the card at `agentUrl` and, on success, registers it
        under the card's own id; a failure raises and registers nothing. */
    method DiscoverAgent(agentUrl: string, reply: Reply) returns (sent: Request, r: ClientResult<AgentCard>)
      modifies this`registered
      ensures sent == Get(CardUrl(agentUrl))
      ensures r.Ok? || r == RemoteError
      ensures r.Ok? <==> reply.CardReply?
      ensures r.Ok? ==> r.value == reply.card && registered == old(registered)[reply.card.id := reply.card]
      ensures !r.Ok? ==> registered == old(registered)
    {
      sent := Get(CardUrl(agentUrl));
      if reply.CardReply? {
        registered := registered[reply.card.id := reply.card];
        r := Ok(reply.card);
      } else {
        r := RemoteError;
      }
    }

    /** `create_task`: refused before any request for an unregistered key; otherwise one
        POST of a fresh `task_` id and `metadata or {}` to the agent's task collection. */
    function CreateTask(agentKey: string, title: string, description: string,
                        metadata: Option<map<string, Value>>, hex: string, reply: Reply): (x: Exchange<Task>)
      reads this
      requires IsHexToken(hex, 10)
      ensures x.result == UnknownAgent <==> agentKey !in registered
      ensures agentKey !in registered ==> x.sent == None
      ensures agentKey in registered ==> x.sent == Some(Post(TasksUrl(registered[agentKey].baseUrl),
                                                       TaskBody("task_" + hex, title, description, metadata.GetOr(map[]))))
      ensures x.result.Ok? <==> agentKey in registered && reply.TaskReply?
      ensures x.result.Ok? ==> x.result.value == reply.task
    {
      if agentKey !in registered then Exchange(None, UnknownAgent)
      else
        var body := TaskBody("task_" + hex, title, description, metadata.GetOr(map[]));
        Exchange(Some(Post(TasksUrl(registered[agentKey].baseUrl), body)), TaskResult(reply))
    }

    /** `send_message`: the same guard; otherwise one POST of a fresh `msg_` id to the task's messages. */
    function SendMessage(agentKey: string, taskId: string, content: string, hex: string, reply: Reply,
                         msgType: MessageType := TEXT): (x: Exchange<Message>)
      reads this
      requires IsHexToken(hex, 10)
      ensures x.result == UnknownAgent <==> agentKey !in registered
      ensures agentKey !in registered ==> x.sent == None
      ensures agentKey in registered ==> x.sent == Some(Post(MessagesUrl(registered[agentKey].baseUrl, taskId),
                                                       MessageBody("msg_" + hex, msgType, content)))
      ensures x.result.Ok? <==> agentKey in registered && reply.MessageReply?
      ensures x.result.Ok? ==> x.result.value == reply.message
    {
      if agentKey !in registered then Exchange(None, UnknownAgent)
      else
        var sent := Post(MessagesUrl(registered[agentKey].baseUrl, taskId), MessageBody("msg_" + hex, msgType, content));
        Exchange(Some(sent), if reply.MessageReply? then Ok(reply.message) else RemoteError)
    }

    /** `get_task_status`: the same guard; otherwise one GET of the task. */
    function GetTaskStatus(agentKey: string, taskId: string, reply: Reply): (x: Exchange<Task>)
      reads this
      ensures x.result == UnknownAgent <==> agentKey !in registered
      ensures agentKey !in registered ==> x.sent == None
      ensures agentKey in registered ==> x.sent == Some(Get(TaskUrl(registered[agentKey].baseUrl, taskId)))
      ensures x.result.Ok? <==> agentKey in registered && reply.TaskReply?
      ensures x.result.Ok? ==> x.result.value == reply.task
    {
      if agentKey !in registered then Exchange(None, UnknownAgent)
      else Exchange(Some(Get(TaskUrl(registered[agentKey].baseUrl, taskId))), TaskResult(reply))
    }
  }
}
