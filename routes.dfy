/** The customer-facing query API in front of the customer support agent: a question
    opens a task holding it as a `msg_query_` message, a follow-up question is appended
    to an existing task, and each answer is read off the task after the agent ran. */
module Routes {
  import opened Options
  import opened Strings
  import opened Models
  import opened AgentCommon
  import Server
  import SupportAgent

  /** The title of every task opened by a question. */
  const QueryTitle: string := "고객 질문"

  /** The answer given while the task holds no more than the question itself. */
  const Placeholder: string := "응답을 생성 중입니다..."

  /** The body of `POST /query` and of `POST /tasks/{id}/messages`. */
  datatype QueryRequest = QueryRequest(query: string, metadata: Option<map<string, Value>>)

  /** `QueryResponse`: the answer and the task it belongs to. */
  datatype QueryResponse = QueryResponse(response: Content, taskId: string)

  /** How an API call ends: with a body, with 404, or with the exception the agent
      raised (answered as an internal server error). */
  datatype ApiResult = Answered(body: QueryResponse) | NotFound | InternalError

  /** `f"msg_query_{suffix}"`. */
  function QueryMessageId(suffix: string): string {
    "msg_query_" + suffix
  }

  /** The question as a message, at clock reading `now`. */
  function QueryMessage(suffix: string, query: string, now: nat): Message {
    NewMessage(QueryMessageId(suffix), Text(query), now)
  }

  /** The task `handle_query` opens for a question: a fresh `task_` id, the question
      as description, and the question as its one message, named after the task. */
  function QueryTask(req: QueryRequest, hex: string, now: nat): (t: Task)
    requires IsHexToken(hex, 10)
    ensures Server.IsGeneratedTaskId(t.id) && t.id == Server.GeneratedTaskId(hex)
    ensures t.title == QueryTitle && t.description == req.query
    ensures t.metadata == req.metadata.GetOr(map[]) && t.status == CREATED
    ensures t.createdAt == now && t.updatedAt == now
    ensures t.messages == [QueryMessage(t.id, req.query, now)]
  {
    var id := Server.GeneratedTaskId(hex);
    assert id[5..] == hex;
    NewTask(id, QueryTitle, req.query, now).(metadata := req.metadata.GetOr(map[]), messages := [QueryMessage(id, req.query, now)])
  }

  /** The answer read off a task's messages: the latest message's content once there is
      more than one message, the placeholder before that. */
  function ReplyContent(messages: seq<Message>): Content {
    if |messages| > 1 then messages[|messages| - 1].content else Text(Placeholder)
  }

  /** A new question's message passes the agent's `msg_` gate, so the agent takes the
      question as its query. */
  lemma {:induction false} NewQuestionIsQuery(req: QueryRequest, hex: string, now: nat)
    requires IsHexToken(hex, 10)
    ensures NextTurn(QueryTask(req, hex, now)) == Query(req.query)
  {
    assert StartsWith(QueryMessageId(Server.GeneratedTaskId(hex)), "msg_");
  }

  /** So does a follow-up question appended to any task, whatever it held before. */
  lemma {:induction false} FollowUpIsQuery(t: Task, suffix: string, query: string, now: nat)
    ensures NextTurn(Append(t, QueryMessage(suffix, query, now))) == Query(query)
  {
    assert StartsWith(QueryMessageId(suffix), "msg_");
  }

  /** Once the agent has added anything after the question, the answer is the agent's
      latest message and never the placeholder; before that it is the placeholder. */
  lemma {:induction false} ReplyIsLatestAgentMessage(before: seq<Message>, after: seq<Message>)
    requires 1 <= |before| < |after| && after[..|before|] == before
    ensures ReplyContent(after) == after[|after| - 1].content
    ensures ReplyContent(before) == Text(Placeholder) <==>
              |before| == 1 || before[|before| - 1].content == Text(Placeholder)
  {
  }

  /** The router, bound to the customer support agent by `init_routes`. */
  class QueryApi {
    const agent: SupportAgent.CustomerSupportAgent

    constructor (agent: SupportAgent.CustomerSupportAgent)
      ensures this.agent == agent
    {
      this.agent := agent;
    }

    /** `POST /query`: the question's task is stored under a fresh id and processed
        where it is stored; the answer names that id and is the agent's latest message —
        never the placeholder, since the agent always adds to a question it reads. */
    method HandleQuery(req: QueryRequest, hex: string, env: SupportAgent.Collaborators,
                       script: SupportAgent.RemoteScript, now: nat) returns (r: ApiResult)
      requires agent.server.Valid() && IsHexToken(hex, 10)
      requires |script.polls| == SupportAgent.MaxRetries && IsHexToken(script.taskHex, 10)
      modifies agent.server`tasks, agent.client`registered
      ensures agent.server.Valid()
      ensures var id := Server.GeneratedTaskId(hex);
              id in agent.server.tasks &&
              agent.server.tasks == old(agent.server.tasks)[id := agent.server.tasks[id]]
      ensures var stored := agent.server.tasks[Server.GeneratedTaskId(hex)];
              stored.status == IN_PROGRESS && stored.description == req.query &&
              1 <= |stored.messages| && stored.messages[0] == QueryMessage(stored.id, req.query, now)
      ensures r.Answered? || r == InternalError
      ensures r == InternalError <==>
                SupportAgent.Dispatch(env.classify(req.query), req.query, env) == SupportAgent.Crash
      ensures r == InternalError ==>
                agent.server.tasks[Server.GeneratedTaskId(hex)] == QueryTask(req, hex, now).(status := IN_PROGRESS)
      ensures r.Answered? ==>
                var stored := agent.server.tasks[Server.GeneratedTaskId(hex)];
                2 <= |stored.messages| && r.body.taskId == stored.id &&
                r.body.response == ReplyContent(stored.messages) &&
                r.body.response == stored.messages[|stored.messages| - 1].content
    {
      var task := QueryTask(req, hex, now);
      agent.server.Put(task);
      NewQuestionIsQuery(req, hex, now);
      var processed, crashed := agent.ProcessTask(task, env, script, now);
      agent.server.Put(processed);
      if crashed {
        return InternalError;
      }
      ReplyIsLatestAgentMessage(task.messages, processed.messages);
      r := Answered(QueryResponse(ReplyContent(processed.messages), task.id));
    }

    /** `GET /tasks/{id}`: the stored task, or 404. */
    function GetTask(id: string): (r: Server.Response<Task>)
      reads agent, agent.server
      requires agent.server.Valid()
      ensures r.Ok? || r == Server.NotFound
      ensures r.Ok? <==> id in agent.server.tasks
      ensures r.Ok? ==> r.value == agent.server.tasks[id] && r.value.id == id
    {
      agent.server.GetTask(id)
    }

    /** `POST /tasks/{id}/messages`: 404 on an unknown task, with nothing changed;
        otherwise the question is appended as a `msg_query_` message — status and
        `updated_at` untouched — the task is processed where it is stored, and the
        answer is the agent's latest message. */
    method AddMessage(taskId: string, req: QueryRequest, hex: string, env: SupportAgent.Collaborators,
                      script: SupportAgent.RemoteScript, now: nat) returns (r: ApiResult)
      requires agent.server.Valid() && IsHexToken(hex, 8)
      requires |script.polls| == SupportAgent.MaxRetries && IsHexToken(script.taskHex, 10)
      modifies agent.server`tasks, agent.client`registered
      ensures agent.server.Valid()
      ensures r == NotFound <==> taskId !in old(agent.server.tasks)
      ensures r == NotFound ==>
                agent.server.tasks == old(agent.server.tasks) && agent.client.registered == old(agent.client.registered)
      ensures r != NotFound ==>
                var before := old(agent.server.tasks)[taskId];
                taskId in agent.server.tasks &&
                var stored := agent.server.tasks[taskId];
                agent.server.tasks == old(agent.server.tasks)[taskId := stored] &&
                stored.status == IN_PROGRESS &&
                |before.messages| + 1 <= |stored.messages| &&
                stored.messages[..|before.messages| + 1] == before.messages + [QueryMessage(hex, req.query, now)]
      ensures r == InternalError <==>
                taskId in old(agent.server.tasks) &&
                SupportAgent.Dispatch(env.classify(req.query), req.query, env) == SupportAgent.Crash
      ensures r.Answered? ==>
                var before := old(agent.server.tasks)[taskId];
                taskId in agent.server.tasks &&
                var stored := agent.server.tasks[taskId];
                |before.messages| + 2 <= |stored.messages| && r.body.taskId == taskId &&
                r.body.response == ReplyContent(stored.messages) &&
                r.body.response == stored.messages[|stored.messages| - 1].content
    {
      if taskId !in agent.server.tasks {
        return NotFound;
      }
      var task := agent.server.tasks[taskId];
      FollowUpIsQuery(task, hex, req.query, now);
      task := Append(task, QueryMessage(hex, req.query, now));
      agent.server.Put(task);
      var processed, crashed := agent.ProcessTask(task, env, script, now);
      agent.server.Put(processed);
      if crashed {
        return InternalError;
      }
      ReplyIsLatestAgentMessage(task.messages, processed.messages);
      r := Answered(QueryResponse(ReplyContent(processed.messages), taskId));
    }
  }
}
