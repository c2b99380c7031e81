/** Conventions every agent's `process_task` follows: the greeting on an empty task,
    the `msg_` gate on the latest message, the response-id scheme, the specialists'
    status rule, and the "first candidate that occurs in the query" search. */
module AgentCommon {
  import opened Options
  import opened Strings
  import opened Models

  /** `f"msg_greeting_{task.id}"`. */
  function GreetingId(taskId: string): string {
    "msg_greeting_" + taskId
  }

  /** `f"msg_response_{task.id}_{len(task.messages)}"`. */
  function ResponseId(taskId: string, count: nat): string {
    "msg_response_" + taskId + "_" + Decimal(count)
  }

  /** A response id names the message count it was made at: two responses to one task
      made at different counts never share an id. */
  lemma ResponseIdInjective(taskId: string, a: nat, b: nat)
    requires ResponseId(taskId, a) == ResponseId(taskId, b)
    ensures a == b
  {
    var p := "msg_response_" + taskId + "_";
    assert ResponseId(taskId, a)[|p|..] == Decimal(a);
    assert ResponseId(taskId, b)[|p|..] == Decimal(b);
    DecimalInjective(a, b);
  }

  /** The agents' own greeting and response ids pass their own `msg_` gate. */
  lemma AgentIdsPassGate(taskId: string, count: nat)
    ensures StartsWith(GreetingId(taskId), "msg_") && StartsWith(ResponseId(taskId, count), "msg_")
  {
  }

  /** What `process_task` finds on a task: nothing yet (greet), a latest message it
      ignores (its id does not start with `msg_`), a text query, or a latest message
      whose structured content the text handling cannot take. */
  datatype Turn = Greet | Ignore | Query(text: string) | Unreadable

  function NextTurn(t: Task): (r: Turn)
    ensures r == Greet <==> t.messages == []
    ensures r == Ignore <==> t.messages != [] && !StartsWith(t.messages[|t.messages| - 1].id, "msg_")
    ensures r.Query? <==> t.messages != [] && StartsWith(t.messages[|t.messages| - 1].id, "msg_")
                           && t.messages[|t.messages| - 1].content.Text?
    ensures r.Query? ==> t.messages[|t.messages| - 1].content == Text(r.text)
  {
    if t.messages == [] then Greet
    else
      var latest := t.messages[|t.messages| - 1];
      if !StartsWith(latest.id, "msg_") then Ignore
      else match latest.content
        case Text(s) => Query(s)
        case Structured(_) => Unreadable
  }

  /** The specialists' status after a reply: `COMPLETED` from four messages on, else `WAITING_FOR_INPUT`. */
  function StatusAfterReply(count: nat): TaskStatus {
    if count >= 4 then COMPLETED else WAITING_FOR_INPUT
  }

  /** An empty task after the greeting: status `IN_PROGRESS`, the one greeting message. */
  function Greeted(t: Task, greeting: string, now: nat): (r: Task)
    ensures r.id == t.id && r.status == IN_PROGRESS && r.updatedAt == t.updatedAt
    ensures r.messages == t.messages + [NewMessage(GreetingId(t.id), Text(greeting), now)]
  {
    t.(status := IN_PROGRESS, messages := t.messages + [NewMessage(GreetingId(t.id), Text(greeting), now)])
  }

  /** A specialist's answer: one message appended with the next response id, then the status rule. */
  function Answered(t: Task, reply: string, now: nat): (r: Task)
    ensures r.id == t.id && r.updatedAt == t.updatedAt
    ensures r.messages == t.messages + [NewMessage(ResponseId(t.id, |t.messages|), Text(reply), now)]
    ensures r.status == StatusAfterReply(|t.messages| + 1)
  {
    t.(messages := t.messages + [NewMessage(ResponseId(t.id, |t.messages|), Text(reply), now)],
       status := StatusAfterReply(|t.messages| + 1))
  }

  /** A specialist's `process_task` on task `t`, where `reply` answers a lower-cased query:
      greet an empty task, answer a text query from a `msg_` message with one reply and
      the status rule, and otherwise only mark the task `IN_PROGRESS`. */
  function Handled(t: Task, greeting: string, reply: string -> string, now: nat): (r: Task)
    ensures r.id == t.id && r.title == t.title && r.description == t.description
    ensures r.createdAt == t.createdAt && r.updatedAt == t.updatedAt && r.metadata == t.metadata
    ensures |r.messages| == |t.messages| + (if NextTurn(t) == Greet || NextTurn(t).Query? then 1 else 0)
    ensures r.messages[..|t.messages|] == t.messages
    ensures r.status == IN_PROGRESS || r.status == WAITING_FOR_INPUT || r.status == COMPLETED
    ensures r.status == COMPLETED <==> NextTurn(t).Query? && 4 <= |r.messages|
    ensures NextTurn(t) == Greet ==> r.status == IN_PROGRESS && r.messages == [NewMessage(GreetingId(t.id), Text(greeting), now)]
    ensures NextTurn(t).Query? ==>
              r.messages[|t.messages|] == NewMessage(ResponseId(t.id, |t.messages|), Text(reply(Lower(NextTurn(t).text))), now)
  {
    match NextTurn(t)
    case Greet => Greeted(t, greeting, now)
    case Query(q) => Answered(t, reply(Lower(q)), now)
    case Ignore => t.(status := IN_PROGRESS)
    case Unreadable => t.(status := IN_PROGRESS)
  }

  /** The status rule over a whole exchange: greeting, query, answer leaves the task
      waiting for input; a second query and answer completes it. */
  lemma {:induction false} ConversationCompletesOnSecondAnswer(t: Task, q1: Message, q2: Message,
                                                              greeting: string, a1: string, a2: string, now: nat)
    requires t.messages == []
    ensures var first := Answered(Append(Greeted(t, greeting, now), q1), a1, now);
            first.status == WAITING_FOR_INPUT &&
            Answered(Append(first, q2), a2, now).status == COMPLETED
  {
    var g := Greeted(t, greeting, now);
    assert |g.messages| == 1;
    var first := Answered(Append(g, q1), a1, now);
    assert |first.messages| == 3;
  }

  /** The index of the first candidate satisfying `p` — what a `for ... if ...: break`
      search over the candidates in order finds. */
  function FirstMatch<T>(xs: seq<T>, p: T -> bool): (r: Option<nat>)
    ensures r.Some? ==> r.value < |xs| && p(xs[r.value]) && forall j :: 0 <= j < r.value ==> !p(xs[j])
    ensures r.None? ==> forall j :: 0 <= j < |xs| ==> !p(xs[j])
    decreases |xs|
  {
    if xs == [] then None
    else if p(xs[0]) then Some(0)
    else match FirstMatch(xs[1..], p)
      case Some(i) => Some(i + 1)
      case None => None
  }

  /** The search result is determined by its characterisation: earliest satisfying index, or none. */
  lemma FirstMatchUnique<T>(xs: seq<T>, p: T -> bool, k: nat)
    requires k < |xs| && p(xs[k]) && forall j :: 0 <= j < k ==> !p(xs[j])
    ensures FirstMatch(xs, p) == Some(k)
  {
  }
}
