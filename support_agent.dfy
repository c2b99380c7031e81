/** The customer-support agent: answers a task's latest query itself or delegates it
    to the product, shipping or billing agent, creating a remote task and polling it a
    bounded number of times. The classifier, knowledge base and text generator are
    parameters; so are the remote's replies to each request. */
module SupportAgent {
  import opened Options
  import opened Strings
  import opened Models
  import opened Client
  import opened AgentCommon
  import Server

  /** What `categorize_query` returns: it falls back to `general`, so always one of five. */
  datatype Category = General | ProductCategory | ShippingCategory | BillingCategory | Other

  /** The three specialists the agent delegates to. */
  datatype Role = ProductRole | ShippingRole | BillingRole

  /** The key of each specialist in `external_agents`, in the order `startup` visits them. */
  function RoleKey(role: Role): string {
    match role
    case ProductRole => "product"
    case ShippingRole => "shipping"
    case BillingRole => "billing"
  }

  const Roles: seq<Role> := [ProductRole, ShippingRole, BillingRole]

  /** Each specialist's address, as configured by default. */
  function RoleUrl(role: Role): string {
    match role
    case ProductRole => "http://localhost:8001/agent"
    case ShippingRole => "http://localhost:8002/agent"
    case BillingRole => "http://localhost:8003/agent"
  }

  /** `max_retries`: the number of status polls one delegation may make. */
  const MaxRetries: nat := 10

  const Greeting: string := "안녕하세요! 고객 지원 에이전트입니다. 어떻게 도와드릴까요?"

  /** The title of the task created on the specialist. */
  function TitleFor(role: Role): string {
    match role
    case ProductRole => "제품 정보 요청"
    case ShippingRole => "배송 정보 요청"
    case BillingRole => "결제 정보 요청"
  }

  /** The reply when the role key is still not registered (the `KeyError` path). */
  function DegradedText(role: Role): string {
    match role
    case ProductRole => "죄송합니다. 제품 정보 서비스에 일시적인 문제가 발생했습니다. 나중에 다시 시도해주세요."
    case ShippingRole => "죄송합니다. 배송 서비스에 일시적인 문제가 발생했습니다. 나중에 다시 시도해주세요."
    case BillingRole => "죄송합니다. 결제 정보 서비스에 일시적인 문제가 발생했습니다. 나중에 다시 시도해주세요."
  }

  /** The interim reply once the remote task exists. */
  function InterimText(role: Role): string {
    match role
    case ProductRole => "제품 전문가에게 문의를 전달했습니다. 잠시만 기다려주세요..."
    case ShippingRole => "배송 전문가에게 문의를 전달했습니다. 잠시만 기다려주세요..."
    case BillingRole => "결제 전문가에게 문의를 전달했습니다. 잠시만 기다려주세요..."
  }

  /** The reply when the remote task completed with messages but no content. */
  function NoContentText(role: Role): string {
    match role
    case ProductRole => "제품 에이전트가 응답을 완료했지만 메시지 내용이 없습니다."
    case ShippingRole => "배송 에이전트가 응답을 완료했지만 메시지 내용이 없습니다."
    case BillingRole => "청구 에이전트가 응답을 완료했지만 메시지 내용이 없습니다."
  }

  /** The reply when every poll came back without an answer. */
  function NoResponseText(role: Role): string {
    match role
    case ProductRole => "제품 에이전트로부터 응답을 받지 못했습니다. 잠시 후 다시 시도해주세요."
    case ShippingRole => "배송 에이전트로부터 응답을 받지 못했습니다. 잠시 후 다시 시도해주세요."
    case BillingRole => "청구 에이전트로부터 응답을 받지 못했습니다. 잠시 후 다시 시도해주세요."
  }

  /** The reply when discovery or task creation raised (the outermost handler). */
  function RequestErrorText(role: Role): string {
    match role
    case ProductRole => "죄송합니다. 제품 정보를 가져오는 중 문제가 발생했습니다. 잠시 후 다시 시도해주세요."
    case ShippingRole => "죄송합니다. 배송 정보를 가져오는 중 문제가 발생했습니다. 잠시 후 다시 시도해주세요."
    case BillingRole => "죄송합니다. 결제 정보를 가져오는 중 문제가 발생했습니다. 잠시 후 다시 시도해주세요."
  }

  /** The collaborators outside the agent: the classifier, the knowledge base
      (`get_faq_answer`, `get_product_info`) and the text generator. */
  datatype Collaborators = Collaborators(
    classify: string -> Category,
    faq: string -> Option<string>,
    productInfo: string -> Option<string>,
    generate: string -> string)

  /** The specialist's replies during one delegation: to the discovery request (used
      only if the role is not registered yet), to the task creation, and to each poll;
      `taskHex` is the fresh hex the created task's id is made from. */
  datatype RemoteScript = RemoteScript(discovery: Reply, creation: Reply, polls: seq<Reply>, taskHex: string)

  /** Python truthiness of a knowledge-base answer. */
  predicate Truthy(answer: Option<string>) {
    answer.Some? && answer.value != ""
  }

  /** The products the agent can answer about without delegating, in the order it checks them. */
  const ShortcutProducts: seq<string> := ["스마트폰", "노트북"]

  /** `product_type.lower() in query.lower()`. */
  predicate Mentions(query: string, product: string) {
    Contains(Lower(query), Lower(product))
  }

  /** What the agent does with a query: answer it itself, delegate it, or fail while
      building the reply (the shipping policy is missing from the knowledge base). */
  datatype Action = Reply(text: string) | Delegate(role: Role) | Crash

  /** The category dispatch of `process_task`. */
  function Dispatch(category: Category, query: string, env: Collaborators): (a: Action)
    ensures category == General ==>
              a == Reply(if Truthy(env.faq(query)) then env.faq(query).value else env.generate(query))
    ensures category == Other ==> a == Reply(env.generate(query))
    ensures category == BillingCategory ==> a == Delegate(BillingRole)
    ensures category == ProductCategory ==> a.Reply? || a == Delegate(ProductRole)
    ensures category == ShippingCategory ==>
              (a == Delegate(ShippingRole) <==> !(Contains(query, "배송") && Contains(query, "정책")))
    ensures category == ShippingCategory && Contains(query, "배송") && Contains(query, "정책") && env.faq("배송정책").Some? ==>
              a == Reply(env.faq("배송정책").value)
    ensures a == Crash <==> category == ShippingCategory && Contains(query, "배송") && Contains(query, "정책")
                            && env.faq("배송정책").None?
  {
    match category
    case General =>
      var answer := env.faq(query);
      Reply(if Truthy(answer) then answer.value else env.generate(query))
    case ProductCategory =>
      (match FirstMatch(ShortcutProducts, (p: string) => Mentions(query, p))
       case Some(i) =>
         var info := env.productInfo(ShortcutProducts[i]);
         if Truthy(info) then Reply(info.value) else Delegate(ProductRole)
       case None => Delegate(ProductRole))
    case ShippingCategory =>
      if Contains(query, "배송") && Contains(query, "정책") then
        (match env.faq("배송정책")
         case Some(policy) => Reply(policy)
         case None => Crash)
      else Delegate(ShippingRole)
    case BillingCategory => Delegate(BillingRole)
    case Other => Reply(env.generate(query))
  }

  /** The product shortcut checks "스마트폰" before "노트북", case-insensitively, and answers
      locally exactly when the knowledge base has something for the first one found. */
  lemma ProductShortcutOrder(query: string, env: Collaborators)
    ensures Mentions(query, "스마트폰") ==>
              Dispatch(ProductCategory, query, env) ==
                (if Truthy(env.productInfo("스마트폰")) then Reply(env.productInfo("스마트폰").value) else Delegate(ProductRole))
    ensures !Mentions(query, "스마트폰") && Mentions(query, "노트북") ==>
              Dispatch(ProductCategory, query, env) ==
                (if Truthy(env.productInfo("노트북")) then Reply(env.productInfo("노트북").value) else Delegate(ProductRole))
    ensures !Mentions(query, "스마트폰") && !Mentions(query, "노트북") ==>
              Dispatch(ProductCategory, query, env) == Delegate(ProductRole)
  {
    var p := (p: string) => Mentions(query, p);
    if Mentions(query, "스마트폰") {
      FirstMatchUnique(ShortcutProducts, p, 0);
    } else if Mentions(query, "노트북") {
      FirstMatchUnique(ShortcutProducts, p, 1);
    }
  }

  /** The shortcut is case-insensitive only in name: the product names have no ASCII
      capitals, so the test is whether the lower-cased query contains them. */
  lemma ShortcutNamesAreLowerCase(query: string)
    ensures Mentions(query, "스마트폰") <==> Contains(Lower(query), "스마트폰")
    ensures Mentions(query, "노트북") <==> Contains(Lower(query), "노트북")
  {
    LowerUnchanged("스마트폰");
    LowerUnchanged("노트북");
  }

  /** `send_response`: one message appended with id `msg_response_{task.id}_{len(messages)}`,
      and `updated_at` set to that message's time. */
  function SendResponse(t: Task, content: string, now: nat): (r: Task)
    ensures r.messages == t.messages + [NewMessage(ResponseId(t.id, |t.messages|), Text(content), now)]
    ensures r.updatedAt == now
    ensures r.id == t.id && r.status == t.status && r.createdAt == t.createdAt
    ensures r.title == t.title && r.description == t.description && r.metadata == t.metadata
  {
    t.(messages := t.messages + [NewMessage(ResponseId(t.id, |t.messages|), Text(content), now)], updatedAt := now)
  }

  /** Two responses in a row get different ids. */
  lemma ConsecutiveResponsesDistinct(t: Task, a: string, b: string, now: nat)
    ensures var r := SendResponse(SendResponse(t, a, now), b, now);
            |r.messages| == |t.messages| + 2 && r.messages[|t.messages|].id != r.messages[|t.messages| + 1].id
  {
    var r := SendResponse(SendResponse(t, a, now), b, now);
    if r.messages[|t.messages|].id == r.messages[|t.messages| + 1].id {
      ResponseIdInjective(t.id, |t.messages|, |t.messages| + 1);
    }
  }

  /** What one poll tells the loop: forward this text, the remote finished with nothing
      to say, or poll again. */
  datatype PollStep = Forward(text: string) | FinishedEmpty | KeepPolling

  predicate HasContent(m: Message) {
    m.content.IsTruthy()
  }

  /** One poll's outcome. A failed poll (transport error, unregistered key) is swallowed.
      Otherwise the earliest message with content decides; when that content is
      structured, the log line that slices it raises and the poll counts as failed. With
      messages but none with content, a `COMPLETED` remote ends the loop. */
  function Inspect(status: ClientResult<Task>): (s: PollStep)
    ensures !status.Ok? ==> s == KeepPolling
    ensures status.Ok? && status.value.messages == [] ==> s == KeepPolling
    ensures status.Ok? && FirstMatch(status.value.messages, HasContent).Some? ==>
              var m := status.value.messages[FirstMatch(status.value.messages, HasContent).value];
              s == (if m.content.Text? then Forward(m.content.text) else KeepPolling)
    ensures s.Forward? ==>
              (status.Ok? &&
               var i := FirstMatch(status.value.messages, HasContent);
               i.Some? && status.value.messages[i.value].content == Text(s.text))
    ensures s == FinishedEmpty <==>
              status.Ok? && status.value.messages != [] && status.value.status == COMPLETED &&
              forall j :: 0 <= j < |status.value.messages| ==> !HasContent(status.value.messages[j])
  {
    if !status.Ok? || status.value.messages == [] then KeepPolling
    else match FirstMatch(status.value.messages, HasContent)
      case Some(i) =>
        (match status.value.messages[i].content
         case Text(text) => Forward(text)
         case Structured(_) => KeepPolling)
      case None => if status.value.status == COMPLETED then FinishedEmpty else KeepPolling
  }

  datatype Verdict = Answer(text: string) | NoContent | NoResponse

  /** How a delegation's polling ends, and how many polls it made. */
  datatype PollResult = PollResult(verdict: Verdict, polls: nat)

  predicate Decisive(s: PollStep) {
    !s.KeepPolling?
  }

  /** The polling loop over successive outcomes: the first decisive poll settles it and
      no poll follows; if none is decisive, every poll is made and nobody answered. */
  function Settle(steps: seq<PollStep>): (r: PollResult)
    ensures r.polls <= |steps|
    ensures forall j :: 0 <= j < r.polls - 1 ==> steps[j] == KeepPolling
    ensures r.verdict == NoResponse <==> forall j :: 0 <= j < |steps| ==> steps[j] == KeepPolling
    ensures r.verdict == NoResponse ==> r.polls == |steps|
    ensures r.verdict.Answer? ==> 1 <= r.polls && steps[r.polls - 1] == Forward(r.verdict.text)
    ensures r.verdict == NoContent ==> 1 <= r.polls && steps[r.polls - 1] == FinishedEmpty
  {
    match FirstMatch(steps, Decisive)
    case Some(i) => PollResult(if steps[i].Forward? then Answer(steps[i].text) else NoContent, i + 1)
    case None => PollResult(NoResponse, |steps|)
  }

  /** The text appended when the loop ends. */
  function FinalText(role: Role, v: Verdict): string {
    match v
    case Answer(text) => text
    case NoContent => NoContentText(role)
    case NoResponse => NoResponseText(role)
  }

  /** The registry `startup` leaves: for each role whose card was fetched, the card
      under its own id (by discovery) and then under the role key. */
  function StartupRegistry(registry: map<string, AgentCard>, roles: seq<Role>, replies: seq<Reply>): map<string, AgentCard>
    requires |roles| == |replies|
    decreases |roles|
  {
    if roles == [] then registry
    else
      var next := if replies[0].CardReply?
                  then registry[replies[0].card.id := replies[0].card][RoleKey(roles[0]) := replies[0].card]
                  else registry;
      StartupRegistry(next, roles[1..], replies[1..])
  }

  /** Startup never drops a key. */
  lemma {:induction false} StartupKeepsKeys(registry: map<string, AgentCard>, roles: seq<Role>, replies: seq<Reply>)
    requires |roles| == |replies|
    ensures registry.Keys <= StartupRegistry(registry, roles, replies).Keys
    decreases |roles|
  {
    if roles != [] {
      var next := if replies[0].CardReply?
                  then registry[replies[0].card.id := replies[0].card][RoleKey(roles[0]) := replies[0].card]
                  else registry;
      StartupKeepsKeys(next, roles[1..], replies[1..]);
    }
  }

  /** After startup, every role whose discovery succeeded is registered under its role key. */
  lemma {:induction false} StartupRegistersRoles(registry: map<string, AgentCard>, roles: seq<Role>, replies: seq<Reply>, i: nat)
    requires |roles| == |replies| && i < |roles|
    ensures replies[i].CardReply? ==> RoleKey(roles[i]) in StartupRegistry(registry, roles, replies)
    decreases |roles|
  {
    var next := if replies[0].CardReply?
                then registry[replies[0].card.id := replies[0].card][RoleKey(roles[0]) := replies[0].card]
                else registry;
    if i == 0 {
      StartupKeepsKeys(next, roles[1..], replies[1..]);
    } else {
      StartupRegistersRoles(next, roles[1..], replies[1..], i - 1);
    }
  }

  class CustomerSupportAgent {
    const card: AgentCard
    const server: Server.A2AServer
    const client: A2AClient

    constructor (card: AgentCard)
      ensures this.card == card && fresh(server) && fresh(client)
      ensures server.card == card && server.tasks == map[] && server.Valid()
      ensures client.agentId == card.id && client.registered == map[]
    {
      this.card := card;
      server := new Server.A2AServer(card);
      client := new A2AClient(card.id, None);
    }

    /** `startup`: discover each specialist in turn and, on success, also store its card
        under the role key; a failed discovery is logged and skipped. */
    method Startup(replies: seq<Reply>)
      requires |replies| == |Roles|
      modifies client`registered
      ensures client.registered == StartupRegistry(old(client.registered), Roles, replies)
    {
      var i := 0;
      while i < |Roles|
        invariant 0 <= i <= |Roles|
        invariant StartupRegistry(client.registered, Roles[i..], replies[i..]) ==
                  StartupRegistry(old(client.registered), Roles, replies)
      {
        var sent, found := client.DiscoverAgent(RoleUrl(Roles[i]), replies[i]);
        if found.Ok? {
          client.registered := client.registered[RoleKey(Roles[i]) := found.value];
        }
        assert Roles[i..][1..] == Roles[i + 1..] && replies[i..][1..] == replies[i + 1..];
        i := i + 1;
      }
    }

    /** The outcome of each poll, as the agent sees it. */
    function PollSteps(agentKey: string, remoteId: string, replies: seq<Reply>): (s: seq<PollStep>)
      reads client
      ensures |s| == |replies|
      ensures forall i :: 0 <= i < |replies| ==> s[i] == Inspect(client.GetTaskStatus(agentKey, remoteId, replies[i]).result)
    {
      seq(|replies|, i requires 0 <= i < |replies| reads client =>
        Inspect(client.GetTaskStatus(agentKey, remoteId, replies[i]).result))
    }

    /** The scan of one poll's messages for the earliest one with content. */
    method FirstContent(messages: seq<Message>) returns (idx: Option<nat>)
      ensures idx == FirstMatch(messages, HasContent)
    {
      var i := 0;
      while i < |messages|
        invariant 0 <= i <= |messages|
        invariant forall j :: 0 <= j < i ==> !HasContent(messages[j])
      {
        if HasContent(messages[i]) {
          FirstMatchUnique(messages, HasContent, i);
          return Some(i);
        }
        i := i + 1;
      }
      idx := None;
    }

    /** The bounded poll loop of `delegate_to_*`: at most `MaxRetries` status requests,
        stopping at the first decisive one. */
    method PollDelegated(agentKey: string, remoteId: string, replies: seq<Reply>) returns (r: PollResult)
      requires |replies| == MaxRetries
      ensures r == Settle(PollSteps(agentKey, remoteId, replies))
      ensures 1 <= r.polls <= MaxRetries
    {
      ghost var steps := PollSteps(agentKey, remoteId, replies);
      var attempt := 0;
      while attempt < MaxRetries
        invariant 0 <= attempt <= MaxRetries
        invariant forall j :: 0 <= j < attempt ==> steps[j] == KeepPolling
      {
        var status := client.GetTaskStatus(agentKey, remoteId, replies[attempt]).result;
        if status.Ok? && |status.value.messages| > 0 {
          var idx := FirstContent(status.value.messages);
          if idx.Some? {
            match status.value.messages[idx.value].content
            case Text(text) =>
              FirstMatchUnique(steps, Decisive, attempt);
              return PollResult(Answer(text), attempt + 1);
            case Structured(_) =>
          } else if status.value.status == COMPLETED {
            FirstMatchUnique(steps, Decisive, attempt);
            return PollResult(NoContent, attempt + 1);
          }
        }
        attempt := attempt + 1;
      }
      r := PollResult(NoResponse, MaxRetries);
    }

    /** `delegate_to_product_agent` / `_shipping_` / `_billing_`, written once for a role. */
    method DelegateTask(role: Role, t: Task, query: string, script: RemoteScript, now: nat)
      returns (r: Task, created: Option<Request>, polls: nat)
      requires |script.polls| == MaxRetries && IsHexToken(script.taskHex, 10)
      modifies client`registered
      ensures r.id == t.id && r.status == t.status && r.title == t.title && r.description == t.description
      ensures r.createdAt == t.createdAt && r.metadata == t.metadata
      ensures RoleKey(role) in old(client.registered) ==> client.registered == old(client.registered)
      ensures RoleKey(role) !in old(client.registered) ==>
                client.registered == (if script.discovery.CardReply?
                                      then old(client.registered)[script.discovery.card.id := script.discovery.card]
                                      else old(client.registered))
      // discovery raised: the outer handler answers, nothing is created
      ensures RoleKey(role) !in old(client.registered) && !script.discovery.CardReply? ==>
                r == SendResponse(t, RequestErrorText(role), now) && created == None && polls == 0
      // discovery worked but filed the card under its own id: the KeyError path
      ensures RoleKey(role) !in client.registered && script.discovery.CardReply? ==>
                r == SendResponse(t, DegradedText(role), now) && created == None && polls == 0
      ensures RoleKey(role) in client.registered ==>
                var agentId := client.registered[RoleKey(role)].id;
                var exchange := client.CreateTask(agentId, TitleFor(role), "고객 질문: " + query,
                                                  Some(map["original_task_id" := Str(t.id)]), script.taskHex, script.creation);
                created == exchange.sent &&
                (!exchange.result.Ok? ==> r == SendResponse(t, RequestErrorText(role), now) && polls == 0) &&
                (exchange.result.Ok? ==>
                   var outcome := Settle(PollSteps(agentId, exchange.result.value.id, script.polls));
                   polls == outcome.polls &&
                   r == SendResponse(SendResponse(t, InterimText(role), now), FinalText(role, outcome.verdict), now))
    {
      var key := RoleKey(role);
      created, polls := None, 0;
      if key !in client.registered {
        var sent, found := client.DiscoverAgent(RoleUrl(role), script.discovery);
        if !found.Ok? {
          r := SendResponse(t, RequestErrorText(role), now);
          return;
        }
      }
      if key !in client.registered {
        r := SendResponse(t, DegradedText(role), now);
        return;
      }
      var agentId := client.registered[key].id;
      var exchange := client.CreateTask(agentId, TitleFor(role), "고객 질문: " + query,
                                        Some(map["original_task_id" := Str(t.id)]), script.taskHex, script.creation);
      created := exchange.sent;
      if !exchange.result.Ok? {
        r := SendResponse(t, RequestErrorText(role), now);
        return;
      }
      var waiting := SendResponse(t, InterimText(role), now);
      var outcome := PollDelegated(agentId, exchange.result.value.id, script.polls);
      polls := outcome.polls;
      r := SendResponse(waiting, FinalText(role, outcome.verdict), now);
    }

    /** `process_task`: status `IN_PROGRESS`; greet an empty task; answer or delegate a
        text query from a `msg_` message; otherwise append nothing. `crashed` reports the
        exception raised when the shipping policy is missing from the knowledge base. */
    method ProcessTask(t: Task, env: Collaborators, script: RemoteScript, now: nat) returns (r: Task, crashed: bool)
      requires |script.polls| == MaxRetries && IsHexToken(script.taskHex, 10)
      modifies client`registered
      ensures r.id == t.id && r.status == IN_PROGRESS
      ensures r.title == t.title && r.description == t.description && r.createdAt == t.createdAt && r.metadata == t.metadata
      ensures crashed <==> NextTurn(t).Query? && Dispatch(env.classify(NextTurn(t).text), NextTurn(t).text, env) == Crash
      ensures NextTurn(t) == Greet ==> r == Greeted(t, Greeting, now)
      ensures NextTurn(t) == Ignore || NextTurn(t) == Unreadable || crashed ==> r == t.(status := IN_PROGRESS)
      ensures !NextTurn(t).Query? || !Dispatch(env.classify(NextTurn(t).text), NextTurn(t).text, env).Delegate? ==>
                client.registered == old(client.registered)
      ensures NextTurn(t).Query? && Dispatch(env.classify(NextTurn(t).text), NextTurn(t).text, env).Reply? ==>
                r == SendResponse(t.(status := IN_PROGRESS),
                                  Dispatch(env.classify(NextTurn(t).text), NextTurn(t).text, env).text, now)
      ensures NextTurn(t).Query? && Dispatch(env.classify(NextTurn(t).text), NextTurn(t).text, env).Delegate? ==>
                |t.messages| + 1 <= |r.messages| <= |t.messages| + 2 && r.messages[..|t.messages|] == t.messages
    {
      r, crashed := t.(status := IN_PROGRESS), false;
      match NextTurn(t)
      case Greet =>
        r := Greeted(t, Greeting, now);
      case Ignore =>
      case Unreadable =>
      case Query(query) =>
        var action := Dispatch(env.classify(query), query, env);
        match action
        case Reply(text) =>
          r := SendResponse(r, text, now);
        case Crash =>
          crashed := true;
        case Delegate(role) =>
          var created, polls;
          r, created, polls := DelegateTask(role, r, query, script, now);
    }

    /** The task-created hook: `process_task` runs on the stored task, whose object the
        store shares, so its result is what the store holds under that id afterwards. */
    method HandleNewTask(t: Task, env: Collaborators, script: RemoteScript, now: nat) returns (r: Task)
      requires server.Valid()
      requires |script.polls| == MaxRetries && IsHexToken(script.taskHex, 10)
      modifies server`tasks, client`registered
      ensures server.Valid()
      ensures r.id == t.id && r.status == IN_PROGRESS
      ensures server.tasks == old(server.tasks)[t.id := r]
      ensures NextTurn(t) == Greet ==> r == Greeted(t, Greeting, now)
      ensures NextTurn(t) == Ignore || NextTurn(t) == Unreadable ==> r == t.(status := IN_PROGRESS)
      ensures NextTurn(t).Query? && Dispatch(env.classify(NextTurn(t).text), NextTurn(t).text, env) == Crash ==>
                r == t.(status := IN_PROGRESS)
      ensures NextTurn(t).Query? && Dispatch(env.classify(NextTurn(t).text), NextTurn(t).text, env).Reply? ==>
                r == SendResponse(t.(status := IN_PROGRESS),
                                  Dispatch(env.classify(NextTurn(t).text), NextTurn(t).text, env).text, now)
      ensures NextTurn(t).Query? && Dispatch(env.classify(NextTurn(t).text), NextTurn(t).text, env).Delegate? ==>
                |t.messages| + 1 <= |r.messages| <= |t.messages| + 2 && r.messages[..|t.messages|] == t.messages
      ensures !NextTurn(t).Query? || !Dispatch(env.classify(NextTurn(t).text), NextTurn(t).text, env).Delegate? ==>
                client.registered == old(client.registered)
    {
      var crashed;
      r, crashed := ProcessTask(t, env, script, now);
      server.Put(r);
    }
  }

  /** A delegation that ran its polls appends exactly two messages — the interim one and
      the verdict — and a verdict of no response means all ten polls were made. */
  lemma DelegationReplyShape(t: Task, role: Role, steps: seq<PollStep>, now: nat)
    requires |steps| == MaxRetries
    ensures var r := SendResponse(SendResponse(t, InterimText(role), now), FinalText(role, Settle(steps).verdict), now);
            |r.messages| == |t.messages| + 2 && r.messages[..|t.messages|] == t.messages &&
            r.messages[|t.messages|].content == Text(InterimText(role))
    ensures Settle(steps).verdict == NoResponse ==> Settle(steps).polls == MaxRetries
  {
    var w := SendResponse(t, InterimText(role), now);
    var r := SendResponse(w, FinalText(role, Settle(steps).verdict), now);
    assert r.messages[..|t.messages|] == t.messages;
  }
}
