/** The shipping agent: a specialist that reports a shipment's tracking history,
    explains the shipping policies, or lists its services. */
module ShippingAgent {
  import opened Options
  import opened Strings
  import opened Models
  import opened AgentCommon
  import Server
  import Client

  /** One shipping policy. */
  datatype Policy = Policy(key: string, name: string, price: string, time: string, description: string)

  /** The policies, in their dictionary order: standard, express, same-day. */
  const Policies: seq<Policy> := [
    Policy("standard", "표준 배송", "3,000원", "2-3일 소요", "일반 택배 서비스를 통해 배송됩니다."),
    Policy("express", "빠른 배송", "6,000원", "다음날 배송", "주문 당일 오후 3시 이전 결제 완료 시 다음날 도착을 보장합니다."),
    Policy("same_day", "당일 배송", "10,000원", "당일 도착", "서울 및 수도권 지역에 한해 오전 11시 이전 주문 시 당일 저녁 도착을 보장합니다.")
  ]

  /** One step of a shipment's history. */
  datatype Event = Event(time: string, status: string)

  /** One tracked shipment. */
  datatype Shipment = Shipment(
    number: string,
    orderId: string,
    product: string,
    status: string,
    history: seq<Event>,
    estimatedDelivery: string,
    carrier: string,
    recipient: string)

  /** The tracked shipments, in their dictionary order. */
  const Shipments: seq<Shipment> := [
    Shipment("TRK123456789", "ORD-20250511-001", "스마트폰 Pro", "배송 완료",
             [Event("2025-05-09 14:23", "주문 접수"), Event("2025-05-10 09:15", "상품 준비 중"),
              Event("2025-05-10 18:30", "배송 시작"), Event("2025-05-11 13:45", "배송 완료")],
             "2025-05-11", "A2A 물류", "홍길동"),
    Shipment("TRK987654321", "ORD-20250511-002", "노트북 Air", "배송 중",
             [Event("2025-05-10 11:42", "주문 접수"), Event("2025-05-11 10:30", "상품 준비 중"),
              Event("2025-05-12 09:15", "배송 시작")],
             "2025-05-13", "A2A 물류", "김철수"),
    Shipment("TRK567890123", "ORD-20250512-001", "스마트워치 4", "상품 준비 중",
             [Event("2025-05-12 09:07", "주문 접수"), Event("2025-05-12 10:23", "상품 준비 중")],
             "2025-05-14", "A2A 물류", "이영희")
  ]

  const Greeting: string := "안녕하세요! 배송 정보 에이전트입니다. 배송 조회나 배송 정책에 대해 문의하시겠어요?"

  /** The agent's own card. */
  const Card: AgentCard := AgentCard(
    "shipping-agent", "배송 정보 에이전트", "배송 상태 추적, 배송 정책 안내, 예상 배송 일정을 제공하는 에이전트",
    "1.0.0", "http://localhost:8002/agent",
    [AgentCapability("track_shipping", "배송 추적 번호를 사용하여 배송 상태를 확인합니다",
                     Some(map["tracking_number" := Object(map["type" := Str("string"), "description" := Str("배송 추적 번호")])])),
     AgentCapability("get_shipping_policy", "배송 정책에 대한 정보를 제공합니다",
                     Some(map["policy_type" := Object(map["type" := Str("string"),
                                                          "description" := Str("특정 배송 정책 유형 (기본값: 모든 정책)"),
                                                          "required" := Bool(false)])]))])

  /** A tracking question: "배송" with one of 조회/확인/상태, or "추적". */
  predicate AsksTracking(query: string) {
    (Contains(query, "배송") && (Contains(query, "조회") || Contains(query, "확인") || Contains(query, "상태")))
    || Contains(query, "추적")
  }

  /** A policy question: one of 정책/비용/요금/기간. */
  predicate AsksPolicy(query: string) {
    Contains(query, "정책") || Contains(query, "비용") || Contains(query, "요금") || Contains(query, "기간")
  }

  /** Whether the query names shipment `s`: its number, lower-cased, occurs in the (lower-cased) query. */
  predicate NamesShipment(query: string, s: Shipment) {
    Contains(query, Lower(s.number))
  }

  /** The shipment a query is about: the first of the known numbers it contains. */
  function ShipmentIndex(query: string): (i: Option<nat>)
    ensures i.Some? ==> i.value < |Shipments| && NamesShipment(query, Shipments[i.value])
    ensures i.Some? ==> forall j :: 0 <= j < i.value ==> !NamesShipment(query, Shipments[j])
    ensures i.None? <==> forall j :: 0 <= j < |Shipments| ==> !NamesShipment(query, Shipments[j])
  {
    FirstMatch(Shipments, (s: Shipment) => NamesShipment(query, s))
  }

  /** The policy a policy question singles out: standard, then express, then same-day; none if no word applies. */
  function PolicyIndex(query: string): (i: Option<nat>)
    ensures i.Some? ==> i.value < |Policies|
    ensures i == Some(0) <==> Contains(query, "표준") || Contains(query, "일반")
    ensures i == Some(1) <==> !Contains(query, "표준") && !Contains(query, "일반") &&
                              (Contains(query, "빠른") || Contains(query, "익일") || Contains(query, "익스프레스"))
    ensures i == Some(2) <==> !Contains(query, "표준") && !Contains(query, "일반") && !Contains(query, "빠른") &&
                              !Contains(query, "익일") && !Contains(query, "익스프레스") && Contains(query, "당일")
    ensures i.None? <==> !Contains(query, "표준") && !Contains(query, "일반") && !Contains(query, "빠른") &&
                         !Contains(query, "익일") && !Contains(query, "익스프레스") && !Contains(query, "당일")
  {
    if Contains(query, "표준") || Contains(query, "일반") then Some(0)
    else if Contains(query, "빠른") || Contains(query, "익일") || Contains(query, "익스프레스") then Some(1)
    else if Contains(query, "당일") then Some(2)
    else None
  }

  /** What the agent answers: a tracking report (for a known shipment or not), a policy
      (a single one or all), or its list of services. */
  datatype Answer = TrackingAnswer(shipment: Option<nat>) | PolicyAnswer(policy: Option<nat>) | Services

  /** The branch a lower-cased query takes: tracking first, then policy, then services. */
  function AnswerFor(query: string): (a: Answer)
    ensures a.TrackingAnswer? <==> AsksTracking(query)
    ensures a.PolicyAnswer? <==> !AsksTracking(query) && AsksPolicy(query)
    ensures a.TrackingAnswer? ==> a.shipment == ShipmentIndex(query)
    ensures a.PolicyAnswer? ==> a.policy == PolicyIndex(query)
  {
    if AsksTracking(query) then TrackingAnswer(ShipmentIndex(query))
    else if AsksPolicy(query) then PolicyAnswer(PolicyIndex(query))
    else Services
  }

  /** One line of the history. */
  function HistoryLine(e: Event): string {
    "• " + e.time + " - " + e.status + "\n"
  }

  /** The report up to the history heading. */
  function ReportHead(s: Shipment): string {
    "📦 배송 추적 정보 (" + s.number + ")\n\n" +
    "주문 번호: " + s.orderId + "\n" +
    "상품: " + s.product + "\n" +
    "상태: " + s.status + "\n" +
    "예상 배송일: " + s.estimatedDelivery + "\n" +
    "배송사: " + s.carrier + "\n" +
    "수령인: " + s.recipient + "\n\n" +
    "배송 이력:\n"
  }

  /** A shipment's tracking report: its details, then its history one line per step. */
  function TrackingReport(s: Shipment): string {
    ReportHead(s) + ConcatMap(s.history, HistoryLine)
  }

  /** The reply to a tracking question without a known number, offering the samples. */
  function TrackingHelp(): string {
    "배송 추적을 위해서는 유효한 추적 번호가 필요합니다. " +
    "테스트를 위해 다음의 샘플 번호를 사용해보세요: " + Join(ShipmentNumbers(), ", ")
  }

  function ShipmentNumbers(): (numbers: seq<string>)
    ensures |numbers| == |Shipments| && forall i :: 0 <= i < |Shipments| ==> numbers[i] == Shipments[i].number
  {
    seq(|Shipments|, i requires 0 <= i < |Shipments| => Shipments[i].number)
  }

  /** A single policy's explanation. */
  function PolicyReport(p: Policy): string {
    "📦 " + p.name + " 정책\n\n" + "비용: " + p.price + "\n" + "소요 시간: " + p.time + "\n" + "상세 정보: " + p.description
  }

  /** One policy's entry in the list of all policies. */
  function PolicyEntry(p: Policy): string {
    "[" + p.name + "]\n" + "비용: " + p.price + "\n" + "소요 시간: " + p.time + "\n" + "상세 정보: " + p.description + "\n\n"
  }

  /** The heading of the list of all policies. */
  const PoliciesHeading: string := "📦 배송 정책 안내\n\n"

  /** Every policy, in order. */
  function AllPolicies(): string {
    PoliciesHeading + ConcatMap(Policies, PolicyEntry)
  }

  const ServicesText: string :=
    "배송에 관련된 다음 서비스를 제공해 드릴 수 있습니다:\n\n" +
    "1. 배송 추적: 배송 상태를 확인하려면 추적 번호를 알려주세요.\n" +
    "2. 배송 정책: 표준 배송, 빠른 배송, 당일 배송 등의 정책 정보를 안내해 드립니다.\n" +
    "3. 배송 문제 해결: 배송 지연, 분실 등의 문제 발생 시 해결 방법을 안내해 드립니다.\n\n" +
    "어떤 도움이 필요하신가요?"

  /** The agent's reply to a lower-cased query. */
  function ShippingReply(query: string): string {
    match AnswerFor(query)
    case TrackingAnswer(Some(i)) => TrackingReport(Shipments[i])
    case TrackingAnswer(None) => TrackingHelp()
    case PolicyAnswer(Some(i)) => PolicyReport(Policies[i])
    case PolicyAnswer(None) => AllPolicies()
    case Services => ServicesText
  }

  /** A tracking report lists every step of the history, each between the steps before
      and after it. */
  lemma ReportListsHistory(s: Shipment, k: nat)
    requires k < |s.history|
    ensures Contains(TrackingReport(s), HistoryLine(s.history[k]))
    ensures TrackingReport(s) ==
              ReportHead(s) + ConcatMap(s.history[..k], HistoryLine) + HistoryLine(s.history[k]) +
              ConcatMap(s.history[k + 1..], HistoryLine)
  {
    ConcatMapContains(s.history, HistoryLine, k);
    ContainsAfter(ReportHead(s), ConcatMap(s.history, HistoryLine), HistoryLine(s.history[k]));
    ConcatMapSplit(s.history, HistoryLine, k);
    var before, line, after := ConcatMap(s.history[..k], HistoryLine), HistoryLine(s.history[k]),
                              ConcatMap(s.history[k + 1..], HistoryLine);
    AppendRegroup(ReportHead(s), before, line, after);
  }

  /** Without a known number, the reply offers every sample number. */
  lemma HelpOffersEveryNumber(k: nat)
    requires k < |Shipments|
    ensures Contains(TrackingHelp(), Shipments[k].number)
  {
    var lead := "배송 추적을 위해서는 유효한 추적 번호가 필요합니다. " + "테스트를 위해 다음의 샘플 번호를 사용해보세요: ";
    JoinContainsEach(ShipmentNumbers(), ", ", k);
    ContainsInfix(lead, Join(ShipmentNumbers(), ", "), "", Shipments[k].number);
    assert lead + Join(ShipmentNumbers(), ", ") + "" == TrackingHelp();
  }

  /** The list of all policies has every policy's entry. */
  lemma AllPoliciesListsEach(k: nat)
    requires k < |Policies|
    ensures Contains(AllPolicies(), PolicyEntry(Policies[k]))
  {
    ConcatMapContains(Policies, PolicyEntry, k);
    ContainsInfix(PoliciesHeading, ConcatMap(Policies, PolicyEntry), "", PolicyEntry(Policies[k]));
    assert PoliciesHeading + ConcatMap(Policies, PolicyEntry) + "" == AllPolicies();
  }

  class ShippingAgent {
    const card: AgentCard
    const server: Server.A2AServer
    const client: Client.A2AClient

    constructor ()
      ensures card == Card && fresh(server) && fresh(client)
      ensures server.card == Card && server.tasks == map[] && server.Valid()
      ensures client.agentId == Card.id && client.registered == map[]
    {
      card := Card;
      server := new Server.A2AServer(Card);
      client := new Client.A2AClient(Card.id, None);
    }

    /** The search over the known numbers, stopping at the first one the query contains. */
    method FindShipment(query: string, shipments: seq<Shipment>) returns (found: Option<nat>)
      ensures found == FirstMatch(shipments, (s: Shipment) => NamesShipment(query, s))
    {
      var i := 0;
      while i < |shipments|
        invariant 0 <= i <= |shipments|
        invariant forall j :: 0 <= j < i ==> !NamesShipment(query, shipments[j])
      {
        if NamesShipment(query, shipments[i]) {
          FirstMatchUnique(shipments, (s: Shipment) => NamesShipment(query, s), i);
          return Some(i);
        }
        i := i + 1;
      }
      found := None;
    }

    /** The loop that appends one line per history step. */
    method RenderHistory(history: seq<Event>) returns (text: string)
      ensures text == ConcatMap(history, HistoryLine)
    {
      text := "";
      var i := 0;
      while i < |history|
        invariant 0 <= i <= |history|
        invariant text == ConcatMap(history[..i], HistoryLine)
      {
        ConcatMapStep(history, HistoryLine, i);
        text := text + HistoryLine(history[i]);
        i := i + 1;
      }
      assert history[..i] == history;
    }

    /** The loop that appends each policy's entry to the heading. */
    method ListPolicies(policies: seq<Policy>) returns (text: string)
      ensures text == PoliciesHeading + ConcatMap(policies, PolicyEntry)
    {
      var entries := "";
      var i := 0;
      while i < |policies|
        invariant 0 <= i <= |policies|
        invariant entries == ConcatMap(policies[..i], PolicyEntry)
      {
        ConcatMapStep(policies, PolicyEntry, i);
        entries := entries + PolicyEntry(policies[i]);
        i := i + 1;
      }
      assert policies[..i] == policies;
      text := PoliciesHeading + entries;
    }

    /** The reply `process_task` composes for a lower-cased query. */
    method Reply(query: string) returns (reply: string)
      ensures reply == ShippingReply(query)
    {
      if AsksTracking(query) {
        reply := ReplyToTracking(query);
      } else {
        reply := ReplyToOther(query);
      }
    }

    /** The tracking branch: the report of the shipment found, or the list of sample numbers. */
    method ReplyToTracking(query: string) returns (reply: string)
      requires AsksTracking(query)
      ensures reply == ShippingReply(query)
    {
      var found := FindShipment(query, Shipments);
      if found.Some? {
        var history := RenderHistory(Shipments[found.value].history);
        reply := ReportHead(Shipments[found.value]) + history;
      } else {
        reply := TrackingHelp();
      }
    }

    /** The policy and services branches. */
    method ReplyToOther(query: string) returns (reply: string)
      requires !AsksTracking(query)
      ensures reply == ShippingReply(query)
    {
      if AsksPolicy(query) {
        var chosen := PolicyIndex(query);
        if chosen.Some? {
          reply := PolicyReport(Policies[chosen.value]);
        } else {
          reply := ListPolicies(Policies);
        }
      } else {
        reply := ServicesText;
      }
    }

    /** `process_task`, run by the task-created hook on the stored task, which it writes
        back under its id. `crashed` reports the exception that lower-casing structured
        content raises. */
    method ProcessTask(t: Task, now: nat) returns (r: Task, crashed: bool)
      requires server.Valid()
      modifies server`tasks
      ensures server.Valid()
      ensures r == Handled(t, Greeting, ShippingReply, now)
      ensures crashed <==> NextTurn(t) == Unreadable
      ensures server.tasks == old(server.tasks)[t.id := r]
    {
      crashed := false;
      match NextTurn(t) {
        case Greet =>
          r := Greeted(t, Greeting, now);
        case Ignore =>
          r := t.(status := IN_PROGRESS);
        case Unreadable =>
          r, crashed := t.(status := IN_PROGRESS), true;
        case Query(text) =>
          var reply := Reply(Lower(text));
          r := Answered(t, reply, now);
      }
      server.Put(r);
    }
  }
}
