/** The billing agent: a specialist that reports an order's payment (and refund), explains
    the payment methods and the refund policy, or lists its services. */
module BillingAgent {
  import opened Options
  import opened Strings
  import opened Models
  import opened AgentCommon
  import Server
  import Client

  /** `f"{n:,}"`: the decimal digits of `n` with a comma between groups of three. */
  function Thousands(n: nat): (r: string)
    ensures 1 <= |r|
    decreases n
  {
    if n < 1000 then Decimal(n) else Thousands(n / 1000) + "," + Group(n % 1000)
  }

  /** A group of exactly three digits, with leading zeros. */
  function Group(n: nat): (r: string)
    requires n < 1000
    ensures |r| == 3 && AllDigits(r)
    ensures ParseDecimal(r) == n
  {
    var r := [DigitChar(n / 100), DigitChar(n / 10 % 10), DigitChar(n % 10)];
    GroupValue(n, r);
    r
  }

  /** The three digits of a group read back as the number it was made from. */
  lemma GroupValue(n: nat, r: string)
    requires n < 1000 && r == [DigitChar(n / 100), DigitChar(n / 10 % 10), DigitChar(n % 10)]
    ensures AllDigits(r) && ParseDecimal(r) == n
  {
    assert r[..2][..1] == r[..1] && r[..1][..0] == [];
    assert ParseDecimal(r[..1]) == n / 100;
    assert ParseDecimal(r[..2]) == 10 * (n / 100) + n / 10 % 10;
    assert n == 100 * (n / 100) + 10 * (n / 10 % 10) + n % 10;
  }

  /** The string with its commas taken out. */
  function RemoveCommas(s: string): string
    decreases |s|
  {
    if s == [] then "" else (if s[0] == ',' then "" else [s[0]]) + RemoveCommas(s[1..])
  }

  lemma {:induction false} RemoveCommasAppend(a: string, b: string)
    ensures RemoveCommas(a + b) == RemoveCommas(a) + RemoveCommas(b)
    decreases |a|
  {
    if a != [] {
      assert (a + b)[1..] == a[1..] + b;
      RemoveCommasAppend(a[1..], b);
    } else {
      assert a + b == b;
    }
  }

  lemma {:induction false} RemoveCommasDigits(s: string)
    requires AllDigits(s)
    ensures RemoveCommas(s) == s
    decreases |s|
  {
    if s != [] {
      RemoveCommasDigits(s[1..]);
    }
  }

  /** The arithmetic behind the split: dividing by ten three times is dividing by a
      thousand, and the last three digits of `n` are those of `n % 1000`. */
  lemma LastGroupDigits(n: nat)
    ensures n / 10 / 10 == n / 100 && n / 100 / 10 == n / 1000
    ensures n % 1000 / 100 == n / 100 % 10 && n % 1000 / 10 % 10 == n / 10 % 10 && n % 1000 % 10 == n % 10
  {
  }

  /** A number of four digits or more is its thousands followed by its last three digits. */
  lemma DecimalSplitsAtThousands(n: nat)
    requires n >= 1000
    ensures Decimal(n) == Decimal(n / 1000) + Group(n % 1000)
  {
    LastGroupDigits(n);
    var a, b, c := DigitChar(n / 100 % 10), DigitChar(n / 10 % 10), DigitChar(n % 10);
    assert Decimal(n) == Decimal(n / 10) + [c];
    assert Decimal(n / 10) == Decimal(n / 100) + [b];
    assert Decimal(n / 100) == Decimal(n / 1000) + [a];
    assert Group(n % 1000) == [a, b, c];
    assert Decimal(n / 1000) + [a] + [b] + [c] == Decimal(n / 1000) + [a, b, c];
  }

  /** Taking the separators out gives back the plain decimal rendering. */
  lemma {:induction false} ThousandsDigits(n: nat)
    ensures RemoveCommas(Thousands(n)) == Decimal(n)
    decreases n
  {
    if n >= 1000 {
      ThousandsDigits(n / 1000);
      RemoveCommasAppend(Thousands(n / 1000) + ",", Group(n % 1000));
      RemoveCommasAppend(Thousands(n / 1000), ",");
      RemoveCommasDigits(Group(n % 1000));
      assert RemoveCommas(",") == "";
      DecimalSplitsAtThousands(n);
    } else {
      RemoveCommasDigits(Decimal(n));
    }
  }

  lemma {:induction false} DigitsHaveNoComma(s: string)
    requires AllDigits(s)
    ensures !Contains(s, ",")
    decreases |s|
  {
    if s != [] {
      assert s[..1][0] == s[0];
      DigitsHaveNoComma(s[1..]);
    }
  }

  /** Separators appear exactly from four digits on. */
  lemma ThousandsSeparated(n: nat)
    ensures n >= 1000 <==> Contains(Thousands(n), ",")
  {
    if n >= 1000 {
      ContainsPart(Thousands(n / 1000), ",", Group(n % 1000));
    } else {
      DigitsHaveNoComma(Decimal(n));
    }
  }

  /** A number below a thousand has at most three digits. */
  lemma ShortDecimal(n: nat)
    requires n < 1000
    ensures |Decimal(n)| <= 3
  {
    if n >= 10 {
      assert n / 10 < 100;
      if n / 10 >= 10 {
        assert n / 10 / 10 < 10;
      }
    }
  }

  /** Commas stand exactly every fourth place counting from the right, and every other
      character is a digit; the length is not a multiple of four, so the first character
      is a digit: the digits come in groups of three from the right, with a shorter
      group only at the front. */
  predicate GroupedByThrees(r: string) {
    |r| % 4 != 0 &&
    forall i :: 0 <= i < |r| ==> (r[i] == ',' <==> (|r| - i) % 4 == 0) && (r[i] != ',' ==> IsDigit(r[i]))
  }

  /** One to three digits are grouped. */
  lemma ShortGrouped(s: string)
    requires 1 <= |s| <= 3 && AllDigits(s)
    ensures GroupedByThrees(s)
  {
  }

  /** A grouped rendering followed by a comma and a group of three digits is grouped. */
  lemma GroupedAppend(head: string, g: string)
    requires GroupedByThrees(head) && |g| == 3 && AllDigits(g)
    ensures GroupedByThrees(head + "," + g)
  {
    var r := head + "," + g;
    assert |r| == |head| + 4;
    forall i | 0 <= i < |r|
      ensures (r[i] == ',' <==> (|r| - i) % 4 == 0) && (r[i] != ',' ==> IsDigit(r[i]))
    {
      if i < |head| {
        assert r[i] == head[i];
      } else if i > |head| {
        assert r[i] == g[i - |head| - 1];
      }
    }
  }

  /** `{:,}` groups the digits by threes from the right. */
  lemma {:induction false} ThousandsGrouping(n: nat)
    ensures GroupedByThrees(Thousands(n))
    decreases n
  {
    if n < 1000 {
      ShortDecimal(n);
      ShortGrouped(Decimal(n));
    } else {
      ThousandsGrouping(n / 1000);
      GroupedAppend(Thousands(n / 1000), Group(n % 1000));
    }
  }

  /** The amount of the first sample order. */
  lemma ThousandsOfFirstAmount()
    ensures Thousands(999000) == "999,000"
  {
    assert Group(0) == "000";
    assert Decimal(999) == "999";
  }

  /** The amount of the second sample order. */
  lemma ThousandsOfSecondAmount()
    ensures Thousands(1599000) == "1,599,000"
  {
    assert Group(599) == "599";
    assert Thousands(1599) == "1,599";
    assert Group(0) == "000";
  }

  /** The amounts of the sample orders. */
  lemma ThousandsExamples()
    ensures Thousands(999000) == "999,000"
    ensures Thousands(1599000) == "1,599,000"
  {
    ThousandsOfFirstAmount();
    ThousandsOfSecondAmount();
  }

  /** A refund on an order. */
  datatype Refund = Refund(status: string, reason: string, date: string, amount: nat)

  /** One order and its payment. */
  datatype Order = Order(
    id: string,
    customer: string,
    product: string,
    amount: nat,
    paymentMethod: string,
    paymentStatus: string,
    paymentDate: string,
    invoice: string,
    refund: Option<Refund>)

  /** The order history, in its dictionary order. */
  const Orders: seq<Order> := [
    Order("ORD-20250511-001", "CUST001", "스마트폰 Pro", 999000, "신용카드", "결제 완료", "2025-05-09 14:23", "INV-20250509-001", None),
    Order("ORD-20250511-002", "CUST002", "노트북 Air", 1599000, "모바일 결제", "결제 완료", "2025-05-10 11:42", "INV-20250510-001", None),
    Order("ORD-20250512-001", "CUST003", "스마트워치 4", 499000, "계좌이체", "결제 완료", "2025-05-12 09:07", "INV-20250512-001", None),
    Order("ORD-20250501-001", "CUST004", "스마트폰 Pro", 999000, "신용카드", "환불 완료", "2025-05-01 10:15", "INV-20250501-001",
          Some(Refund("환불 완료", "고객 변심", "2025-05-03 15:30", 999000)))
  ]

  /** One payment method. */
  datatype PaymentMethod = PaymentMethod(key: string, name: string, description: string, discount: string, limit: string)

  /** The payment methods, in their dictionary order: card, bank transfer, mobile. */
  const Payments: seq<PaymentMethod> := [
    PaymentMethod("credit_card", "신용카드", "국내외 모든 신용카드로 결제 가능합니다.", "0-5% (카드사별 상이)", "한도 없음"),
    PaymentMethod("bank_transfer", "계좌이체", "실시간 계좌이체로 즉시 결제됩니다.", "2%", "한도 없음"),
    PaymentMethod("mobile_pay", "모바일 결제", "카카오페이, 토스, 페이코 등의 간편결제를 지원합니다.", "1-3%", "일 100만원 한도")
  ]

  const Greeting: string := "안녕하세요! 결제 및 청구 에이전트입니다. 결제 방법, 주문 내역 조회, 환불 정책 등에 대해 문의하실 수 있습니다."

  /** The agent's own card. */
  const Card: AgentCard := AgentCard(
    "billing-agent", "결제 및 청구 에이전트", "결제 처리, 청구서 조회, 환불 정책을 제공하는 에이전트",
    "1.0.0", "http://localhost:8003/agent",
    [AgentCapability("check_order", "주문 번호로 결제 정보를 조회합니다",
                     Some(map["order_id" := Object(map["type" := Str("string"), "description" := Str("조회할 주문 번호")])])),
     AgentCapability("get_payment_methods", "사용 가능한 결제 수단 정보를 제공합니다", Some(map[])),
     AgentCapability("refund_policy", "환불 정책에 대한 정보를 제공합니다", Some(map[]))])

  /** An order question: "주문" with one of 조회/확인/내역, or "결제 내역". */
  predicate AsksOrder(query: string) {
    (Contains(query, "주문") && (Contains(query, "조회") || Contains(query, "확인") || Contains(query, "내역")))
    || Contains(query, "결제 내역")
  }

  /** A payment-method question: "결제" with 방법 or 수단. */
  predicate AsksPayment(query: string) {
    Contains(query, "결제") && (Contains(query, "방법") || Contains(query, "수단"))
  }

  /** A refund question: one of 환불/취소/반품. */
  predicate AsksRefund(query: string) {
    Contains(query, "환불") || Contains(query, "취소") || Contains(query, "반품")
  }

  /** Whether the query names order `o`: its id, lower-cased, occurs in the (lower-cased) query. */
  predicate NamesOrder(query: string, o: Order) {
    Contains(query, Lower(o.id))
  }

  /** The first of `orders` the query names. */
  function FirstNamedOrder(query: string, orders: seq<Order>): (i: Option<nat>)
    ensures i.Some? ==> i.value < |orders| && NamesOrder(query, orders[i.value])
    ensures i.Some? ==> forall j :: 0 <= j < i.value ==> !NamesOrder(query, orders[j])
    ensures i.None? <==> forall j :: 0 <= j < |orders| ==> !NamesOrder(query, orders[j])
  {
    FirstMatch(orders, (o: Order) => NamesOrder(query, o))
  }

  /** The order a query is about: the first of the known ids it contains. */
  function OrderIndex(query: string): (i: Option<nat>)
    ensures i.Some? ==> i.value < |Orders| && NamesOrder(query, Orders[i.value])
    ensures i.Some? ==> forall j :: 0 <= j < i.value ==> !NamesOrder(query, Orders[j])
    ensures i.None? <==> forall j :: 0 <= j < |Orders| ==> !NamesOrder(query, Orders[j])
  {
    FirstNamedOrder(query, Orders)
  }

  /** The method a payment question singles out: card, then bank transfer, then mobile; none if no word applies. */
  function PaymentIndex(query: string): (i: Option<nat>)
    ensures i.Some? ==> i.value < |Payments|
    ensures i == Some(0) <==> Contains(query, "카드") || Contains(query, "신용")
    ensures i == Some(1) <==> !Contains(query, "카드") && !Contains(query, "신용") &&
                              (Contains(query, "계좌") || Contains(query, "이체"))
    ensures i == Some(2) <==> !Contains(query, "카드") && !Contains(query, "신용") && !Contains(query, "계좌") &&
                              !Contains(query, "이체") && (Contains(query, "모바일") || Contains(query, "간편"))
    ensures i.None? <==> !Contains(query, "카드") && !Contains(query, "신용") && !Contains(query, "계좌") &&
                         !Contains(query, "이체") && !Contains(query, "모바일") && !Contains(query, "간편")
  {
    if Contains(query, "카드") || Contains(query, "신용") then Some(0)
    else if Contains(query, "계좌") || Contains(query, "이체") then Some(1)
    else if Contains(query, "모바일") || Contains(query, "간편") then Some(2)
    else None
  }

  /** What the agent answers: an order report (for a known order or not), a payment
      method (a single one or all), the refund policy, or its list of services. */
  datatype Answer = OrderAnswer(order: Option<nat>) | PaymentAnswer(payment: Option<nat>) | RefundAnswer | Services

  /** The branch a lower-cased query takes: order, then payment method, then refund, then services. */
  function AnswerFor(query: string): (a: Answer)
    ensures a.OrderAnswer? <==> AsksOrder(query)
    ensures a.PaymentAnswer? <==> !AsksOrder(query) && AsksPayment(query)
    ensures a == RefundAnswer <==> !AsksOrder(query) && !AsksPayment(query) && AsksRefund(query)
    ensures a.OrderAnswer? ==> a.order == OrderIndex(query)
    ensures a.PaymentAnswer? ==> a.payment == PaymentIndex(query)
  {
    if AsksOrder(query) then OrderAnswer(OrderIndex(query))
    else if AsksPayment(query) then PaymentAnswer(PaymentIndex(query))
    else if AsksRefund(query) then RefundAnswer
    else Services
  }

  /** An amount line: the caption, the amount with separators, and the currency. */
  function AmountLine(caption: string, n: nat): string {
    caption + Thousands(n) + "원"
  }

  /** The lines of the report before the amount. */
  function OrderHead(o: Order): string {
    "💰 주문 내역 (" + o.id + ")\n\n" + "상품: " + o.product + "\n"
  }

  /** The lines of the report after the amount. */
  function PaymentLines(o: Order): string {
    "결제 수단: " + o.paymentMethod + "\n" +
    "결제 상태: " + o.paymentStatus + "\n" +
    "결제일: " + o.paymentDate + "\n" +
    "청구서 번호: " + o.invoice + "\n"
  }

  /** The order report without refund lines. */
  function OrderSummary(o: Order): string {
    OrderHead(o) + AmountLine("금액: ", o.amount) + "\n" + PaymentLines(o)
  }

  /** The refund lines before the refunded amount. */
  function RefundHead(rf: Refund): string {
    "\n환불 정보:\n" + "상태: " + rf.status + "\n" + "사유: " + rf.reason + "\n" + "환불일: " + rf.date + "\n"
  }

  /** The refund lines. */
  function RefundLines(rf: Refund): string {
    RefundHead(rf) + AmountLine("환불 금액: ", rf.amount)
  }

  /** An order's report: the summary, then the refund lines if there is a refund. */
  function OrderReport(o: Order): string {
    OrderSummary(o) + (if o.refund.Some? then RefundLines(o.refund.value) else "")
  }

  /** The report quotes the amount with separators. */
  lemma ReportQuotesAmount(o: Order)
    ensures Contains(OrderReport(o), AmountLine("금액: ", o.amount))
  {
    var amount := AmountLine("금액: ", o.amount);
    ContainsSelf(amount);
    ContainsAfter(OrderHead(o), amount, amount);
    ContainsBefore(OrderHead(o) + amount, "\n", amount);
    ContainsBefore(OrderHead(o) + amount + "\n", PaymentLines(o), amount);
    ContainsBefore(OrderSummary(o), if o.refund.Some? then RefundLines(o.refund.value) else "", amount);
  }

  /** The report carries refund lines exactly when the order has a refund, and then
      quotes the refunded amount with separators. */
  lemma ReportRefundLines(o: Order)
    ensures StartsWith(OrderReport(o), OrderSummary(o))
    ensures |OrderReport(o)| > |OrderSummary(o)| <==> o.refund.Some?
    ensures o.refund.Some? ==> Contains(OrderReport(o), AmountLine("환불 금액: ", o.refund.value.amount))
  {
    if o.refund.Some? {
      var rf := o.refund.value;
      assert OrderReport(o) == OrderSummary(o) + RefundHead(rf) + AmountLine("환불 금액: ", rf.amount) + "";
      ContainsPart(OrderSummary(o) + RefundHead(rf), AmountLine("환불 금액: ", rf.amount), "");
    }
  }

  function OrderIds(): (ids: seq<string>)
    ensures |ids| == |Orders| && forall i :: 0 <= i < |Orders| ==> ids[i] == Orders[i].id
  {
    seq(|Orders|, i requires 0 <= i < |Orders| => Orders[i].id)
  }

  /** The reply to an order question without a known id, offering the samples. */
  function OrderHelp(): string {
    "주문 내역을 조회하기 위해서는 유효한 주문 번호가 필요합니다. " +
    "테스트를 위해 다음의 샘플 주문 번호를 사용해보세요: " + Join(OrderIds(), ", ")
  }

  /** Without a known id, the reply offers every sample order id. */
  lemma HelpOffersEveryOrder(k: nat)
    requires k < |Orders|
    ensures Contains(OrderHelp(), Orders[k].id)
  {
    var lead := "주문 내역을 조회하기 위해서는 유효한 주문 번호가 필요합니다. " + "테스트를 위해 다음의 샘플 주문 번호를 사용해보세요: ";
    JoinContainsEach(OrderIds(), ", ", k);
    ContainsInfix(lead, Join(OrderIds(), ", "), "", Orders[k].id);
    assert lead + Join(OrderIds(), ", ") + "" == OrderHelp();
  }

  /** A single payment method's explanation. */
  function PaymentReport(p: PaymentMethod): string {
    "💳 " + p.name + " 결제 정보\n\n" + "설명: " + p.description + "\n" + "할인율: " + p.discount + "\n" + "한도: " + p.limit
  }

  /** One method's entry in the list of all methods. */
  function PaymentEntry(p: PaymentMethod): string {
    "[" + p.name + "]\n" + "설명: " + p.description + "\n" + "할인율: " + p.discount + "\n" + "한도: " + p.limit + "\n\n"
  }

  const PaymentsHeading: string := "💳 사용 가능한 결제 수단 안내\n\n"

  /** Every payment method, in order. */
  function AllPayments(): string {
    PaymentsHeading + ConcatMap(Payments, PaymentEntry)
  }

  /** The list of all methods has every method's entry. */
  lemma AllPaymentsListsEach(k: nat)
    requires k < |Payments|
    ensures Contains(AllPayments(), PaymentEntry(Payments[k]))
  {
    ConcatMapContains(Payments, PaymentEntry, k);
    ContainsInfix(PaymentsHeading, ConcatMap(Payments, PaymentEntry), "", PaymentEntry(Payments[k]));
    assert PaymentsHeading + ConcatMap(Payments, PaymentEntry) + "" == AllPayments();
  }

  const RefundPolicyText: string :=
    "🔄 환불 정책 안내\n\n" +
    "1. 단순 변심에 의한 환불\n" +
    "   - 제품 수령 후 7일 이내에 환불 신청 가능\n" +
    "   - 제품이 미개봉 상태여야 함\n" +
    "   - 배송비는 고객 부담\n\n" +
    "2. 제품 하자에 의한 환불\n" +
    "   - 제품 수령 후 14일 이내에 환불 신청 가능\n" +
    "   - 제품 결함 증빙 자료 제출 필요\n" +
    "   - 배송비는 판매자 부담\n\n" +
    "3. 환불 처리 기간\n" +
    "   - 환불 승인 후 3-5 영업일 이내 처리\n" +
    "   - 결제 수단에 따라 환불 기간이 다를 수 있음\n\n" +
    "환불에 대한 자세한 문의는 고객센터(1234-5678)로 연락주세요."

  const ServicesText: string :=
    "결제 및 청구와 관련된 다음 서비스를 제공해 드릴 수 있습니다:\n\n" +
    "1. 주문 내역 조회: 주문 번호를 알려주시면 결제 상태를 확인해 드립니다.\n" +
    "2. 결제 방법 안내: 신용카드, 계좌이체, 모바일 결제 등의 정보를 안내해 드립니다.\n" +
    "3. 환불 정책: 환불 신청 방법과 처리 기간 등을 안내해 드립니다.\n\n" +
    "어떤 도움이 필요하신가요?"

  /** The agent's reply to a lower-cased query. */
  function BillingReply(query: string): string {
    match AnswerFor(query)
    case OrderAnswer(Some(i)) => OrderReport(Orders[i])
    case OrderAnswer(None) => OrderHelp()
    case PaymentAnswer(Some(i)) => PaymentReport(Payments[i])
    case PaymentAnswer(None) => AllPayments()
    case RefundAnswer => RefundPolicyText
    case Services => ServicesText
  }

  class BillingAgent {
    const card: AgentCard
    const server: Server.A2AServer
    const client: Client.A2AClient

    constructor ()
      ensures card == Card && fresh(server) && fresh(client)
      ensures server.card == Card && server.tasks == map[] && server.Valid()
      ensures client.agentId == Card.id && client.registered == map[]
    {
      card := Card;
      server := new Server.A2AServer(Card);
      client := new Client.A2AClient(Card.id, None);
    }

    /** The search over the order ids, stopping at the first one the query contains. */
    method FindOrder(query: string, orders: seq<Order>) returns (found: Option<nat>)
      ensures found == FirstMatch(orders, (o: Order) => NamesOrder(query, o))
    {
      var i := 0;
      while i < |orders|
        invariant 0 <= i <= |orders|
        invariant forall j :: 0 <= j < i ==> !NamesOrder(query, orders[j])
      {
        if NamesOrder(query, orders[i]) {
          FirstMatchUnique(orders, (o: Order) => NamesOrder(query, o), i);
          return Some(i);
        }
        i := i + 1;
      }
      found := None;
    }

    /** The loop that appends each payment method's entry to the heading. */
    method ListPayments(methods: seq<PaymentMethod>) returns (text: string)
      ensures text == PaymentsHeading + ConcatMap(methods, PaymentEntry)
    {
      var entries := "";
      var i := 0;
      while i < |methods|
        invariant 0 <= i <= |methods|
        invariant entries == ConcatMap(methods[..i], PaymentEntry)
      {
        ConcatMapStep(methods, PaymentEntry, i);
        entries := entries + PaymentEntry(methods[i]);
        i := i + 1;
      }
      assert methods[..i] == methods;
      text := PaymentsHeading + entries;
    }

    /** The reply `process_task` composes for a lower-cased query. */
    method Reply(query: string) returns (reply: string)
      ensures reply == BillingReply(query)
    {
      if AsksOrder(query) {
        reply := ReplyToOrder(query);
      } else {
        reply := ReplyToOther(query);
      }
    }

    /** The order branch: the report of the order found, or the list of sample ids. */
    method ReplyToOrder(query: string) returns (reply: string)
      requires AsksOrder(query)
      ensures reply == BillingReply(query)
    {
      var found := FindOrder(query, Orders);
      reply := if found.Some? then OrderReport(Orders[found.value]) else OrderHelp();
    }

    /** The payment, refund and services branches. */
    method ReplyToOther(query: string) returns (reply: string)
      requires !AsksOrder(query)
      ensures reply == BillingReply(query)
    {
      if AsksPayment(query) {
        var chosen := PaymentIndex(query);
        if chosen.Some? {
          reply := PaymentReport(Payments[chosen.value]);
        } else {
          reply := ListPayments(Payments);
        }
      } else if AsksRefund(query) {
        reply := RefundPolicyText;
      } else {
        reply := ServicesText;
      }
    }

    /** `process_task`, run by the task-created hook on the stored task; the task the
        store holds afterwards is the result. `crashed` reports the exception that
        lower-casing structured content raises. */
    method ProcessTask(t: Task, now: nat) returns (r: Task, crashed: bool)
      requires server.Valid()
      modifies server`tasks
      ensures server.Valid()
      ensures r == Handled(t, Greeting, BillingReply, now)
      ensures crashed <==> NextTurn(t) == Unreadable
      ensures server.tasks == old(server.tasks)[t.id := r]
    {
      crashed := false;
      match NextTurn(t) {
        case Greet =>
          r := Greeted(t, Greeting, now);
        case Ignore =>
          r := t.(status := IN_PROGRESS);
        case Unreadable =>
          r, crashed := t.(status := IN_PROGRESS), true;
        case Query(text) =>
          var reply := Reply(Lower(text));
          r := Answered(t, reply, now);
      }
      server.Put(r);
    }
  }
}
