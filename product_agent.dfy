/** The product agent: a specialist that answers product questions from a fixed
    catalogue, choosing the product by keyword and the kind of answer by topic word. */
module ProductAgent {
  import opened Options
  import opened Strings
  import opened Models
  import opened AgentCommon
  import Server
  import Client

  /** One catalogue entry; `specs` are key/value pairs in the catalogue's order. */
  datatype Product = Product(
    key: string,
    name: string,
    price: string,
    description: string,
    specs: seq<(string, string)>,
    availability: string,
    warranty: string)

  /** The catalogue, in its dictionary order. */
  const Catalogue: seq<Product> := [
    Product("스마트폰", "A2A 스마트폰 Pro", "999,000원",
            "최첨단 A2A 기술을 탑재한 프리미엄 스마트폰입니다. 인공지능 기능과 고해상도 카메라가 특징입니다.",
            [("display", "6.7인치 OLED"), ("processor", "A2A X1 칩셋"), ("camera", "50MP 트리플 카메라"), ("battery", "5000mAh")],
            "재고 있음", "1년 무상 보증"),
    Product("노트북", "A2A 노트북 Air", "1,599,000원",
            "초경량 디자인에 강력한 성능을 갖춘 프리미엄 노트북입니다. 전문가용 소프트웨어 실행에 최적화되어 있습니다.",
            [("display", "14인치 레티나 디스플레이"), ("processor", "A2A M2 칩셋"), ("memory", "16GB 통합 메모리"), ("storage", "512GB SSD")],
            "재고 있음", "1년 무상 보증"),
    Product("스마트워치", "A2A 워치 4", "499,000원",
            "건강 모니터링과 피트니스 기능이 강화된 최신 스마트워치입니다. 방수 기능과 긴 배터리 수명이 특징입니다.",
            [("display", "1.9인치 AMOLED"), ("sensors", "심박수, 혈중 산소, 심전도"), ("battery", "최대 2일 사용 가능"), ("connectivity", "블루투스 5.2, WiFi")],
            "재고 있음", "1년 무상 보증"),
    Product("태블릿", "A2A 태블릿 Pro", "899,000원",
            "강력한 성능과 S펜 지원을 갖춘 크리에이티브 작업용 태블릿입니다. 선명한 디스플레이가 특징입니다.",
            [("display", "11인치 Super AMOLED"), ("processor", "A2A X1 칩셋"), ("memory", "8GB RAM"), ("storage", "256GB")],
            "재고 있음", "1년 무상 보증")
  ]

  /** The keywords of each catalogue entry, in the same order as the catalogue. */
  const Keywords: seq<seq<string>> := [
    ["스마트폰", "휴대폰", "폰", "모바일"],
    ["노트북", "랩탑", "컴퓨터"],
    ["스마트워치", "워치", "시계"],
    ["태블릿", "패드", "탭"]
  ]

  const Greeting: string := "안녕하세요! 제품 정보 에이전트입니다. 어떤 제품에 대해 알고 싶으신가요?"

  /** The agent's own card. */
  const Card: AgentCard := AgentCard(
    "product-agent", "제품 정보 에이전트", "제품 상세 정보, 사양, 가격, 재고 상태 등을 제공하는 에이전트",
    "1.0.0", "http://localhost:8001/agent",
    [AgentCapability("get_product_info", "특정 제품에 대한 상세 정보를 제공합니다",
                     Some(map["product_name" := Object(map["type" := Str("string"), "description" := Str("정보를 원하는 제품명")])])),
     AgentCapability("check_availability", "제품의 재고 상태를 확인합니다",
                     Some(map["product_name" := Object(map["type" := Str("string"), "description" := Str("재고를 확인할 제품명")])]))])

  /** `any(keyword in query for keyword in keywords)`. */
  predicate MentionsAny(query: string, keywords: seq<string>) {
    exists k :: k in keywords && Contains(query, k)
  }

  /** The catalogue entry a (lower-cased) query is about: the first whose keywords it mentions. */
  function ProductIndex(query: string): (i: Option<nat>)
    ensures i.Some? ==> i.value < |Catalogue| && MentionsAny(query, Keywords[i.value])
    ensures i.Some? ==> forall j :: 0 <= j < i.value ==> !MentionsAny(query, Keywords[j])
    ensures i.None? <==> forall j :: 0 <= j < |Keywords| ==> !MentionsAny(query, Keywords[j])
  {
    FirstMatch(Keywords, (ks: seq<string>) => MentionsAny(query, ks))
  }

  /** What the query asks about the product. */
  datatype Topic = Price | Specs | Stock | Warranty | Overview

  /** The topic, by the first rule that applies: price, then specs, then stock or
      purchase, then warranty or after-sales service, else an overview. */
  function TopicOf(query: string): (topic: Topic)
    ensures topic == Price <==> Contains(query, "가격")
    ensures topic == Specs <==> !Contains(query, "가격") && (Contains(query, "사양") || Contains(query, "스펙"))
    ensures topic == Stock <==>
              !Contains(query, "가격") && !Contains(query, "사양") && !Contains(query, "스펙") &&
              (Contains(query, "재고") || Contains(query, "구매") || Contains(query, "구입"))
    ensures topic == Warranty <==>
              !Contains(query, "가격") && !Contains(query, "사양") && !Contains(query, "스펙") &&
              !Contains(query, "재고") && !Contains(query, "구매") && !Contains(query, "구입") &&
              (Contains(query, "보증") || Contains(query, "as") || Contains(query, "a/s"))
    ensures topic == Overview <==>
              !Contains(query, "가격") && !Contains(query, "사양") && !Contains(query, "스펙") &&
              !Contains(query, "재고") && !Contains(query, "구매") && !Contains(query, "구입") &&
              !Contains(query, "보증") && !Contains(query, "as") && !Contains(query, "a/s")
  {
    if Contains(query, "가격") then Price
    else if Contains(query, "사양") || Contains(query, "스펙") then Specs
    else if Contains(query, "재고") || Contains(query, "구매") || Contains(query, "구입") then Stock
    else if Contains(query, "보증") || Contains(query, "as") || Contains(query, "a/s") then Warranty
    else Overview
  }

  /** One line of the specification list. */
  function SpecLine(spec: (string, string)): string {
    "- " + spec.0 + ": " + spec.1
  }

  /** `[f"- {key}: {value}" for key, value in specs.items()]`. */
  function SpecLines(specs: seq<(string, string)>): (lines: seq<string>)
    ensures |lines| == |specs| && forall i :: 0 <= i < |specs| ==> lines[i] == SpecLine(specs[i])
  {
    seq(|specs|, i requires 0 <= i < |specs| => SpecLine(specs[i]))
  }

  /** The specification list, one line per entry. */
  function SpecText(specs: seq<(string, string)>): string {
    Join(SpecLines(specs), "\n")
  }

  /** The answer about product `p` on `topic`; every answer opens with the product's key and name. */
  function Describe(p: Product, topic: Topic): (r: string)
    ensures StartsWith(r, p.key + " " + p.name)
  {
    var head := p.key + " " + p.name;
    match topic
    case Price => head + "의 가격은 " + p.price + "입니다."
    case Specs => head + "의 사양:\n" + SpecText(p.specs)
    case Stock => head + "은(는) " + p.availability + "입니다."
    case Warranty => head + "의 보증 정책: " + p.warranty
    case Overview =>
      head + (":\n가격: " + (p.price + ("\n설명: " + (p.description + ("\n재고: " + (p.availability + ("\n보증: " + p.warranty)))))))
  }

  /** The apology for a query about no known product, naming every product. */
  function NotFoundText(): string {
    "죄송합니다. 요청하신 제품을 찾을 수 없습니다. 현재 정보를 제공할 수 있는 제품은 다음과 같습니다: " +
    Join(seq(|Catalogue|, i requires 0 <= i < |Catalogue| => Catalogue[i].key), ", ")
  }

  /** The agent's reply to a lower-cased query. */
  function ProductReply(query: string): string {
    match ProductIndex(query)
    case Some(i) => Describe(Catalogue[i], TopicOf(query))
    case None => NotFoundText()
  }

  /** A price answer quotes the price. */
  lemma PriceAnswerQuotesPrice(p: Product)
    ensures Contains(Describe(p, Price), p.price)
  {
    ContainsPart(p.key + " " + p.name + "의 가격은 ", p.price, "입니다.");
  }

  /** A specification answer lists every specification line. */
  lemma SpecAnswerListsSpecs(p: Product, k: nat)
    requires k < |p.specs|
    ensures Contains(Describe(p, Specs), SpecLine(p.specs[k]))
  {
    var head := p.key + " " + p.name + "의 사양:\n";
    JoinContainsEach(SpecLines(p.specs), "\n", k);
    ContainsInfix(head, SpecText(p.specs), "", SpecLine(p.specs[k]));
    assert head + SpecText(p.specs) + "" == Describe(p, Specs);
  }

  /** The overview quotes price, description, stock and warranty. */
  lemma OverviewQuotesEverything(p: Product)
    ensures var r := Describe(p, Overview);
            Contains(r, p.price) && Contains(r, p.description) && Contains(r, p.availability) && Contains(r, p.warranty)
  {
    var head := p.key + " " + p.name;
    var t7 := "\n보증: " + p.warranty;
    var t6 := p.availability + t7;
    var t5 := "\n재고: " + t6;
    var t4 := p.description + t5;
    var t3 := "\n설명: " + t4;
    var t2 := p.price + t3;
    var t1 := ":\n가격: " + t2;
    assert Describe(p, Overview) == head + t1;
    ContainsStart(p.price, t3);
    ContainsStart(p.description, t5);
    ContainsStart(p.availability, t7);
    ContainsSelf(p.warranty);
    ContainsAfter("\n보증: ", p.warranty, p.warranty);
    ContainsAfter(p.availability, t7, p.warranty);
    ContainsAfter("\n재고: ", t6, p.availability);
    ContainsAfter("\n재고: ", t6, p.warranty);
    ContainsAfter(p.description, t5, p.availability);
    ContainsAfter(p.description, t5, p.warranty);
    ContainsAfter("\n설명: ", t4, p.description);
    ContainsAfter("\n설명: ", t4, p.availability);
    ContainsAfter("\n설명: ", t4, p.warranty);
    ContainsAfter(p.price, t3, p.description);
    ContainsAfter(p.price, t3, p.availability);
    ContainsAfter(p.price, t3, p.warranty);
    ContainsAfter(":\n가격: ", t2, p.price);
    ContainsAfter(":\n가격: ", t2, p.description);
    ContainsAfter(":\n가격: ", t2, p.availability);
    ContainsAfter(":\n가격: ", t2, p.warranty);
    ContainsAfter(head, t1, p.price);
    ContainsAfter(head, t1, p.description);
    ContainsAfter(head, t1, p.availability);
    ContainsAfter(head, t1, p.warranty);
  }

  /** A query about a catalogue product gets an answer naming it; a price question quotes
      the price, a specification question lists every specification line, and the
      overview quotes price, description, stock and warranty. */
  lemma AnswerCarriesFacts(query: string, i: nat)
    requires ProductIndex(query) == Some(i)
    ensures StartsWith(ProductReply(query), Catalogue[i].key + " " + Catalogue[i].name)
    ensures TopicOf(query) == Price ==> Contains(ProductReply(query), Catalogue[i].price)
    ensures TopicOf(query) == Specs ==>
              forall k :: 0 <= k < |Catalogue[i].specs| ==> Contains(ProductReply(query), SpecLine(Catalogue[i].specs[k]))
    ensures TopicOf(query) == Overview ==>
              Contains(ProductReply(query), Catalogue[i].price) && Contains(ProductReply(query), Catalogue[i].description) &&
              Contains(ProductReply(query), Catalogue[i].availability) && Contains(ProductReply(query), Catalogue[i].warranty)
  {
    var p := Catalogue[i];
    assert ProductReply(query) == Describe(p, TopicOf(query));
    PriceAnswerQuotesPrice(p);
    forall k | 0 <= k < |p.specs|
      ensures Contains(Describe(p, Specs), SpecLine(p.specs[k]))
    {
      SpecAnswerListsSpecs(p, k);
    }
    OverviewQuotesEverything(p);
  }

  /** A query about no known product gets the apology, which names every product. */
  lemma UnknownProductListsCatalogue(query: string)
    requires ProductIndex(query) == None
    ensures forall k :: 0 <= k < |Catalogue| ==> Contains(ProductReply(query), Catalogue[k].key)
  {
    var keys := seq(|Catalogue|, i requires 0 <= i < |Catalogue| => Catalogue[i].key);
    var lead := "죄송합니다. 요청하신 제품을 찾을 수 없습니다. 현재 정보를 제공할 수 있는 제품은 다음과 같습니다: ";
    forall k | 0 <= k < |Catalogue|
      ensures Contains(ProductReply(query), Catalogue[k].key)
    {
      JoinContainsEach(keys, ", ", k);
      ContainsInfix(lead, Join(keys, ", "), "", keys[k]);
      assert lead + Join(keys, ", ") + "" == NotFoundText();
    }
  }

  class ProductAgent {
    const card: AgentCard
    const server: Server.A2AServer
    const client: Client.A2AClient

    constructor ()
      ensures card == Card && fresh(server) && fresh(client)
      ensures server.card == Card && server.tasks == map[] && server.Valid()
      ensures client.agentId == Card.id && client.registered == map[]
    {
      card := Card;
      server := new Server.A2AServer(Card);
      client := new Client.A2AClient(Card.id, None);
    }

    /** The search over the keyword table, stopping at the first product mentioned. */
    method FindProduct(query: string) returns (found: Option<nat>)
      ensures found == ProductIndex(query)
    {
      var i := 0;
      while i < |Keywords|
        invariant 0 <= i <= |Keywords|
        invariant forall j :: 0 <= j < i ==> !MentionsAny(query, Keywords[j])
      {
        if MentionsAny(query, Keywords[i]) {
          FirstMatchUnique(Keywords, (ks: seq<string>) => MentionsAny(query, ks), i);
          return Some(i);
        }
        i := i + 1;
      }
      found := None;
    }

    /** `process_task`, run by the task-created hook on the stored task; the task the
        store holds afterwards is the result. `crashed` reports the exception that
        lower-casing structured content raises. */
    method ProcessTask(t: Task, now: nat) returns (r: Task, crashed: bool)
      requires server.Valid()
      modifies server`tasks
      ensures server.Valid()
      ensures r == Handled(t, Greeting, ProductReply, now)
      ensures crashed <==> NextTurn(t) == Unreadable
      ensures server.tasks == old(server.tasks)[t.id := r]
    {
      crashed := false;
      match NextTurn(t) {
        case Greet =>
          r := Greeted(t, Greeting, now);
        case Ignore =>
          r := t.(status := IN_PROGRESS);
        case Unreadable =>
          r, crashed := t.(status := IN_PROGRESS), true;
        case Query(text) =>
          var query := Lower(text);
          var found := FindProduct(query);
          var reply := if found.Some? then Describe(Catalogue[found.value], TopicOf(query)) else NotFoundText();
          r := Answered(t, reply, now);
      }
      server.Put(r);
    }
  }
}
