/** The four agents deployed together: the customer support agent finds each specialist
    at a fixed address, and what a specialist does with the task delegated to it decides
    what the customer support agent passes on. */
module Deployment {
  import opened Strings
  import opened Models
  import opened AgentCommon
  import Server
  import Client
  import SupportAgent
  import ProductAgent
  import ShippingAgent
  import BillingAgent

  /** The card each specialist serves. */
  function SpecialistCard(role: SupportAgent.Role): AgentCard {
    match role
    case ProductRole => ProductAgent.Card
    case ShippingRole => ShippingAgent.Card
    case BillingRole => BillingAgent.Card
  }

  /** The greeting each specialist gives an empty task. */
  function SpecialistGreeting(role: SupportAgent.Role): string {
    match role
    case ProductRole => ProductAgent.Greeting
    case ShippingRole => ShippingAgent.Greeting
    case BillingRole => BillingAgent.Greeting
  }

  /** How each specialist answers a lower-cased query. */
  function SpecialistReply(role: SupportAgent.Role): string -> string {
    match role
    case ProductRole => ProductAgent.ProductReply
    case ShippingRole => ShippingAgent.ShippingReply
    case BillingRole => BillingAgent.BillingReply
  }

  /** Each specialist's card names the address the customer support agent looks it up
      at, but its id is not the role key the customer support agent files it under. */
  lemma {:induction false} CardsMatchAddressesNotKeys(role: SupportAgent.Role)
    ensures SpecialistCard(role).baseUrl == SupportAgent.RoleUrl(role)
    ensures SpecialistCard(role).id != SupportAgent.RoleKey(role)
  {
    match role
    case ProductRole =>
      assert ProductAgent.Card.id[..|"product"|] == "product" && |ProductAgent.Card.id| == 13;
    case ShippingRole =>
      assert |ShippingAgent.Card.id| == 14;
    case BillingRole =>
      assert |BillingAgent.Card.id| == 13;
  }

  /** Discovering a specialist while delegating files its card under the card's own id,
      so the role key is still missing afterwards: delegation then takes the degraded
      path unless startup has already filed the card under the role key. */
  lemma LazyDiscoveryMissesRoleKey(registry: map<string, AgentCard>, role: SupportAgent.Role)
    requires SupportAgent.RoleKey(role) !in registry
    ensures SupportAgent.RoleKey(role) !in registry[SpecialistCard(role).id := SpecialistCard(role)]
  {
    CardsMatchAddressesNotKeys(role);
  }

  /** Every specialist has something to say when it greets. */
  lemma GreetingsAreNonEmpty(role: SupportAgent.Role)
    ensures SpecialistGreeting(role) != ""
  {
    match role
    case ProductRole => assert |ProductAgent.Greeting| > 0;
    case ShippingRole => assert |ShippingAgent.Greeting| > 0;
    case BillingRole => assert |BillingAgent.Greeting| > 0;
  }

  /** A poll that finds a single non-empty text message forwards that text. */
  lemma SingleTextIsForwarded(remote: Task, id: string, text: string, now: nat)
    requires text != "" && remote.messages == [NewMessage(id, Text(text), now)]
    ensures SupportAgent.Inspect(Client.Ok(remote)) == SupportAgent.Forward(text)
  {
    assert SupportAgent.HasContent(remote.messages[0]);
    FirstMatchUnique(remote.messages, SupportAgent.HasContent, 0);
  }

  /** A first poll that forwards a text settles the polling with that text as the answer. */
  lemma FirstForwardSettles(role: SupportAgent.Role, text: string, later: seq<SupportAgent.PollStep>)
    ensures SupportAgent.Settle([SupportAgent.Forward(text)] + later) == SupportAgent.PollResult(SupportAgent.Answer(text), 1)
    ensures SupportAgent.FinalText(role, SupportAgent.Answer(text)) == text
  {
    var steps := [SupportAgent.Forward(text)] + later;
    assert SupportAgent.Decisive(steps[0]);
    FirstMatchUnique(steps, SupportAgent.Decisive, 0);
  }

  /** A delegated task reaches the specialist with no messages, since the customer
      support agent never posts the query to it; the specialist therefore only greets,
      and the first poll that sees the greeting ends the polling with the greeting as
      the answer passed on to the customer. */
  lemma {:induction false} DelegationForwardsGreeting(role: SupportAgent.Role, req: Server.TaskRequest, hex: string,
                                                      created: nat, now: nat, later: seq<SupportAgent.PollStep>)
    requires IsHexToken(hex, 10)
    ensures var remote := Handled(Server.TaskFromRequest(req, hex, created), SpecialistGreeting(role), SpecialistReply(role), now);
            remote.messages == [NewMessage(GreetingId(remote.id), Text(SpecialistGreeting(role)), now)] &&
            remote.status == IN_PROGRESS &&
            SupportAgent.Inspect(Client.Ok(remote)) == SupportAgent.Forward(SpecialistGreeting(role))
    ensures var first := SupportAgent.Forward(SpecialistGreeting(role));
            SupportAgent.Settle([first] + later) == SupportAgent.PollResult(SupportAgent.Answer(SpecialistGreeting(role)), 1) &&
            SupportAgent.FinalText(role, SupportAgent.Settle([first] + later).verdict) == SpecialistGreeting(role)
  {
    var remote := Handled(Server.TaskFromRequest(req, hex, created), SpecialistGreeting(role), SpecialistReply(role), now);
    GreetingsAreNonEmpty(role);
    SingleTextIsForwarded(remote, GreetingId(remote.id), SpecialistGreeting(role), now);
    FirstForwardSettles(role, SpecialistGreeting(role), later);
  }
}
