# A2A customer support system — a Dafny model

This project models the in-memory core of a small agent-to-agent (A2A) system:

- the **protocol records**: messages, tasks and agent cards, with their defaults;
- the **protocol server**: a task store with create, get, post-message and update endpoints, plus per-task message handlers;
- the **protocol client**: a registry of discovered agent cards, and guarded remote calls;
- the **customer support agent**. It greets new tasks and answers or forwards each text query by category and keyword. It delegates to a specialist by creating a remote task and polling it at most ten times;
- the three **specialists** (product, shipping, billing). Each greets an empty task or appends exactly one reply chosen by ordered substring rules, then applies the status rule: `COMPLETED` from four messages on, else `WAITING_FOR_INPUT`;
- the product agent's **own endpoints**, which create by overwriting and accept only text;
- the customer-facing **query API**, which opens or extends a task with a `msg_query_` message and reads the answer off the task.

Records are datatypes. Everything the source changes in place is a class:

- the server's task map;
- the client's registry;
- each agent, holding its server and client.

When an agent processes a task, its method returns the new task value. The method then writes that value back under the task's id, which is where the shared Python object would be seen. The environment comes in as parameters:

- the clock is a `nat`;
- the hex that `uuid4` would give is a string with a shape requirement;
- every remote reply is a `Reply`;
- the classifier, knowledge base and text generator form a `Collaborators` record.

Delegation takes a `RemoteScript` holding the specialist's replies: one to discovery, one to task creation, and one to each of the ten polls.

The model follows the code, including where it behaves differently from what its structure suggests was intended:

- **Lazy discovery during delegation.** It files the card under the card's own id (`product-agent`), never under the role key (`product`). A role that `startup` did not register therefore ends in the degraded-service message whenever the lazy discovery succeeds. `Deployment.LazyDiscoveryMissesRoleKey` proves this.
- **Failed discovery.** It reaches the outer handler, which gives the "request error" text, not the degraded-service text.
- **Delegated tasks.** The customer support agent never posts the query to the remote task. So the specialist only greets, and the greeting is what gets passed on (`Deployment.DelegationForwardsGreeting`).
- **Missing shipping policy.** When the knowledge base has no shipping policy, `send_response` is handed `None`. The customer support agent then raises instead of answering (`Crash`).

## Model

| member | source | states |
|---|---|---|
| Models.ParseMessageType | a2a_protocol/models.py:7-12 | Only the five wire values text, image, audio, video and file parse to a message type, each to the one named by it |
| Models.MessageTypeRoundTrip | a2a_protocol/models.py:7-12 | Every message type parses back from its wire value, and from no other string |
| Models.ParseStatus | a2a_protocol/models.py:32-38 | Only the six status wire values parse to a status, each to the one named by it |
| Models.StatusRoundTrip | a2a_protocol/models.py:32-38 | Every status parses back from its wire value, and from no other string |
| Models.NewMessage | a2a_protocol/models.py:15-19 | A message built without a type has type TEXT, with the given id, content and time |
| Models.NewTask | a2a_protocol/models.py:41-49 | A task built without status, messages or metadata is CREATED, empty, has no metadata, and was created and updated now |
| Models.NewCapability | a2a_protocol/models.py:66-69 | A capability built without parameters has none |
| Models.NewAgentCard | a2a_protocol/models.py:72-79 | A card built without them has no capabilities and does not require authentication |
| Models.Append | a2a_protocol/server.py:79 | Appending puts the message last, keeps every earlier message, and changes no other field |
| Server.TaskFromRequest | a2a_protocol/server.py:31-46 | The created task takes the given id, or `task_` plus ten hex digits; title defaults to 새 작업, description to "", metadata to {}; it is CREATED and empty |
| Server.MessageFromRequest | a2a_protocol/server.py:70-76 | The message is refused exactly when its type is not a message type. Otherwise its id defaults to `msg_` plus ten hex digits, its type to TEXT and its content to "" |
| Server.Posted | a2a_protocol/server.py:79-81 | Posting appends the message last, sets updated_at to now and the status to IN_PROGRESS, and keeps the other fields |
| Server.ApplyUpdate | a2a_protocol/server.py:95-99 | An update is refused exactly when the status given is not a status. Otherwise the status given, or the old one when none is given, is taken and updated_at is set; messages are kept |
| Server.UpdateSkipsTransitionCheck | a2a_protocol/server.py:96-97 | Any status, terminal or not, can be set on any task |
| Server.A2AServer.constructor | a2a_protocol/server.py:13-27 | A new server holds its card, which the card endpoint serves, with no tasks and no handlers |
| Server.A2AServer.CreateTask | a2a_protocol/server.py:30-53 | 409 exactly when the id is already stored, with the store unchanged; otherwise exactly one new entry, the CREATED task built from the request |
| Server.A2AServer.GetTask | a2a_protocol/server.py:56-60 | The stored task exactly when the id is stored, else 404; reading changes nothing |
| Server.A2AServer.AddMessage | a2a_protocol/server.py:63-86 | 404 exactly on an unknown task and no task is created. A refused type changes nothing. Otherwise the task becomes its posted form, and only that task's handler is invoked |
| Server.A2AServer.UpdateTask | a2a_protocol/server.py:89-101 | 404 exactly on an unknown task; otherwise the stored task becomes the applied update, and a refused status changes nothing |
| Server.A2AServer.RegisterMessageHandler | a2a_protocol/server.py:114-116 | Registering for a task id replaces any earlier handler for it and touches no other |
| Server.A2AServer.Put | specialized_agents/shipping_agent/shipping_agent.py:253 | Writing a task back stores it under its own id, keeping every task under its own id |
| Client.A2AClient.constructor | a2a_protocol/client.py:13-16 | A new client has its agent id and base URL and an empty registry |
| Client.A2AClient.DiscoverAgent | a2a_protocol/client.py:18-29 | Fetches `<url>/.well-known/agent.json`. On success the card is returned and registered under its own id. A failure registers nothing |
| Client.A2AClient.CreateTask | a2a_protocol/client.py:31-56 | An unregistered key fails before any request. Otherwise one POST to `<base>/a2a/tasks` carries a `task_` id and `metadata or {}`, and the call succeeds exactly on a task reply |
| Client.A2AClient.SendMessage | a2a_protocol/client.py:58-82 | Same guard; otherwise one POST of a `msg_` id, type and content to `<base>/a2a/tasks/<id>/messages` |
| Client.A2AClient.GetTaskStatus | a2a_protocol/client.py:84-100 | Same guard; otherwise one GET of `<base>/a2a/tasks/<id>`, succeeding exactly on a task reply |
| AgentCommon.ResponseIdInjective | agent/customer_support_agent.py:142 | Response ids made at different message counts on one task differ |
| AgentCommon.AgentIdsPassGate | agent/customer_support_agent.py:79-90 | The agents' own greeting and response ids start with `msg_` |
| AgentCommon.NextTurn | agent/customer_support_agent.py:77-91 | Greet exactly on an empty task. Ignore exactly when the latest id lacks `msg_`. Query exactly on a `msg_` text message, and the query is that text |
| AgentCommon.Greeted | specialized_agents/product_agent/product_agent.py:143-152 | Greeting appends one `msg_greeting_<id>` message and sets IN_PROGRESS |
| AgentCommon.Answered | specialized_agents/product_agent/product_agent.py:208-219 | Answering appends one `msg_response_<id>_<count>` message, then sets COMPLETED from four messages on, else WAITING_FOR_INPUT |
| AgentCommon.Handled | specialized_agents/product_agent/product_agent.py:138-219 | A specialist adds one message exactly on an empty task or a text query, keeps the earlier messages, and sets COMPLETED exactly when answering brings the task to four messages |
| AgentCommon.ConversationCompletesOnSecondAnswer | specialized_agents/product_agent/product_agent.py:216-219 | Greeting, query and answer leave a task waiting for input; a second query and answer complete it |
| AgentCommon.FirstMatch | specialized_agents/product_agent/product_agent.py:174-178 | The search with break finds the earliest candidate that matches, or reports that none does |
| AgentCommon.FirstMatchUnique | specialized_agents/product_agent/product_agent.py:174-178 | The earliest matching index is the search's result |
| SupportAgent.Dispatch | agent/customer_support_agent.py:94-137 | general: the FAQ answer when it is non-empty, else the generated text. product: a shortcut product's info, else delegation. shipping: the knowledge base's policy exactly when the query has 배송 and 정책 (a crash when it is missing), else delegation. billing: delegation. other: generated text |
| SupportAgent.ProductShortcutOrder | agent/customer_support_agent.py:110-113 | 스마트폰 is tried before 노트북, and only a truthy info answers locally |
| SupportAgent.ShortcutNamesAreLowerCase | agent/customer_support_agent.py:111 | Lower-casing the shortcut names changes nothing |
| SupportAgent.SendResponse | agent/customer_support_agent.py:139-147 | One message `msg_response_<id>_<count>` is appended and updated_at becomes its time |
| SupportAgent.ConsecutiveResponsesDistinct | agent/customer_support_agent.py:142 | Two responses in a row get different ids |
| SupportAgent.Inspect | agent/customer_support_agent.py:186-208 | A failed poll, or one with no messages, keeps polling. Otherwise the earliest message with content decides: its text is forwarded, and structured content counts as a failed poll. With messages but none with content, COMPLETED ends with no content |
| SupportAgent.Settle | agent/customer_support_agent.py:183-214 | The first decisive poll ends polling and no poll follows it. No response means all polls were made and none was decisive |
| SupportAgent.StartupKeepsKeys | agent/customer_support_agent.py:57-67 | Startup never removes a registered card |
| SupportAgent.StartupRegistersRoles | agent/customer_support_agent.py:57-67 | A role whose discovery succeeds is registered under its role key |
| SupportAgent.CustomerSupportAgent.constructor | agent/customer_support_agent.py:18-33 | A new agent has an empty store and an empty registry under its own card |
| SupportAgent.CustomerSupportAgent.Startup | agent/customer_support_agent.py:57-67 | The registry afterwards is the startup fold over the three roles in order |
| SupportAgent.CustomerSupportAgent.FirstContent | agent/customer_support_agent.py:197-201 | The scan finds the earliest message with content |
| SupportAgent.CustomerSupportAgent.PollDelegated | agent/customer_support_agent.py:183-214 | The loop settles exactly as the poll outcomes settle and makes between 1 and 10 polls |
| SupportAgent.CustomerSupportAgent.DelegateTask | agent/customer_support_agent.py:149-224 | Failed discovery gives the request-error text. A role key still missing gives the degraded text and no remote task. A failed creation gives the request-error text. Otherwise the interim text, then the settled answer, no-content text or no-response text |
| SupportAgent.CustomerSupportAgent.ProcessTask | agent/customer_support_agent.py:69-137 | Sets IN_PROGRESS and greets an empty task. Ignores a non-`msg_` latest message. Otherwise replies, delegates (adding one or two messages), or crashes exactly when the shipping policy is missing |
| SupportAgent.CustomerSupportAgent.HandleNewTask | agent/customer_support_agent.py:45-52 | The hook leaves in the store what processing produced: a new empty task greeted, an ignored or unreadable one only marked IN_PROGRESS, a direct reply appended, a delegation adding one or two messages |
| SupportAgent.DelegationReplyShape | agent/customer_support_agent.py:175-214 | A delegation that polled appends exactly the interim message and the verdict; no response means ten polls |
| ProductAgent.ProductIndex | specialized_agents/product_agent/product_agent.py:167-178 | The product found is the first in table order with a keyword in the query, or none |
| ProductAgent.TopicOf | specialized_agents/product_agent/product_agent.py:185-201 | Each topic exactly when its keywords occur and no earlier rule's do: price on 가격, then specs on 사양/스펙, then stock on 재고/구매/구입, then warranty on 보증/as/a/s, else the overview |
| ProductAgent.Describe | specialized_agents/product_agent/product_agent.py:184-201 | Every product answer starts with the product key and name |
| ProductAgent.PriceAnswerQuotesPrice | specialized_agents/product_agent/product_agent.py:186 | The price answer contains the price |
| ProductAgent.SpecAnswerListsSpecs | specialized_agents/product_agent/product_agent.py:187-190 | The spec answer contains every spec line |
| ProductAgent.OverviewQuotesEverything | specialized_agents/product_agent/product_agent.py:195-201 | The overview contains price, description, availability and warranty |
| ProductAgent.AnswerCarriesFacts | specialized_agents/product_agent/product_agent.py:180-201 | For a found product, the reply names it and carries the facts its topic asks for |
| ProductAgent.UnknownProductListsCatalogue | specialized_agents/product_agent/product_agent.py:202-205 | With no product found, the reply lists every product name |
| ProductAgent.ProductAgent.constructor | specialized_agents/product_agent/product_agent.py:14-22 | A new agent has its card, an empty store and an empty registry |
| ProductAgent.ProductAgent.FindProduct | specialized_agents/product_agent/product_agent.py:174-178 | The loop finds the product the search names |
| ProductAgent.ProductAgent.ProcessTask | specialized_agents/product_agent/product_agent.py:138-219 | The task becomes its handled form with the product reply; the store holds it; a structured query raises |
| ShippingAgent.ShipmentIndex | specialized_agents/shipping_agent/shipping_agent.py:177-181 | The first of the three numbers whose lower-case form is in the query, or none |
| ShippingAgent.PolicyIndex | specialized_agents/shipping_agent/shipping_agent.py:205-211 | Each policy exactly when its words occur and no earlier one's do: standard on 표준/일반, then express on 빠른/익일/익스프레스, then same-day on 당일, else none |
| ShippingAgent.AnswerFor | specialized_agents/shipping_agent/shipping_agent.py:175-236 | Tracking exactly when (배송 and 조회/확인/상태) or 추적. Policy exactly otherwise on 정책/비용/요금/기간. Else the list of services |
| ShippingAgent.ReportListsHistory | specialized_agents/shipping_agent/shipping_agent.py:183-196 | A tracking report is its head followed by one line per history entry, in order, and contains each |
| ShippingAgent.HelpOffersEveryNumber | specialized_agents/shipping_agent/shipping_agent.py:197-201 | Without a known number, the reply offers every sample number |
| ShippingAgent.AllPoliciesListsEach | specialized_agents/shipping_agent/shipping_agent.py:220-227 | The list of all policies contains each policy's entry |
| ShippingAgent.ShippingAgent.constructor | specialized_agents/shipping_agent/shipping_agent.py:12-20 | A new agent has its card, an empty store and an empty registry |
| ShippingAgent.ShippingAgent.FindShipment | specialized_agents/shipping_agent/shipping_agent.py:177-181 | The loop over the shipment table finds its first shipment named in the query |
| ShippingAgent.ShippingAgent.RenderHistory | specialized_agents/shipping_agent/shipping_agent.py:194-196 | The loop appends one line per history entry, in order |
| ShippingAgent.ShippingAgent.ListPolicies | specialized_agents/shipping_agent/shipping_agent.py:220-227 | The loop appends one entry per policy, in order, after the heading |
| ShippingAgent.ShippingAgent.Reply | specialized_agents/shipping_agent/shipping_agent.py:172-236 | The reply built is the shipping reply to the query |
| ShippingAgent.ShippingAgent.ReplyToTracking | specialized_agents/shipping_agent/shipping_agent.py:175-203 | For a tracking question, the reply built is the shipping reply |
| ShippingAgent.ShippingAgent.ReplyToOther | specialized_agents/shipping_agent/shipping_agent.py:204-236 | For any other question, the reply built is the shipping reply |
| ShippingAgent.ShippingAgent.ProcessTask | specialized_agents/shipping_agent/shipping_agent.py:146-253 | The task becomes its handled form with the shipping reply; the store holds it |
| BillingAgent.ThousandsGrouping | specialized_agents/billing_agent/billing_agent.py:196 | In the `{:,}` rendering of any amount, commas stand exactly every fourth place from the right and every other character is a digit, so the digits come in groups of three with a shorter group only at the front |
| BillingAgent.Group | specialized_agents/billing_agent/billing_agent.py:196 | A group below a thousand is three digits that read back as the number |
| BillingAgent.ThousandsDigits | specialized_agents/billing_agent/billing_agent.py:196 | Removing the commas gives the plain decimal rendering |
| BillingAgent.ThousandsSeparated | specialized_agents/billing_agent/billing_agent.py:196 | There is a comma exactly from 1000 on |
| BillingAgent.ThousandsExamples | specialized_agents/billing_agent/billing_agent.py:196-208 | 999000 renders as 999,000 and 1599000 as 1,599,000 |
| BillingAgent.OrderIndex | specialized_agents/billing_agent/billing_agent.py:185-189 | The first order id whose lower-case form is in the query, or none |
| BillingAgent.PaymentIndex | specialized_agents/billing_agent/billing_agent.py:217-223 | Each method exactly when its words occur and no earlier one's do: card on 카드/신용, then transfer on 계좌/이체, then mobile on 모바일/간편, else none |
| BillingAgent.AnswerFor | specialized_agents/billing_agent/billing_agent.py:183-263 | Order exactly when (주문 and 조회/확인/내역) or 결제 내역. Else payment on 결제 and 방법/수단. Else refund on 환불/취소/반품. Else services |
| BillingAgent.ReportQuotesAmount | specialized_agents/billing_agent/billing_agent.py:191-200 | An order report contains the comma-separated amount line |
| BillingAgent.ReportRefundLines | specialized_agents/billing_agent/billing_agent.py:202-208 | Refund lines follow the summary exactly when the order has a refund, and carry the refund amount |
| BillingAgent.HelpOffersEveryOrder | specialized_agents/billing_agent/billing_agent.py:209-213 | Without a known order id, the reply offers every sample id |
| BillingAgent.AllPaymentsListsEach | specialized_agents/billing_agent/billing_agent.py:232-239 | The list of all payment methods contains each method's entry |
| BillingAgent.BillingAgent.constructor | specialized_agents/billing_agent/billing_agent.py:15-23 | A new agent has its card, an empty store and an empty registry |
| BillingAgent.BillingAgent.FindOrder | specialized_agents/billing_agent/billing_agent.py:186-189 | The loop over the order table finds its first order named in the query |
| BillingAgent.BillingAgent.ListPayments | specialized_agents/billing_agent/billing_agent.py:232-239 | The loop appends one entry per payment method, in order, after the heading |
| BillingAgent.BillingAgent.Reply | specialized_agents/billing_agent/billing_agent.py:179-263 | The reply built is the billing reply to the query |
| BillingAgent.BillingAgent.ReplyToOrder | specialized_agents/billing_agent/billing_agent.py:183-213 | For an order question, the reply built is the billing reply |
| BillingAgent.BillingAgent.ReplyToOther | specialized_agents/billing_agent/billing_agent.py:216-263 | For any other question, the reply built is the billing reply |
| BillingAgent.BillingAgent.ProcessTask | specialized_agents/billing_agent/billing_agent.py:154-277 | The task becomes its handled form with the billing reply; the store holds it |
| ProductEndpoints.Widen | specialized_agents/product_agent/main.py:28-31 | Each local status has the protocol status of the same wire value, and none is waiting, failed or cancelled |
| ProductEndpoints.LocalStatusesAreProtocolStatuses | specialized_agents/product_agent/main.py:28-31 | The local statuses are exactly created, in_progress and completed, and read back as those |
| ProductEndpoints.ParseLocalMessageType | specialized_agents/product_agent/main.py:34-37 | Exactly text, image and video parse |
| ProductEndpoints.LocalMessageFromRequest | specialized_agents/product_agent/main.py:145-151 | Refused exactly on a type outside the three or on non-string content; otherwise the defaults `msg_` id, TEXT and "" |
| ProductEndpoints.LocalMessagesAreProtocolMessages | specialized_agents/product_agent/main.py:34-55 | Whatever these endpoints accept, the shared server accepts as the same message; audio and file are refused here |
| ProductEndpoints.ProductService.constructor | specialized_agents/product_agent/main.py:57-68 | Startup leaves an agent with an empty store |
| ProductEndpoints.ProductService.CreateTask | specialized_agents/product_agent/main.py:100-126 | A fresh CREATED task with no messages replaces any task with that id; there is no conflict check |
| ProductEndpoints.ProductService.GetTask | specialized_agents/product_agent/main.py:128-134 | The stored task exactly when the id is stored, else 404 |
| ProductEndpoints.ProductService.SendMessage | specialized_agents/product_agent/main.py:136-169 | 404 exactly on an unknown task; a refused message changes nothing; otherwise the task becomes its posted form |
| Routes.QueryTask | api/routes.py:31-47 | A question's task has a `task_` id, title 고객 질문, the question as description, and one `msg_query_<task id>` message with the question |
| Routes.NewQuestionIsQuery | api/routes.py:42-53 | The agent takes a new question as its query |
| Routes.FollowUpIsQuery | api/routes.py:89-97 | The agent takes a follow-up question as its query, whatever the task held |
| Routes.ReplyIsLatestAgentMessage | api/routes.py:56-59 | Once the agent added anything after the question, the answer is its latest message and not the placeholder |
| Routes.QueryApi.constructor | api/routes.py:111-114 | The routes are bound to the given agent |
| Routes.QueryApi.HandleQuery | api/routes.py:25-64 | The new task is stored under its id, and only that entry changes. The answer names that id and is the latest message. The call fails exactly when the agent crashes |
| Routes.QueryApi.GetTask | api/routes.py:67-75 | The stored task exactly when the id is stored, else 404 |
| Routes.QueryApi.AddMessage | api/routes.py:78-108 | 404 exactly on an unknown task, with store and registry unchanged. Otherwise the question is appended after the old messages, the answer is the latest message, and the call fails exactly when the agent crashes |
| Deployment.CardsMatchAddressesNotKeys | agent/customer_support_agent.py:152-159 | Each specialist's card has the address it is looked up at, but an id that is not its role key |
| Deployment.LazyDiscoveryMissesRoleKey | agent/customer_support_agent.py:155-164 | Discovering during delegation leaves the role key unregistered |
| Deployment.SingleTextIsForwarded | agent/customer_support_agent.py:197-201 | A poll whose only message is a non-empty text forwards that text |
| Deployment.DelegationForwardsGreeting | agent/customer_support_agent.py:167-201 | A delegated task reaches the specialist empty and is only greeted; the first poll forwards the greeting as the answer |

## Left out

- I/O and the environment:
  - HTTP transport, timeouts and JSON: every remote reply is a parameter.
  - `datetime.now`: a `nat` clock parameter, and every call in one request reads the same value.
  - `uuid4`: a hex parameter with a shape requirement.
  - Logging and `traceback.print_exc`.
- Concurrency. `asyncio.create_task`, the waits between polls, and the re-bound task-created hooks run sequentially here, as explicit method calls. The product endpoints hand the new task and message to the hooks fire-and-forget. That hand-off is not modelled; `ProductAgent.ProductAgent.ProcessTask` models what the task hook runs.
- Aliasing of task objects. Python shares one task object between the store and the agent processing it. The model returns the new task value and stores it under its id. As a result, the specialists' write-back happens on every path, while the source writes explicitly only on some and relies on the sharing for the others.
- Structured (dict) content as a query. It is lower-cased by the specialists and classified by the customer support agent. The model treats it as unreadable: the task is marked `IN_PROGRESS` and nothing is appended.
- Strings.Lower: only ASCII letters are lower-cased. The keywords and queries in question are Korean, or ASCII identifiers.
- The inner `except` around the poll loop (agent/customer_support_agent.py:215-218 and its two copies). The loop swallows every poll error, so it cannot be reached.
- The classifier, the FAQ and product knowledge base, and the text generator are parameters (`Collaborators`). Their texts are arbitrary.
- Persistence, web pages, the language-model client, the application wiring, configuration and the customer support agent's own card are not part of this model.
- SupportAgent.CustomerSupportAgent.ProcessTask, SupportAgent.CustomerSupportAgent.HandleNewTask: on the delegation path they only bound the number of messages added (one or two) and keep the earlier ones. The exact texts are stated by `DelegateTask`.
- Routes.QueryApi.HandleQuery, Routes.QueryApi.AddMessage: an agent crash is an `InternalError` result. The source's exception would leave the framework to answer with a server error.
