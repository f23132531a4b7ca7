# Shopping chatbot — a Dafny model

This project models the rule-based core of a shopping chatbot back end and proves
properties of it. The back end has five parts.

- **Conversation handler** (`handleChatMessage`). It keeps one context record per
  session in a process-wide map. It reads each message for a greeting, a menu choice,
  an e-mail address or a five-digit order id. It then answers by a fixed, ordered list
  of rules, and may write the session's record.
- **FAQ matcher.** It scans a constant table of keyword lists in order. The first entry
  with a keyword inside the lower-cased message wins.
- **Order routes.** These hold the customer-email check and lookup and the tracking
  projection. They also hold the refund, return and exchange actions, which update one
  stored order field by field and append to its history.
- **Assistant.** It tries intents in a fixed order. It searches a constant three-product
  catalogue under a price bound and advises on returns by order status.
- **Server.** It has the CORS origin test and a race-timing store whose start and
  finish times are written once.

The database becomes parameters:

- a snapshot of the order store, `seq<Order>`;
- a connected flag;
- the product search result.

Clocks are integer parameters, and locale date text is a function parameter.
State that the source changes in place is modelled as classes:

- `Chat.ChatService` with its session map;
- `OrderRoutes.OrderStore` with its orders;
- `Server.Race` with its participants.

Each of their methods is proved equal to a pure specification function. The properties
are proved about those functions.

Files:

- `common.dfy`: `Option` and JavaScript truthiness of an optional string.
- `strings.dfy`: the string primitives the code relies on:
  - `toLowerCase` and `toUpperCase` on ASCII;
  - `trim`, `includes` and `join`;
  - the `\s`, `\d` and `\w` classes;
  - decimal number text and `parseInt`.
- `order_model.dfy`:
  - the `Order` record with its status and payment-status enums;
  - the store invariant;
  - `findOne` by id;
  - find by e-mail, sorted newest first, with an optional limit.
- `faq.dfy`: the FAQ table, `getFAQAnswer` and `getAllFAQs`.
- `extraction.dfy`: the two patterns the conversation handler uses to find an e-mail
  address and an order id.
- `chat.dfy`: the conversation handler, its classifiers and the order-list text.
- `orders.dfy`: the order routes.
- `assistant.dfy`: the assistant.
- `server.dfy`: the CORS test and the race routes.

Two behaviours of the code are worth stating plainly.

- **Action ids are not write-once.** Only the refund is guarded by a field that never
  changes back (`paymentStatus` "refunded"). A return followed by a refund and a second
  return stores a second return id (`OrderRoutes.ReturnIdRewritten`).
- **The location rule compares exact strings.** The status text is not case-normalised
  before the rule, so:
  - the "Processing at warehouse" branch is dead for stored orders;
  - the tracking route reports a "Processing" order as "Pending";
  - the chat reports it as "In transit".

## Model

| member | source | states |
|---|---|---|
| OrderModel.ParseStatus | backend/models/Order.js:14-18 | a missing status defaults to pending; an accepted name is exactly one enum value's name; any other name is refused |
| OrderModel.ParsePaymentStatus | backend/models/Order.js:35 | a missing payment status defaults to pending; only the four enum names are accepted |
| OrderModel.StatusNamesRoundTrip | backend/models/Order.js:16 | every status name parses back to its status |
| OrderModel.PaymentStatusNamesRoundTrip | backend/models/Order.js:35 | every payment-status name parses back to its value |
| OrderModel.NoLowerCaseProcessingOrDelivered | backend/models/Order.js:16 | no stored status reads "processing" or "delivered", so the lower-case branches that test them are dead |
| OrderModel.FindIndex | backend/routes/orders.js:65 | the index of the first order with the id; none exactly when no order has it |
| OrderModel.FindIndexUnique | backend/models/Order.js:5 | in a store with unique ids, an order's id finds that very order |
| OrderModel.FindById | backend/routes/orders.js:61-94 | an order with the id is returned exactly when one exists; the one returned has that id and is stored |
| OrderModel.WithEmail | backend/routes/orders.js:28 | keeps exactly the orders with the e-mail, with their multiplicities |
| OrderModel.SortNewestFirst | backend/routes/orders.js:29 | the result is ordered by order date, newest first, and is a permutation of the input |
| OrderModel.InsertByDate | backend/routes/orders.js:29 | inserting into a newest-first list keeps it newest first and adds exactly the one order |
| OrderModel.ByEmail | backend/services/chatService.js:81-83 | newest first; every order has the e-mail and is stored; the count is the limit or the number of matching orders, whichever is smaller |
| OrderModel.ByEmailAll | backend/routes/orders.js:28-29 | without a limit the lookup returns exactly the customer's orders, as a multiset |
| OrderModel.ByEmailKeepsNewest | backend/services/chatService.js:81-83 | the orders kept are a sub-multiset of the customer's orders, and none left out is newer than one kept |
| OrderModel.NewestPrefix | backend/services/chatService.js:82-83 | the first k orders of a newest-first arrangement are newest first, come from the arranged orders, and none left out is newer than one kept |
| OrderModel.CustomerPrefix | backend/services/chatService.js:81-83 | every order among the first k of the customer's sorted orders has the email and is stored |
| Strings.TrimStart | backend/utils/assistant.js:22 | a suffix of the message that does not start with white space; everything before it is white space |
| Strings.TrimEnd | backend/utils/assistant.js:22 | a prefix of the text that does not end with white space; everything after it is white space |
| Strings.Trim | backend/utils/assistant.js:22 | the trimmed message is the slice of the message that starts where the leading white space ends; everything cut before and after it is white space, and it neither starts nor ends with white space |
| Faq.MatchCountPositive | backend/services/faqService.js:54-58 | the keyword count is positive exactly when some keyword occurs, so the count itself never matters |
| Faq.FirstMatchFrom | backend/services/faqService.js:53-61 | the scan returns the first matching entry at or after the start, or none when no later entry matches |
| Faq.GetFaqAnswer | backend/services/faqService.js:50-64 | null exactly when no entry has a keyword in the lower-cased message; otherwise the answer of the first entry that does |
| Faq.EarlierEntryWins | backend/services/faqService.js:53-61 | an earlier entry with one hit beats any later entry, whatever its number of hits |
| Faq.AnswersDistinct | backend/services/faqService.js:4-45 | the ten answers are distinct, so an answer names its entry |
| Faq.PaymentBeforeEmi | backend/services/faqService.js:18-24 | "how do I pay in installments" hits the EMI entry twice and the payment entry once, yet gets the payment answer |
| Faq.InstallmentsScan | backend/services/faqService.js:4-24 | the scan over that message passes the first three entries and stops at the payment entry |
| Faq.InstallmentsPaymentCount | backend/services/faqService.js:18 | one payment keyword occurs in the message |
| Faq.InstallmentsEmiCount | backend/services/faqService.js:22 | two EMI keywords occur in the message |
| Faq.InstallmentsSkipsShipping | backend/services/faqService.js:6 | no shipping keyword occurs in the message |
| Faq.InstallmentsSkipsReturns | backend/services/faqService.js:10-14 | no return or refund keyword occurs in the message |
| Faq.InstallmentsLower | backend/services/faqService.js:51 | lower-casing the example message gives the form the scan sees |
| Faq.TopicScan | backend/services/faqService.js:4-45 | each entry's topic word finds that entry's own answer, so no topic is shadowed by an earlier entry |
| Faq.KeywordsLowerCase | backend/services/faqService.js:4-45 | every keyword is lower case, so matching on the lower-cased message ignores case |
| Faq.GetAllFaqs | backend/services/faqService.js:69-74 | one item per entry, in table order, with the entry's first keyword as topic and its answer |
| Faq.TopicsRoundTrip | backend/services/faqService.js:69-74 | asking about any listed topic returns that topic's answer |
| Extraction.FirstEmail | backend/services/chatService.js:73 | the span of the e-mail pattern's first match: the leftmost start and, at that start, the longest match; none exactly when the pattern matches nowhere |
| Extraction.FirstEmailIsFirst | backend/services/chatService.js:73 | no match of the pattern starts earlier, or starts at the same place and ends later |
| Extraction.ExtractEmail | backend/services/chatService.js:73-77 | the address is a lower-cased match of the pattern; none exactly when nothing matches |
| Extraction.DigitRunFrom | backend/services/chatService.js:74 | the first maximal run of five or more digits from a run boundary |
| Extraction.ExtractOrderId | backend/services/chatService.js:74 | the first maximal run of at least five digits, without any leading '#'; none exactly when no five digits stand together |
| Chat.SessionKey | backend/services/chatService.js:16 | a missing or empty session id is "default" |
| Chat.StatusColor | backend/services/chatService.js:353-359 | green exactly for "delivered", orange for "processing"/"shipped", red for "refund"/"return"/"exchange", in any case; gray otherwise |
| Chat.StatusColorIgnoresCase | backend/services/chatService.js:354 | the colour does not depend on letter case |
| Chat.StatusColors | backend/services/chatService.js:353-359 | on stored statuses: green for Delivered, orange for Processing and shipped, red for Refund, Return and Exchange |
| Chat.ChatLocation | backend/services/chatService.js:337-345 | "In transit" exactly for "shipped" or "Processing", "Delivered" for "Delivered", "Processing at warehouse" for "processing", else "Pending" |
| Chat.ChatLocationOfStatus | backend/services/chatService.js:337-345 | for stored statuses the warehouse location never appears; "In transit" exactly for shipped and Processing |
| Chat.FormatTrackingInfo | backend/services/chatService.js:323-348 | the tracking block carries the order's id and status, its tracking number or "Not assigned yet", and the chat location |
| Chat.SearchProducts | backend/services/chatService.js:371-410 | no search unless the query has a product word; otherwise the first one to three results, or none when nothing is found |
| Chat.ProductGate | backend/services/chatService.js:372-386 | the gate opens exactly when one of the seven product words or the three product names occurs in the lower-cased query |
| Chat.ClosedGateNoSearch | backend/services/chatService.js:384-386 | a query without a product word gets no results whatever the store holds |
| Chat.ItemsSummary | backend/services/chatService.js:262-264 | the summary of no items is empty, of one item is that item's text, and holds every item's "name (xN)" text |
| Chat.OrdersListText | backend/services/chatService.js:256-274 | "No orders found." exactly when there are no orders; otherwise the text opens with the "I found N order(s)" header and ends with the footer |
| Chat.FormatOrdersList | backend/services/chatService.js:256-274 | the loop builds exactly the header, one entry per order in order, and the footer |
| Chat.EntriesHoldHeading | backend/services/chatService.js:261-269 | the i-th entry's numbered heading appears in the list |
| Chat.OrdersListNamesEveryOrder | backend/services/chatService.js:256-274 | the list text names every order as "Order #" and its id |
| Chat.Ids | backend/services/chatService.js:96 | the ids of the orders, in the same order |
| Chat.Read | backend/services/chatService.js:15-193 | each follow-up test on the trimmed, lower-cased message is decided by its first word alone |
| Chat.MenuChoice | backend/services/chatService.js:37-59 | at the menu, "order"/"placed" wins over "general"/"query"; neither falls back to the menu without a write |
| Chat.RespondAtMenu | backend/services/chatService.js:37-59 | the same precedence stated on the message's reading |
| Chat.LookupKeepsContext | backend/services/chatService.js:62-157 | a disconnected store, or no address and no id, answers with the record unchanged and writes nothing |
| Chat.LookupDecides | backend/services/chatService.js:62-159 | once the lookup rule is reached it alone decides the turn |
| Chat.Lookup | backend/services/chatService.js:62-159 | the record is written exactly when the store is connected and the message has an address or an order id, and keeps expecting/flow; otherwise "store unavailable" or "no identifier" is answered with the record unchanged |
| Chat.LookupByEmail | backend/services/chatService.js:73-77 | an address wins over an order id |
| Chat.EmailLookup | backend/services/chatService.js:76-115 | the record keeps expecting/flow and the last order id and gains the address; the reply lists orders or says there are none |
| Chat.EmailLookupShows | backend/services/chatService.js:81-115 | the orders shown are exactly the email lookup with limit ten (`ByEmail`, whose lemmas make them the customer's newest): one to ten stored orders of the customer, newest first, and their ids are recorded; showing none means the customer has none |
| Chat.NoOrdersMeansNoneWithEmail | backend/services/chatService.js:81-90 | an empty result means the customer has no orders |
| Chat.LookupById | backend/services/chatService.js:116-117 | without an address the order id decides the lookup |
| Chat.OrderIdLookup | backend/services/chatService.js:116-152 | the record keeps expecting/flow and stores the id even for an absent order, plus the order's e-mail when found |
| Chat.FollowUp | backend/services/chatService.js:162-206 | answers only in the order-lookup flow with a last order id; there refund beats return, return beats exchange, and each proposes its action on that id and awaits confirmation; tracking answers only when the order is stored, with its tracking block |
| Chat.GeneralFlow | backend/services/chatService.js:209-233 | in the general flow a product hit beats an FAQ hit, which beats the ticket offer, and nothing is written |
| Chat.RespondInGeneralFlow | backend/services/chatService.js:209-233 | the same, stated on the message's reading |
| Chat.GeneralAnswer | backend/services/chatService.js:209-233 | a product list exactly when the search found products, an FAQ answer exactly when it found none and the FAQ matched, otherwise the ticket offer awaiting a decision; nothing is written and only expecting changes |
| Chat.Respond | backend/services/chatService.js:26-250 | a greeting resets the session to the menu; no reply proposes an action or tracks an order; from none or a well-formed record only menu, order-lookup or general records are written |
| Chat.Turn | backend/services/chatService.js:14-251 | "hey", "hi" or "hello", trimmed and in any case, resets the session to the menu whatever the prior record; no turn proposes an action or tracks an order; records written stay well formed |
| Chat.ChatService.constructor | backend/services/chatService.js:9 | the session map starts empty |
| Chat.ChatService.HandleChatMessage | backend/services/chatService.js:14-251 | the reply is the turn's reply from the session's record, the map changes only at the session key and only when the turn stores, and well-formedness is kept |
| Chat.ChatService.ApplyRules | backend/services/chatService.js:26-250 | the rule cascade's reply and map update are the specification's |
| Chat.ChatService.LookUp | backend/services/chatService.js:62-159 | the lookup rule's reply and map update are the specification's |
| Chat.ChatService.LookUpEmail | backend/services/chatService.js:76-115 | the address lookup's two writes leave the specification's record |
| Chat.ChatService.LookUpOrderId | backend/services/chatService.js:116-152 | the id lookup's two writes leave the specification's record |
| Chat.ChatService.ClearContext | backend/services/chatService.js:364-366 | deletes the given key, "default" when none is given, and nothing else |
| OrderRoutes.EmailFormatOk | backend/routes/orders.js:20-21 | true exactly when the address splits into a non-empty local part, '@', a non-empty domain, '.', and a non-empty suffix, none holding white space or '@' |
| OrderRoutes.EmailFormatMeaning | backend/routes/orders.js:20 | the character-level checks are equivalent to that split |
| OrderRoutes.PatternPassesChecks | backend/routes/orders.js:20 | an address with that split passes the checks |
| OrderRoutes.ChecksGivePattern | backend/routes/orders.js:20 | an address passing the checks has that split |
| OrderRoutes.LookupOrders | backend/routes/orders.js:8-49 | a missing email is refused first, then a malformed one; "no orders" means no order has the lower-cased address; the count equals the orders returned |
| OrderRoutes.LookupOrdersFound | backend/routes/orders.js:28-49 | the orders returned are the customer's orders, projected and newest first, as many as the customer has, and every one of the customer's orders is listed |
| OrderRoutes.SummariesComplete | backend/routes/orders.js:28-45 | every stored order with the address has its summary among those of the full lookup |
| OrderRoutes.NoCustomerOrders | backend/routes/orders.js:32-38 | an empty result means no stored order has the address |
| OrderRoutes.TrackLocation | backend/routes/orders.js:268-277 | "In transit" exactly for "shipped", "Delivered" for "Delivered", "Processing at warehouse" for "processing", else "Pending" |
| OrderRoutes.TrackLocationOfStatus | backend/routes/orders.js:268-277 | on stored statuses the warehouse location never appears, and a Processing order reads "Pending" |
| OrderRoutes.LocationRulesDiffer | backend/routes/orders.js:274-276 | the route and the chat disagree on exactly one stored status: Processing |
| OrderRoutes.Track | backend/routes/orders.js:255-277 | 404 exactly for an unknown id; otherwise the order's status, its tracking number or "Not assigned yet", and the route's location |
| OrderRoutes.AlreadyTaken | backend/routes/orders.js:118-219 | an action counts as taken exactly when the order already has the status the action sets, or, for a refund only, its payment is refunded |
| OrderRoutes.NewId | backend/routes/orders.js:126-227 | the id is the action's prefix ("R", "RET" or "EX") followed by digits that read back as the clock |
| OrderRoutes.NewIdInjective | backend/routes/orders.js:126-227 | two action ids are equal exactly when they come from the same kind of action at the same clock reading |
| OrderRoutes.ExchangeNote | backend/routes/orders.js:227-235 | with a reason the note contains "Reason: " and the reason; with a new item it contains "New item: " and the item; with neither it is exactly "Exchange requested.  " |
| OrderRoutes.Performed | backend/routes/orders.js:126-235 | an action sets its status, its own id and updatedAt, sets the payment to refunded on a refund only, appends one entry, and keeps every other field |
| OrderRoutes.Act | backend/routes/orders.js:105-252 | an action never changes the number of stored orders |
| OrderRoutes.ActUnknownId | backend/routes/orders.js:109-217 | an unknown id gives 404 and changes nothing |
| OrderRoutes.ActOutcome | backend/routes/orders.js:105-252 | the action works on the first order with the id: 404 exactly when there is none; "already" with the stored id exactly when it was already taken; otherwise the new id, with that order replaced by the performed record |
| OrderRoutes.ActFrame | backend/routes/orders.js:118-235 | a 404 or an "already" changes nothing; a done action changes only one order with the id, keeps its fixed fields, and extends its history by one entry keeping the earlier ones |
| OrderRoutes.ActIdempotent | backend/routes/orders.js:118-225 | repeating a done action changes nothing and returns the id the first call stored |
| OrderRoutes.ActKeepsStoreValid | backend/models/Order.js:5-13 | the actions keep required fields and unique ids |
| OrderRoutes.ReplaceKeepsStoreValid | backend/models/Order.js:5-13 | replacing an order by one with the same fixed fields keeps required fields and unique ids |
| OrderRoutes.RefundedStaysRefunded | backend/routes/orders.js:118-130 | a refunded payment stays refunded and its refund id is never rewritten |
| OrderRoutes.ReturnIdRewritten | backend/routes/orders.js:169-181 | a return, then a refund, then a return stores a second, different return id |
| OrderRoutes.OrderStore.constructor | backend/routes/orders.js:3 | the store holds the given orders, which must form a valid store, and is valid |
| OrderRoutes.OrderStore.Refund | backend/routes/orders.js:105-153 | the refund route's result and new store are the specification's, and the store stays valid |
| OrderRoutes.OrderStore.Return | backend/routes/orders.js:156-202 | the return route's result and new store are the specification's, and the store stays valid |
| OrderRoutes.OrderStore.Exchange | backend/routes/orders.js:205-252 | the exchange route's result and new store are the specification's, and the store stays valid |
| Assistant.Filter | backend/utils/assistant.js:31-37 | keeps exactly the products whose lower-cased title has the word and whose price is within the bound, and no more products than it was given |
| Assistant.FilterInOrder | backend/utils/assistant.js:31-37 | the kept products stay in list order: the result is the list with some products removed |
| Assistant.FilterCatalogue | backend/utils/assistant.js:15-19 | filtering the catalogue decides its three products in catalogue order |
| Assistant.SmartphoneTitles | backend/utils/assistant.js:16-31 | only the first product's title names a smartphone |
| Assistant.HeadphoneTitles | backend/utils/assistant.js:16-37 | only the second product's title names a headphone |
| Assistant.SmartphoneFilter | backend/utils/assistant.js:29-31 | the smartphone search returns the Smartphone X200 exactly when there is no bound or the bound is at least 14999 |
| Assistant.HeadphoneFilter | backend/utils/assistant.js:37-38 | the headphone search always finds the headphones, so its "don't see headphones" reply is dead |
| Assistant.PriceAt | backend/utils/assistant.js:29-30 | a price is read only where "under" occurs |
| Assistant.PriceFrom | backend/utils/assistant.js:29 | the leftmost "under N" at or after a position |
| Assistant.UnderLimit | backend/utils/assistant.js:29-30 | the bound is the value at the leftmost place where "under N" matches, and no bound when it matches nowhere |
| Assistant.OrderNumberAt | backend/utils/assistant.js:42 | a match of the order-number pattern is the word "order" with a digit after it |
| Assistant.Holds | backend/utils/assistant.js:28-135 | the fallback always holds; the EMI test holds exactly when "emi" or "pay in" occurs; any "smartphone" makes a smartphone search |
| Assistant.EmiOptionRedundant | backend/utils/assistant.js:125 | "emi option" adds nothing to the EMI test |
| Assistant.Classify | backend/utils/assistant.js:28-138 | the intent chosen holds, and no intent earlier in the fixed order holds |
| Assistant.ShippingIsGreeted | backend/utils/assistant.js:133 | "shipping" passes every earlier test and is greeted, because "hi" is matched anywhere |
| Assistant.ReturnAdvice | backend/utils/assistant.js:101-122 | the status-based advice is given only with an id, a connected store and a stored order; otherwise the general policy |
| Assistant.ReturnAdviceByStatus | backend/utils/assistant.js:108-116 | the seven-day steps are never given; shipped and cancelled orders get their advice; a delivered order is "currently Delivered" |
| Assistant.SmartphoneSearchAnswer | backend/utils/assistant.js:28-34 | a smartphone search lists products or says none fit |
| Assistant.HeadphoneSearchAnswer | backend/utils/assistant.js:36-39 | a headphone search lists products or says none are there |
| Assistant.TrackAnswer | backend/utils/assistant.js:42-98 | the tracking answer asks for an id, names it with the store down, says it is unknown, or shows the status; with an id and the store up it shows the stored order with that id when there is one and otherwise says that id is unknown; a status is shown only with the store up, for the stored order with the id the message names |
| Assistant.Respond | backend/utils/assistant.js:28-138 | the EMI, payment-failed, greeting and fallback texts each come from their own intent and only from it; product lists only from a search; a return or refund message gets exactly the return advice for the order id it names, and the return answers come from that intent only; an order status only with the store up, for the stored order the message names |
| Assistant.SmartphoneAnswer | backend/utils/assistant.js:28-34 | a smartphone search lists the X200 when the bound allows it, else says none fit |
| Assistant.HeadphoneAnswer | backend/utils/assistant.js:36-39 | a headphone search lists the headphones |
| Assistant.TrackingAnswer | backend/utils/assistant.js:42-93 | no id gets a request for one; an id with the store down is named without a lookup; with the store up the stored order with the id gets its status, and an unknown id gets the "couldn't find" reply for that id |
| Assistant.FormatReply | backend/utils/assistant.js:147-150 | the reply is the fixed prefix followed by the text, which reads back off |
| Assistant.FormatSearch | backend/utils/assistant.js:142-145 | the reply starts with the search header and holds one line per product |
| Assistant.SearchLineStock | backend/utils/assistant.js:143 | a line says "In stock" or "Out of stock" by availability |
| Assistant.OrderStatusText | backend/utils/assistant.js:61-89 | the status text opens with the order's id and holds every item's line |
| Assistant.Render | backend/utils/assistant.js:32-138 | product lists use the search format and every other answer the friendly format |
| Assistant.RenderKinds | backend/utils/assistant.js:142-150 | the first character tells a product list from any other reply |
| Assistant.AssistantReply | backend/utils/assistant.js:21-22 | the message is trimmed and lower-cased before the tests, and the reply's format follows the answer's kind |
| Server.Client | backend/server.js:25 | the configured client, or "http://localhost:5173" when unset or empty |
| Server.IsAllowed | backend/server.js:30-55 | allowed exactly for no origin, a local host on a numeric port, or the configured client |
| Server.LocalPortsAllowed | backend/server.js:36-37 | every local-host port is allowed, whatever the configured client |
| Server.BarePortRefused | backend/server.js:36-38 | a local host with no port is refused unless it is the client |
| Server.RuntimeMillis | backend/server.js:77-80 | no runtime exactly when the start or the finish is missing; otherwise the finish minus the start |
| Server.Start | backend/server.js:84-104 | a missing bib id changes nothing; a new one is created started now; an unstarted one is started and renamed only when a name is given; a started one is left alone |
| Server.Finish | backend/server.js:112-126 | a missing bib, unknown bib or missing start changes nothing; otherwise the finish time is set only if unset, and the runtime is reported |
| Server.FinishedHasRuntime | backend/server.js:121-126 | a finish reply always carries a runtime |
| Server.FinishIsWriteOnce | backend/server.js:121-124 | a second finish keeps the first finish time and changes nothing |
| Server.StartIsWriteOnce | backend/server.js:97-104 | once started, a start changes nothing, including the name |
| Server.RoutesTouchOneParticipant | backend/server.js:89-124 | neither route touches another participant |
| Server.Race.StartRoute | backend/server.js:84-110 | the start route's result and participants are the specification's |
| Server.Race.FinishRoute | backend/server.js:112-132 | the finish route's result and participants are the specification's |

## Left out

- Database I/O (`find`, `findOne`, `save`, `readyState`) is not modelled. The store is a
  snapshot parameter, the connection is a boolean, and the product search is an opaque
  result list. Thrown database errors and the replies that catch them are left out.
- The product search's regular-expression query against names, categories and
  descriptions is not modelled; only its gate and its limit of three are.
- Express routing, middleware, status codes beyond the result datatypes, and `chat.js`'s
  check of the message type are left out. The message is taken as a string.
- The clock (`Date.now`, `new Date`) is a parameter. `toLocaleDateString` is a function
  parameter. `runtimeSeconds` is given in milliseconds: the division by 1000 is floating
  point.
- Case mapping covers ASCII letters only. `toLowerCase` on other letters, and UTF-16
  code units outside the Basic Multilingual Plane, are not modelled.
- The chat replies are kinds of reply (a datatype), not their text. This excludes the
  order-details and product-list texts and the mis-encoded currency and emoji glyphs.
  The order list built by `formatOrdersList` is modelled as text. The assistant's replies
  are modelled as text.
- `formatOrderForResponse` and the GET-by-id projection drop fields. The model returns
  whole records.
- Store e-mail matching is exact string equality, as the query is. Mongoose's
  nested-object defaults (an absent shipping address read as an empty object) are not
  modelled: an absent address is `None`.
- Concurrent requests and interleaving at `await` points are not modelled. The same goes
  for last-writer-wins on a session entry and on an order.
- Numbers are unbounded integers. `parseInt` precision beyond 2^53 and non-integer prices
  are not modelled. Ratings are kept in tenths.
- The store is a sequence of orders, not a keyed collection. The lookups take the first
  match, and uniqueness of ids is the `ValidStore` invariant.
- The seed scripts and the front end are not part of this model.
- OrderRoutes.Act: its own contract states only that the number of stored orders is
  kept. Its effects are stated by `ActOutcome`, `ActFrame`, `ActIdempotent`,
  `ActUnknownId` and `Performed`.
