/**
 * The dialogue engine of the chat service. Each session has a context record in a
 * process-wide map; a turn reads the session's record, picks the first rule that
 * applies (greeting, menu choice, order lookup, follow-up on an order, general
 * question, reset, fallback), answers, and may write a new record for the session.
 *
 * `Turn` states what one turn answers and what it leaves in the map; the class
 * `ChatService` is the map itself, updated in place by `HandleChatMessage`.
 */
module Chat {
  import opened Common
  import opened Strings
  import opened OrderModel
  import opened Faq
  import opened Extraction

  // ---------------------------------------------------------------- context

  datatype Expecting = Choice | OrderIdentifier | OrderAction | GeneralQuery | SupportTicketDecision | ActionConfirmation

  datatype Flow = Main | OrderLookup | General

  /** A session's context record; a field that is `null` or missing is `None`. */
  datatype Context = Context(
    expecting: Option<Expecting>,
    flow: Option<Flow>,
    lastOrderId: Option<string>,
    lastEmail: Option<string>,
    lastOrders: Option<seq<string>>)

  /** The record a session without an entry starts from. */
  const Fresh := Context(None, None, None, None, None)

  /** The main menu: a choice between the order flow and the general flow. */
  const MainMenu := Context(Some(Choice), Some(Main), None, None, None)

  const MenuOptions := ["Order I placed", "General query"]

  const TicketOptions := ["Yes, raise a ticket", "No, thanks"]

  /** The session key: a missing or empty session id is the shared session "default". */
  function SessionKey(sessionId: Option<string>): (key: string)
    ensures Truthy(sessionId) ==> key == sessionId.value
    ensures !Truthy(sessionId) ==> key == "default"
  {
    if Truthy(sessionId) then sessionId.value else "default"
  }

  // ---------------------------------------------------------------- replies

  datatype Action = RefundAction | ReturnAction | ExchangeAction

  /** A product the catalogue search returned. */
  datatype Product = Product(name: string, price: int, description: string, inStock: bool)

  datatype TrackingDetails = TrackingDetails(
    orderId: string,
    status: string,
    trackingNumber: string,
    estimatedDelivery: Option<int>,
    location: string)

  /** Which reply a turn gives, with the data its text is built from. */
  datatype Reply =
    | Greeting
    | AskIdentifier
    | AskTopic
    | StoreUnavailable
    | NoOrdersForEmail(email: string)
    | OrdersFound(orders: seq<Order>)
    | OrderNotFound(orderId: string)
    | OrderDetails(order: Order)
    | NoIdentifier
    | Propose(action: Action, orderId: string)
    | Tracking(info: TrackingDetails)
    | ProductMatches(products: seq<Product>)
    | FaqReply(answer: Answer)
    | OfferTicket
    | NotSure

  datatype Response = Response(reply: Reply, options: seq<string>, context: Context)

  /** A turn's response and the record it leaves for the session (`None`: the map entry is not written). */
  datatype Outcome = Outcome(response: Response, stored: Option<Context>)

  // ---------------------------------------------------------------- classifiers

  datatype Color = Green | Orange | Red | Gray

  /** `getStatusColor`: a case-insensitive classification of the status text. */
  function StatusColor(status: string): (c: Color)
    ensures c == Green <==> Lower(status) == "delivered"
    ensures c == Orange <==> Lower(status) in {"processing", "shipped"}
    ensures c == Red <==> Lower(status) in {"refund", "return", "exchange"}
  {
    var s := Lower(status);
    if s == "delivered" then Green
    else if s == "processing" || s == "shipped" then Orange
    else if s == "refund" || s == "return" || s == "exchange" then Red
    else Gray
  }

  /** Spelling a status in another case does not change its colour. */
  lemma StatusColorIgnoresCase(status: string)
    ensures StatusColor(Lower(status)) == StatusColor(status)
  {
    LowerIdempotent(status);
  }

  /** The colours of the schema's statuses. */
  lemma StatusColors(st: Status)
    ensures StatusColor(StatusName(st)) == Green <==> st == Delivered
    ensures StatusColor(StatusName(st)) == Orange <==> st in {Processing, Shipped}
    ensures StatusColor(StatusName(st)) == Red <==> st in {Refund, Return, Exchange}
  {
    var s := StatusName(st);
    assert Lower(s) == match st
      case Pending => "pending"
      case Confirmed => "confirmed"
      case Processing => "processing"
      case Shipped => "shipped"
      case Delivered => "delivered"
      case Refund => "refund"
      case Return => "return"
      case Exchange => "exchange"
      case Cancelled => "cancelled";
  }

  /** The "Current Location" line of the tracking text: an exact-case test of the status text. */
  function ChatLocation(status: string): (loc: string)
    ensures loc == "In transit" <==> status == "shipped" || status == "Processing"
    ensures loc == "Delivered" <==> status == "Delivered"
    ensures loc == "Processing at warehouse" <==> status == "processing"
    ensures loc in {"In transit", "Delivered", "Processing at warehouse", "Pending"}
  {
    if status == "shipped" || status == "Processing" then "In transit"
    else if status == "Delivered" then "Delivered"
    else if status == "processing" then "Processing at warehouse"
    else "Pending"
  }

  /** For the schema's statuses the warehouse line never appears: "processing" is not a status. */
  lemma ChatLocationOfStatus(st: Status)
    ensures ChatLocation(StatusName(st)) != "Processing at warehouse"
    ensures ChatLocation(StatusName(st)) == "In transit" <==> st in {Shipped, Processing}
    ensures ChatLocation(StatusName(st)) == "Delivered" <==> st == Delivered
  {
    NoLowerCaseProcessingOrDelivered(st);
  }

  /** `formatTrackingInfo`: the order's status, its tracking number or "Not assigned yet", and its location. */
  function FormatTrackingInfo(o: Order): (t: TrackingDetails)
    ensures t.orderId == o.orderId && t.status == StatusName(o.status)
    ensures Truthy(o.trackingNumber) ==> t.trackingNumber == o.trackingNumber.value
    ensures !Truthy(o.trackingNumber) ==> t.trackingNumber == "Not assigned yet"
    ensures t.location == ChatLocation(StatusName(o.status))
  {
    TrackingDetails(
      o.orderId,
      StatusName(o.status),
      if Truthy(o.trackingNumber) then o.trackingNumber.value else "Not assigned yet",
      o.estimatedDelivery,
      ChatLocation(StatusName(o.status)))
  }

  // ---------------------------------------------------------------- product search

  const ProductWords := ["price", "how much", "have", "buy", "cost", "show", "details"]

  const ProductNames := ["smartphone", "headphone", "watch"]

  /** Whether a message is worth a catalogue search: one of the ten words occurs in it, in any case. */
  predicate ProductGate(query: string)
    ensures ProductGate(query) <==> exists w | w in ProductWords + ProductNames :: Contains(Lower(query), w)
  {
    ContainsAny(Lower(query), ProductWords) || ContainsAny(Lower(query), ProductNames)
  }

  /**
   * `searchProducts`: no search unless the gate opens; otherwise the first three of
   * the catalogue's matches `found`, and nothing when there are none.
   */
  function SearchProducts(query: string, found: seq<Product>): (r: Option<seq<Product>>)
    ensures r.Some? ==> ProductGate(query) && 1 <= |r.value| <= 3 && |r.value| <= |found| && r.value == found[..|r.value|]
    ensures r.Some? ==> |r.value| == if |found| < 3 then |found| else 3
    ensures r.None? <==> !ProductGate(query) || found == []
  {
    if !ProductGate(query) then None
    else
      var hits := if |found| < 3 then found else found[..3];
      if hits == [] then None else Some(hits)
  }

  /** A closed gate means no search, whatever the catalogue holds. */
  lemma ClosedGateNoSearch(query: string, found: seq<Product>, other: seq<Product>)
    requires !ProductGate(query)
    ensures SearchProducts(query, found) == SearchProducts(query, other) == None
  {
  }

  // ---------------------------------------------------------------- the order list text

  function ItemText(item: Item): string {
    item.productName + " (x" + IntToString(item.quantity) + ")"
  }

  /** The items of an order, as "name (xN)" joined by ", ". */
  function ItemsSummary(items: seq<Item>): (r: string)
    ensures items == [] ==> r == ""
    ensures |items| == 1 ==> r == ItemText(items[0])
    ensures forall k | 0 <= k < |items| :: Contains(r, ItemText(items[k]))
  {
    var parts := seq(|items|, i requires 0 <= i < |items| => ItemText(items[i]));
    forall k | 0 <= k < |items| ensures Contains(Join(parts, ", "), ItemText(items[k])) {
      JoinContains(parts, ", ", k);
    }
    Join(parts, ", ")
  }

  /** The first line of the `n`-th entry of the list. */
  function EntryHeading(n: nat, o: Order): string {
    NatToString(n) + ". Order #" + o.orderId + "\n"
  }

  /** The other four lines of an entry; `date` renders a time as a local date. */
  function EntryDetails(o: Order, date: int -> string): string {
    ("   Items: " + ItemsSummary(o.items) + "\n")
    + ("   Amount: â‚¹" + IntToString(o.totalAmount) + "\n")
    + ("   Status: " + StatusName(o.status) + "\n")
    + ("   Date: " + date(o.orderDate) + "\n\n")
  }

  function OrderEntries(orders: seq<Order>, date: int -> string): string {
    if orders == [] then ""
    else OrderEntries(orders[..|orders| - 1], date) + EntryHeading(|orders|, orders[|orders| - 1]) + EntryDetails(orders[|orders| - 1], date)
  }

  function ListHeader(count: nat): string {
    "I found " + NatToString(count) + " order(s):\n\n"
  }

  const ListFooter := "You can ask about any order by mentioning its ID, or use the action buttons below."

  /**
   * The text `formatOrdersList` builds: "No orders found." for no orders, else the
   * count header first and the footer last.
   */
  function OrdersListText(orders: seq<Order>, date: int -> string): (text: string)
    ensures orders == [] <==> text == "No orders found."
    ensures orders != [] ==> |text| >= |ListHeader(|orders|)| + |ListFooter|
                             && text[..|ListHeader(|orders|)|] == ListHeader(|orders|)
                             && text[|text| - |ListFooter|..] == ListFooter
  {
    if orders == [] then "No orders found."
    else
      var head := ListHeader(|orders|);
      var text := head + OrderEntries(orders, date) + ListFooter;
      assert text[..|head|] == head;
      assert text[|text| - |ListFooter|..] == ListFooter;
      assert text[0] == 'I';
      text
  }

  /** `formatOrdersList`: the header, one numbered entry per order in the given order, and the footer. */
  method FormatOrdersList(orders: seq<Order>, date: int -> string) returns (message: string)
    ensures message == OrdersListText(orders, date)
  {
    if |orders| == 0 {
      return "No orders found.";
    }
    message := ListHeader(|orders|);
    var index := 0;
    while index < |orders|
      invariant 0 <= index <= |orders|
      invariant message == ListHeader(|orders|) + OrderEntries(orders[..index], date)
    {
      var order := orders[index];
      ghost var before := OrderEntries(orders[..index], date);
      assert orders[..index + 1][..index] == orders[..index];
      assert OrderEntries(orders[..index + 1], date) == before + EntryHeading(index + 1, order) + EntryDetails(order, date);
      message := message + (NatToString(index + 1) + ". Order #" + order.orderId + "\n");
      ghost var headed := message;
      var items := "   Items: " + ItemsSummary(order.items) + "\n";
      var amount := "   Amount: â‚¹" + IntToString(order.totalAmount) + "\n";
      var status := "   Status: " + StatusName(order.status) + "\n";
      var day := "   Date: " + date(order.orderDate) + "\n\n";
      message := message + items;
      message := message + amount;
      message := message + status;
      message := message + day;
      AppendAssoc(headed, items, amount);
      AppendAssoc(headed, items + amount, status);
      AppendAssoc(headed, items + amount + status, day);
      assert message == headed + EntryDetails(order, date);
      AppendAssoc(ListHeader(|orders|), before, EntryHeading(index + 1, order));
      AppendAssoc(ListHeader(|orders|), before + EntryHeading(index + 1, order), EntryDetails(order, date));
      index := index + 1;
    }
    assert orders[..index] == orders;
    message := message + ListFooter;
  }

  /** The `i`-th order's heading appears among the entries. */
  lemma {:induction false} EntriesHoldHeading(orders: seq<Order>, date: int -> string, i: nat)
    requires i < |orders|
    ensures Contains(OrderEntries(orders, date), EntryHeading(i + 1, orders[i]))
    decreases |orders|
  {
    var last := |orders| - 1;
    var prefix := OrderEntries(orders[..last], date);
    var heading := EntryHeading(|orders|, orders[last]);
    var details := EntryDetails(orders[last], date);
    assert OrderEntries(orders, date) == prefix + heading + details;
    if i == last {
      ContainsInMiddle(prefix, heading, details);
    } else {
      EntriesHoldHeading(orders[..last], date, i);
      assert orders[..last][i] == orders[i];
      ContainsPrefix(prefix + heading, details);
      ContainsPrefix(prefix, heading);
      ContainsTrans(OrderEntries(orders, date), prefix + heading, prefix);
      ContainsTrans(OrderEntries(orders, date), prefix, EntryHeading(i + 1, orders[i]));
    }
  }

  lemma HeadingNamesOrder(n: nat, o: Order)
    ensures Contains(EntryHeading(n, o), "Order #" + o.orderId)
  {
    var key := "Order #" + o.orderId;
    var p := |NatToString(n)| + 2;
    var h := EntryHeading(n, o);
    forall t | 0 <= t < |key| ensures h[p + t] == key[t] {
      if t < 7 {
      } else {
        assert h[p + t] == o.orderId[t - 7];
      }
    }
    assert MatchAt(h, key, p);
  }

  /** The list names every order it was given, by id. */
  lemma OrdersListNamesEveryOrder(orders: seq<Order>, date: int -> string, i: nat)
    requires i < |orders|
    ensures Contains(OrdersListText(orders, date), "Order #" + orders[i].orderId)
  {
    var entries := OrderEntries(orders, date);
    var heading := EntryHeading(i + 1, orders[i]);
    EntriesHoldHeading(orders, date, i);
    ContainsInMiddle(ListHeader(|orders|), entries, ListFooter);
    ContainsTrans(OrdersListText(orders, date), entries, heading);
    HeadingNamesOrder(i + 1, orders[i]);
    ContainsTrans(OrdersListText(orders, date), heading, "Order #" + orders[i].orderId);
  }

  // ---------------------------------------------------------------- one turn

  function Ids(orders: seq<Order>): (ids: seq<string>)
    ensures |ids| == |orders| && forall i | 0 <= i < |orders| :: ids[i] == orders[i].orderId
  {
    seq(|orders|, i requires 0 <= i < |orders| => orders[i].orderId)
  }

  predicate IsGreetingWord(m: string) {
    m == "hey" || m == "hi" || m == "hello"
  }

  /**
   * What a turn reads off the message: one field per test `handleChatMessage` makes.
   * The word tests look at the trimmed, lower-cased message; the e-mail and order-id
   * patterns, the catalogue search and the FAQ look at the message as sent.
   */
  datatype Reading = Reading(
    greeting: bool,
    saysOrder: bool,
    saysGeneral: bool,
    email: Option<string>,
    orderId: Option<string>,
    saysRefund: bool,
    saysReturn: bool,
    saysExchange: bool,
    saysTrack: bool,
    products: Option<seq<Product>>,
    faq: Option<Answer>)

  /**
   * The second word of each follow-up test adds nothing: "get refund" holds "refund",
   * "request return" holds "return", "request exchange" holds "exchange", and "tracking" holds "track".
   */
  function Read(message: string, found: seq<Product>): (r: Reading)
    ensures var m := Lower(Trim(message));
            && (r.saysRefund <==> Contains(m, "refund"))
            && (r.saysReturn <==> Contains(m, "return"))
            && (r.saysExchange <==> Contains(m, "exchange"))
            && (r.saysTrack <==> Contains(m, "track") || Contains(m, "when") || Contains(m, "shipped"))
  {
    var m := Lower(Trim(message));
    RedundantWords(m);
    Reading(
      IsGreetingWord(m),
      Contains(m, "order") || Contains(m, "placed"),
      Contains(m, "general") || Contains(m, "query"),
      ExtractEmail(message),
      ExtractOrderId(message),
      Contains(m, "refund") || Contains(m, "get refund"),
      Contains(m, "return") || Contains(m, "request return"),
      Contains(m, "exchange") || Contains(m, "request exchange"),
      Contains(m, "track") || Contains(m, "tracking") || Contains(m, "when") || Contains(m, "shipped"),
      SearchProducts(message, found),
      GetFaqAnswer(message))
  }

  /**
   * The order-lookup rule, with the store's connection state and a snapshot of its orders.
   * The record is written exactly when the store is connected and the message holds an
   * address or an order id, and it keeps the session's `expecting` and `flow`; otherwise
   * the answer carries the record as it was.
   */
  function Lookup(conv: Context, r: Reading, dbConnected: bool, orders: seq<Order>): (out: Outcome)
    ensures out.stored.None? <==> !dbConnected || (r.email.None? && r.orderId.None?)
    ensures out.stored.None? ==> out.response.context == conv
    ensures out.stored.None? ==> out.response.reply == if dbConnected then NoIdentifier else StoreUnavailable
    ensures out.stored.Some? ==> out.stored.value.expecting == conv.expecting && out.stored.value.flow == conv.flow
  {
    if !dbConnected then Outcome(Response(StoreUnavailable, [], conv), None)
    else if r.email.Some? then EmailLookup(conv, r.email.value, orders)
    else if r.orderId.Some? then OrderIdLookup(conv, r.orderId.value, orders)
    else Outcome(Response(NoIdentifier, [], conv), None)
  }

  /**
   * Lookup by address: the customer's ten newest orders. The record keeps its
   * `expecting`/`flow` and its last order id and gains the address, plus the ids of the
   * (at most ten, newest first) orders found, which are exactly the ones shown; no
   * orders shown means the customer has none.
   */
  function EmailLookup(conv: Context, email: string, orders: seq<Order>): (out: Outcome)
    ensures && out.stored.Some?
            && out.stored.value.expecting == conv.expecting && out.stored.value.flow == conv.flow
            && out.stored.value.lastOrderId == conv.lastOrderId
            && out.stored.value.lastEmail == Some(email)
            && (out.response.reply.NoOrdersForEmail? || out.response.reply.OrdersFound?)
  {
    var mine := ByEmail(orders, email, Some(10));
    if mine == [] then
      var c := conv.(lastEmail := Some(email));
      Outcome(Response(NoOrdersForEmail(email), [], c), Some(c))
    else
      var ids := Ids(mine);
      Outcome(
        Response(OrdersFound(mine), [], Context(Some(OrderAction), Some(OrderLookup), None, Some(email), Some(ids))),
        Some(conv.(lastEmail := Some(email), lastOrders := Some(ids))))
  }

  /**
   * Lookup by order id. The record keeps its `expecting`/`flow` and records the id even
   * when no order has it, plus the order's address when one does.
   */
  function OrderIdLookup(conv: Context, id: string, orders: seq<Order>): (out: Outcome)
    ensures && out.stored.Some?
            && out.stored.value.expecting == conv.expecting && out.stored.value.flow == conv.flow
            && out.stored.value.lastOrderId == Some(id)
            && out.stored.value.lastOrders == conv.lastOrders
    ensures !(exists o | o in orders :: o.orderId == id) ==>
              out.response.reply == OrderNotFound(id) && out.stored.value.lastEmail == conv.lastEmail
    ensures (exists o | o in orders :: o.orderId == id) ==>
              && out.response.reply.OrderDetails? && out.response.reply.order in orders
              && out.response.reply.order.orderId == id
              && out.stored.value.lastEmail == Some(out.response.reply.order.customerEmail)
  {
    match FindById(orders, id)
    case None =>
      var c := conv.(lastOrderId := Some(id));
      Outcome(Response(OrderNotFound(id), [], c), Some(c))
    case Some(o) =>
      Outcome(
        Response(OrderDetails(o), [], Context(Some(OrderAction), Some(OrderLookup), Some(id), Some(o.customerEmail), None)),
        Some(conv.(lastOrderId := Some(id), lastEmail := Some(o.customerEmail))))
  }

  /**
   * The follow-up rule on the last looked-up order; `None` when it does not answer.
   * Refund wins over return, return over exchange, and an action over tracking; a
   * proposal asks for confirmation, and tracking needs the order to be in the store.
   */
  function FollowUp(conv: Context, r: Reading, orders: seq<Order>): (res: Option<Response>)
    ensures res.Some? ==> conv.flow == Some(OrderLookup) && Truthy(conv.lastOrderId)
    ensures conv.flow == Some(OrderLookup) && Truthy(conv.lastOrderId) ==>
              var confirm := conv.(expecting := Some(ActionConfirmation));
              && (r.saysRefund ==> res == Some(Response(Propose(RefundAction, conv.lastOrderId.value), [], confirm)))
              && (!r.saysRefund && r.saysReturn ==> res == Some(Response(Propose(ReturnAction, conv.lastOrderId.value), [], confirm)))
              && (!r.saysRefund && !r.saysReturn && r.saysExchange ==>
                    res == Some(Response(Propose(ExchangeAction, conv.lastOrderId.value), [], confirm)))
    ensures res.Some? && !r.saysRefund && !r.saysReturn && !r.saysExchange ==>
              && r.saysTrack && FindById(orders, conv.lastOrderId.value).Some?
              && res.value == Response(Tracking(FormatTrackingInfo(FindById(orders, conv.lastOrderId.value).value)), [], conv)
  {
    if conv.flow != Some(OrderLookup) || !Truthy(conv.lastOrderId) then None
    else
      var id := conv.lastOrderId.value;
      var confirm := conv.(expecting := Some(ActionConfirmation));
      if r.saysRefund then Some(Response(Propose(RefundAction, id), [], confirm))
      else if r.saysReturn then Some(Response(Propose(ReturnAction, id), [], confirm))
      else if r.saysExchange then Some(Response(Propose(ExchangeAction, id), [], confirm))
      else if r.saysTrack then
        match FindById(orders, id)
        case Some(o) => Some(Response(Tracking(FormatTrackingInfo(o)), [], conv))
        case None => None
      else None
  }

  /**
   * The general-question rule: a product match, else an FAQ answer, else the offer of a
   * ticket. It never writes the record, and its answer changes only `expecting`.
   */
  function GeneralAnswer(conv: Context, r: Reading): (out: Outcome)
    ensures out.stored.None?
    ensures out.response.reply.ProductMatches? <==> r.products.Some?
    ensures out.response.reply.FaqReply? <==> r.products.None? && r.faq.Some?
    ensures out.response.reply == OfferTicket <==> r.products.None? && r.faq.None?
    ensures out.response.reply == OfferTicket <==> out.response.context.expecting == Some(SupportTicketDecision)
    ensures out.response.context == conv.(expecting := out.response.context.expecting)
  {
    match r.products
    case Some(hits) => Outcome(Response(ProductMatches(hits), [], conv.(expecting := Some(GeneralQuery))), None)
    case None =>
      match r.faq
      case Some(a) => Outcome(Response(FaqReply(a), [], conv.(expecting := Some(GeneralQuery))), None)
      case None => Outcome(Response(OfferTicket, TicketOptions, conv.(expecting := Some(SupportTicketDecision))), None)
  }

  predicate InLookup(conv: Context) {
    conv.expecting == Some(OrderIdentifier) || conv.flow == Some(OrderLookup)
  }

  predicate InGeneral(conv: Context) {
    conv.flow == Some(General) || conv.expecting == Some(GeneralQuery)
  }

  const OrderFlowStart := Context(Some(OrderIdentifier), Some(OrderLookup), None, None, None)

  const GeneralFlowStart := Context(Some(GeneralQuery), Some(General), None, None, None)

  /**
   * The rules of a turn in order, given what the message says. A greeting always resets
   * the session to the menu; no turn proposes an action or tracks an order, because
   * the lookup rule answers every turn of the order-lookup flow before the follow-up
   * rule is tried; and from none or a well-formed record only well-formed records are
   * stored.
   */
  function Respond(prior: Option<Context>, r: Reading, dbConnected: bool, orders: seq<Order>): (out: Outcome)
    ensures r.greeting ==> out == Outcome(Response(Greeting, MenuOptions, MainMenu), Some(MainMenu))
    ensures !out.response.reply.Propose? && !out.response.reply.Tracking?
    ensures (prior.None? || WellFormed(prior.value)) && out.stored.Some? ==> WellFormed(out.stored.value)
  {
    var conv := if prior.Some? then prior.value else Fresh;
    if r.greeting then Outcome(Response(Greeting, MenuOptions, MainMenu), Some(MainMenu))
    else if conv.expecting == Some(Choice) && r.saysOrder then Outcome(Response(AskIdentifier, [], OrderFlowStart), Some(OrderFlowStart))
    else if conv.expecting == Some(Choice) && r.saysGeneral then Outcome(Response(AskTopic, [], GeneralFlowStart), Some(GeneralFlowStart))
    else if InLookup(conv) then Lookup(conv, r, dbConnected, orders)
    else
      match FollowUp(conv, r, orders)
      case Some(res) => Outcome(res, None)
      case None =>
        if InGeneral(conv) then GeneralAnswer(conv, r)
        else if conv.expecting.None? && conv.flow.None? then Outcome(Response(Greeting, MenuOptions, MainMenu), Some(MainMenu))
        else Outcome(Response(NotSure, MenuOptions, MainMenu), None)
  }

  /**
   * One turn of `handleChatMessage`, given the session's stored record (if any), the
   * store's connection state, a snapshot of its orders, and the catalogue's matches
   * for the message.
   */
  function Turn(prior: Option<Context>, message: string, dbConnected: bool, orders: seq<Order>, found: seq<Product>): (out: Outcome)
    ensures IsGreetingWord(Lower(Trim(message))) ==> out == Outcome(Response(Greeting, MenuOptions, MainMenu), Some(MainMenu))
    ensures !out.response.reply.Propose? && !out.response.reply.Tracking?
    ensures (prior.None? || WellFormed(prior.value)) && out.stored.Some? ==> WellFormed(out.stored.value)
  {
    Respond(prior, Read(message, found), dbConnected, orders)
  }

  // ---------------------------------------------------------------- properties of a turn

  /** At the menu, "order"/"placed" wins over "general"/"query", and a message with neither falls back to the menu. */
  lemma MenuChoice(ctx: Context, message: string, db: bool, orders: seq<Order>, found: seq<Product>)
    requires ctx.expecting == Some(Choice) && ctx.flow == Some(Main)
    requires !IsGreetingWord(Lower(Trim(message)))
    ensures var m := Lower(Trim(message));
            var out := Turn(Some(ctx), message, db, orders, found);
            && ((Contains(m, "order") || Contains(m, "placed")) ==>
                  out == Outcome(Response(AskIdentifier, [], OrderFlowStart), Some(OrderFlowStart)))
            && (!(Contains(m, "order") || Contains(m, "placed")) && (Contains(m, "general") || Contains(m, "query")) ==>
                  out == Outcome(Response(AskTopic, [], GeneralFlowStart), Some(GeneralFlowStart)))
            && (!(Contains(m, "order") || Contains(m, "placed") || Contains(m, "general") || Contains(m, "query")) ==>
                  out == Outcome(Response(NotSure, MenuOptions, MainMenu), None))
  {
    RespondAtMenu(ctx, Read(message, found), db, orders);
  }

  lemma RespondAtMenu(ctx: Context, r: Reading, db: bool, orders: seq<Order>)
    requires ctx.expecting == Some(Choice) && ctx.flow == Some(Main) && !r.greeting
    ensures var out := Respond(Some(ctx), r, db, orders);
            && (r.saysOrder ==> out == Outcome(Response(AskIdentifier, [], OrderFlowStart), Some(OrderFlowStart)))
            && (!r.saysOrder && r.saysGeneral ==> out == Outcome(Response(AskTopic, [], GeneralFlowStart), Some(GeneralFlowStart)))
            && (!r.saysOrder && !r.saysGeneral ==> out == Outcome(Response(NotSure, MenuOptions, MainMenu), None))
  {
  }

  /** A turn that reaches the lookup rule. */
  predicate ReachesLookup(prior: Option<Context>, message: string, found: seq<Product>) {
    var r := Read(message, found);
    var conv := if prior.Some? then prior.value else Fresh;
    && !r.greeting
    && !(conv.expecting == Some(Choice) && (r.saysOrder || r.saysGeneral))
    && InLookup(conv)
  }

  /**
   * In the lookup rule, a disconnected store or a message with neither an address
   * nor an order id leaves the session's record as it was, and answers with it.
   */
  lemma LookupKeepsContext(prior: Option<Context>, message: string, db: bool, orders: seq<Order>, found: seq<Product>)
    requires ReachesLookup(prior, message, found)
    requires !db || (ExtractEmail(message).None? && ExtractOrderId(message).None?)
    ensures var out := Turn(prior, message, db, orders, found);
            var conv := if prior.Some? then prior.value else Fresh;
            out.stored.None? && out.response.context == conv
            && out.response.reply == if db then NoIdentifier else StoreUnavailable
  {
  }

  /** Once the lookup rule is reached, it alone decides the turn. */
  lemma LookupDecides(prior: Option<Context>, message: string, db: bool, orders: seq<Order>, found: seq<Product>)
    requires ReachesLookup(prior, message, found)
    ensures Turn(prior, message, db, orders, found) == Lookup(if prior.Some? then prior.value else Fresh, Read(message, found), db, orders)
  {
  }

  /**
   * An address wins over an order id. After a lookup by address the record keeps its
   * `expecting`/`flow` and its last order id and gains the address, plus the ids of
   * the (at most ten, newest first) orders found, which are exactly the ones shown.
   */
  lemma LookupByEmail(prior: Option<Context>, message: string, orders: seq<Order>, found: seq<Product>)
    requires ReachesLookup(prior, message, found) && ExtractEmail(message).Some?
    ensures var out := Turn(prior, message, true, orders, found);
            var conv := if prior.Some? then prior.value else Fresh;
            out == EmailLookup(conv, ExtractEmail(message).value, orders)
  {
    LookupDecides(prior, message, true, orders, found);
  }

  /**
   * The orders a lookup by address shows: at most ten of the customer's, newest first,
   * whose ids are recorded; showing none means the customer has none.
   */
  lemma EmailLookupShows(conv: Context, email: string, orders: seq<Order>)
    ensures var out := EmailLookup(conv, email, orders);
            && (out.response.reply.OrdersFound? ==>
                  var shown := out.response.reply.orders;
                  && shown == ByEmail(orders, email, Some(10))
                  && 1 <= |shown| <= 10 && NewestFirst(shown)
                  && (forall i | 0 <= i < |shown| :: shown[i].customerEmail == email && shown[i] in orders)
                  && out.stored.value.lastOrders == Some(Ids(shown))
                  && out.response.context.expecting == Some(OrderAction))
            && (out.response.reply.NoOrdersForEmail? ==>
                  out.stored.value.lastOrders == conv.lastOrders
                  && forall o | o in orders :: o.customerEmail != email)
  {
    NoOrdersMeansNoneWithEmail(orders, email);
  }

  lemma NoOrdersMeansNoneWithEmail(orders: seq<Order>, email: string)
    ensures ByEmail(orders, email, Some(10)) == [] ==> forall o | o in orders :: o.customerEmail != email
  {
    if ByEmail(orders, email, Some(10)) == [] {
      forall o | o in orders ensures o.customerEmail != email {
      }
    }
  }

  /** Without an address, the order id decides the lookup. */
  lemma LookupById(prior: Option<Context>, message: string, orders: seq<Order>, found: seq<Product>)
    requires ReachesLookup(prior, message, found) && ExtractEmail(message).None? && ExtractOrderId(message).Some?
    ensures var out := Turn(prior, message, true, orders, found);
            var conv := if prior.Some? then prior.value else Fresh;
            out == OrderIdLookup(conv, ExtractOrderId(message).value, orders)
  {
    LookupDecides(prior, message, true, orders, found);
  }

  lemma RedundantWords(m: string)
    ensures Contains(m, "get refund") ==> Contains(m, "refund")
    ensures Contains(m, "request return") ==> Contains(m, "return")
    ensures Contains(m, "request exchange") ==> Contains(m, "exchange")
    ensures Contains(m, "tracking") ==> Contains(m, "track")
  {
    Within(m, "get refund", 4, "refund");
    Within(m, "request return", 8, "return");
    Within(m, "request exchange", 8, "exchange");
    Within(m, "tracking", 0, "track");
  }

  lemma Within(m: string, long: string, k: nat, short: string)
    requires k + |short| <= |long| && long[k..k + |short|] == short
    ensures Contains(m, long) ==> Contains(m, short)
  {
    if Contains(m, long) {
      ContainsPart(m, long, k, k + |short|);
    }
  }

  /**
   * In the general flow a catalogue match beats an FAQ answer, an FAQ answer beats the
   * ticket offer, and the session's record is never written.
   */
  lemma GeneralFlow(prior: Option<Context>, message: string, db: bool, orders: seq<Order>, found: seq<Product>)
    requires prior.Some? && prior.value.expecting == Some(GeneralQuery) && prior.value.flow == Some(General)
    requires !IsGreetingWord(Lower(Trim(message)))
    ensures var out := Turn(prior, message, db, orders, found);
            && out.stored.None?
            && (SearchProducts(message, found).Some? ==> out.response.reply == ProductMatches(SearchProducts(message, found).value))
            && (SearchProducts(message, found).None? && GetFaqAnswer(message).Some? ==>
                  out.response.reply == FaqReply(GetFaqAnswer(message).value))
            && (SearchProducts(message, found).None? && GetFaqAnswer(message).None? ==>
                  out.response.reply == OfferTicket && out.response.options == TicketOptions
                  && out.response.context.expecting == Some(SupportTicketDecision))
  {
    RespondInGeneralFlow(prior, Read(message, found), db, orders);
  }

  lemma RespondInGeneralFlow(prior: Option<Context>, r: Reading, db: bool, orders: seq<Order>)
    requires prior.Some? && prior.value.expecting == Some(GeneralQuery) && prior.value.flow == Some(General) && !r.greeting
    ensures var out := Respond(prior, r, db, orders);
            && out.stored.None?
            && (r.products.Some? ==> out.response.reply == ProductMatches(r.products.value))
            && (r.products.None? && r.faq.Some? ==> out.response.reply == FaqReply(r.faq.value))
            && (r.products.None? && r.faq.None? ==>
                  out.response.reply == OfferTicket && out.response.options == TicketOptions
                  && out.response.context.expecting == Some(SupportTicketDecision))
  {
  }

  /** The three shapes a stored record takes: the menu, the order flow, the general flow. */
  predicate WellFormed(c: Context) {
    || (c.expecting == Some(Choice) && c.flow == Some(Main))
    || (c.expecting == Some(OrderIdentifier) && c.flow == Some(OrderLookup))
    || (c.expecting == Some(GeneralQuery) && c.flow == Some(General))
  }

  // ---------------------------------------------------------------- the session map

  /** Writing an entry twice leaves the second value. */
  lemma RewriteEntry(m: map<string, Context>, key: string, first: Context, second: Context)
    ensures m[key := first][key := second] == m[key := second]
  {
  }

  class ChatService {
    var contexts: map<string, Context>

    /** Every stored record is well formed. */
    predicate Valid()
      reads this
    {
      forall k | k in contexts :: WellFormed(contexts[k])
    }

    constructor ()
      ensures contexts == map[] && Valid()
    {
      contexts := map[];
    }

    function Prior(key: string): Option<Context>
      reads this
    {
      if key in contexts then Some(contexts[key]) else None
    }

    /**
     * `handleChatMessage`: answers as `Turn` does, and writes the session's entry
     * exactly when `Turn` stores a record; other sessions are untouched.
     */
    method HandleChatMessage(message: string, sessionId: Option<string>, dbConnected: bool, orders: seq<Order>, found: seq<Product>)
      returns (response: Response)
      modifies this
      ensures var out := Turn(old(Prior(SessionKey(sessionId))), message, dbConnected, orders, found);
              && response == out.response
              && contexts == if out.stored.Some? then old(contexts)[SessionKey(sessionId) := out.stored.value] else old(contexts)
      ensures old(Valid()) ==> Valid()
    {
      var said := Read(message, found);
      response := ApplyRules(SessionKey(sessionId), said, dbConnected, orders);
    }

    /** The rules of `handleChatMessage` in order, once the message has been read. */
    method ApplyRules(key: string, said: Reading, dbConnected: bool, orders: seq<Order>) returns (response: Response)
      modifies this
      ensures var out := Respond(old(Prior(key)), said, dbConnected, orders);
              && response == out.response
              && contexts == if out.stored.Some? then old(contexts)[key := out.stored.value] else old(contexts)
      ensures old(Valid()) ==> Valid()
    {
      var conv := if key in contexts then contexts[key] else Fresh;
      if said.greeting {
        contexts := contexts[key := MainMenu];
        return Response(Greeting, MenuOptions, MainMenu);
      }
      if conv.expecting == Some(Choice) {
        if said.saysOrder {
          contexts := contexts[key := OrderFlowStart];
          return Response(AskIdentifier, [], OrderFlowStart);
        } else if said.saysGeneral {
          contexts := contexts[key := GeneralFlowStart];
          return Response(AskTopic, [], GeneralFlowStart);
        }
      }
      if conv.expecting == Some(OrderIdentifier) || conv.flow == Some(OrderLookup) {
        response := LookUp(key, conv, said, dbConnected, orders);
        return;
      }
      match FollowUp(conv, said, orders) {
        case Some(res) => return res;
        case None =>
      }
      if conv.flow == Some(General) || conv.expecting == Some(GeneralQuery) {
        if said.products.Some? {
          return Response(ProductMatches(said.products.value), [], conv.(expecting := Some(GeneralQuery)));
        }
        if said.faq.Some? {
          return Response(FaqReply(said.faq.value), [], conv.(expecting := Some(GeneralQuery)));
        }
        return Response(OfferTicket, TicketOptions, conv.(expecting := Some(SupportTicketDecision)));
      }
      if conv.expecting.None? && conv.flow.None? {
        contexts := contexts[key := MainMenu];
        return Response(Greeting, MenuOptions, MainMenu);
      }
      return Response(NotSure, MenuOptions, MainMenu);
    }

    /** The order-lookup rule: reads the order store and records what it found for session `key`. */
    method LookUp(key: string, conv: Context, said: Reading, dbConnected: bool, orders: seq<Order>) returns (response: Response)
      modifies this
      ensures var out := Lookup(conv, said, dbConnected, orders);
              && response == out.response
              && contexts == if out.stored.Some? then old(contexts)[key := out.stored.value] else old(contexts)
    {
      if !dbConnected {
        return Response(StoreUnavailable, [], conv);
      }
      if said.email.Some? {
        response := LookUpEmail(key, conv, said.email.value, orders);
      } else if said.orderId.Some? {
        response := LookUpOrderId(key, conv, said.orderId.value, orders);
      } else {
        return Response(NoIdentifier, [], conv);
      }
    }

    /** The address branch of the lookup: the address is recorded before the store is read. */
    method LookUpEmail(key: string, conv: Context, email: string, orders: seq<Order>) returns (response: Response)
      modifies this
      ensures response == EmailLookup(conv, email, orders).response
      ensures contexts == old(contexts)[key := EmailLookup(conv, email, orders).stored.value]
    {
      contexts := contexts[key := conv.(lastEmail := Some(email))];
      var mine := ByEmail(orders, email, Some(10));
      if mine == [] {
        return Response(NoOrdersForEmail(email), [], conv.(lastEmail := Some(email)));
      }
      var ids := Ids(mine);
      var found := conv.(lastEmail := Some(email), lastOrders := Some(ids));
      RewriteEntry(old(contexts), key, conv.(lastEmail := Some(email)), found);
      contexts := contexts[key := found];
      return Response(OrdersFound(mine), [], Context(Some(OrderAction), Some(OrderLookup), None, Some(email), Some(ids)));
    }

    /** The order-id branch of the lookup: the id is recorded before the store is read. */
    method LookUpOrderId(key: string, conv: Context, orderId: string, orders: seq<Order>) returns (response: Response)
      modifies this
      ensures var out := OrderIdLookup(conv, orderId, orders);
              && response == out.response
              && out.stored.Some? && contexts == old(contexts)[key := out.stored.value]
    {
      contexts := contexts[key := conv.(lastOrderId := Some(orderId))];
      var order := FindById(orders, orderId);
      if order.None? {
        return Response(OrderNotFound(orderId), [], conv.(lastOrderId := Some(orderId)));
      }
      var email := order.value.customerEmail;
      var found := conv.(lastOrderId := Some(orderId), lastEmail := Some(email));
      RewriteEntry(old(contexts), key, conv.(lastOrderId := Some(orderId)), found);
      contexts := contexts[key := found];
      return Response(OrderDetails(order.value), [], Context(Some(OrderAction), Some(OrderLookup), Some(orderId), Some(email), None));
    }

    /** `clearContext`: forgets one session; an omitted id means "default", while "" is a key of its own. */
    method ClearContext(sessionId: Option<string>)
      modifies this
      ensures contexts == old(contexts) - {if sessionId.Some? then sessionId.value else "default"}
      ensures old(Valid()) ==> Valid()
    {
      var key := if sessionId.Some? then sessionId.value else "default";
      contexts := contexts - {key};
    }
  }
}
