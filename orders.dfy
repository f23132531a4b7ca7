/**
 * The order routes with the HTTP layer stripped: the customer-email check and
 * lookup, the tracking projection, and the refund, return and exchange actions,
 * which change one stored record field by field. Clock readings are parameters.
 */
module OrderRoutes {
  import opened Common
  import opened Strings
  import opened OrderModel
  import Chat

  // ---------------------------------------------------------------- GET /api/orders?email=

  /** `[^\s@]+`: a non-empty run without white space or `@`. */
  predicate Plain(x: string) {
    |x| > 0 && forall k | 0 <= k < |x| :: !IsSpace(x[k]) && x[k] != '@'
  }

  /** `^[^\s@]+@[^\s@]+\.[^\s@]+$`, read as a split of the whole string at an `@` and a later dot. */
  predicate EmailPattern(s: string) {
    exists a, d | 0 <= a < d < |s| :: s[a] == '@' && s[d] == '.' && Plain(s[..a]) && Plain(s[a + 1..d]) && Plain(s[d + 1..])
  }

  /** The index of the first `c` in `s`. */
  function IndexOfChar(s: string, c: char): (r: Option<nat>)
    ensures r.Some? ==> r.value < |s| && s[r.value] == c && forall k | 0 <= k < r.value :: s[k] != c
    ensures r.None? ==> forall k | 0 <= k < |s| :: s[k] != c
  {
    if s == [] then None
    else if s[0] == c then Some(0)
    else
      match IndexOfChar(s[1..], c)
      case None => None
      case Some(i) => Some(i + 1)
  }

  /**
   * The email check: no white space, exactly one `@` with something before it, and a
   * dot with something on both sides somewhere after it.
   */
  function EmailFormatOk(s: string): (ok: bool)
    ensures ok <==> EmailPattern(s)
  {
    var at := IndexOfChar(s, '@');
    var ok := && (forall k | 0 <= k < |s| :: !IsSpace(s[k]))
              && at.Some? && at.value > 0
              && (forall k | at.value < k < |s| :: s[k] != '@')
              && (exists d | at.value + 1 < d < |s| - 1 :: s[d] == '.');
    assert ok == EmailChecks(s, at);
    EmailFormatMeaning(s, at);
    ok
  }

  /** The conditions `EmailFormatOk` tests, given the index of the first `@`. */
  predicate EmailChecks(s: string, at: Option<nat>) {
    && (forall k | 0 <= k < |s| :: !IsSpace(s[k]))
    && at.Some? && at.value > 0
    && (forall k | at.value < k < |s| :: s[k] != '@')
    && (exists d | at.value + 1 < d < |s| - 1 :: s[d] == '.')
  }

  lemma EmailFormatMeaning(s: string, at: Option<nat>)
    requires at == IndexOfChar(s, '@')
    ensures EmailPattern(s) <==> EmailChecks(s, at)
  {
    if EmailPattern(s) {
      PatternPassesChecks(s, at);
    }
    if EmailChecks(s, at) {
      ChecksGivePattern(s, at);
    }
  }

  lemma PatternPassesChecks(s: string, at: Option<nat>)
    requires at == IndexOfChar(s, '@') && EmailPattern(s)
    ensures EmailChecks(s, at)
  {
    var a, d :| 0 <= a < d < |s| && s[a] == '@' && s[d] == '.' && Plain(s[..a]) && Plain(s[a + 1..d]) && Plain(s[d + 1..]);
    forall k | 0 <= k < |s| ensures !IsSpace(s[k]) && (k != a ==> s[k] != '@') {
      if k < a {
        assert s[k] == s[..a][k];
      } else if a < k < d {
        assert s[k] == s[a + 1..d][k - a - 1];
      } else if d < k {
        assert s[k] == s[d + 1..][k - d - 1];
      }
    }
    assert at == Some(a);
  }

  lemma ChecksGivePattern(s: string, at: Option<nat>)
    requires at == IndexOfChar(s, '@') && EmailChecks(s, at)
    ensures EmailPattern(s)
  {
    var a := at.value;
    var d :| a + 1 < d < |s| - 1 && s[d] == '.';
    assert Plain(s[..a]);
    assert Plain(s[a + 1..d]);
    assert Plain(s[d + 1..]);
  }

  /** The fields the email lookup returns for each order. */
  datatype OrderSummary = OrderSummary(orderId: string, items: seq<Item>, totalAmount: int, status: Status, orderDate: int)

  function Summary(o: Order): OrderSummary {
    OrderSummary(o.orderId, o.items, o.totalAmount, o.status, o.orderDate)
  }

  /** 400 "Email parameter is required", 400 "Invalid email format", 404 "No orders found", or the orders. */
  datatype EmailLookupResult =
    | EmailRequired
    | InvalidEmail
    | NoOrders(email: string)
    | Found(count: nat, orders: seq<OrderSummary>)

  /**
   * The email lookup: a missing or empty email is refused first, a malformed one
   * second; otherwise the orders stored under the lower-cased email, newest first.
   */
  function LookupOrders(orders: seq<Order>, email: Option<string>): (r: EmailLookupResult)
    ensures r == EmailRequired <==> !Truthy(email)
    ensures r == InvalidEmail <==> Truthy(email) && !EmailPattern(email.value)
    ensures r.NoOrders? ==> r.email == email.value && forall o | o in orders :: o.customerEmail != Lower(email.value)
    ensures r.Found? ==> r.count == |r.orders| >= 1
  {
    if !Truthy(email) then EmailRequired
    else if !EmailFormatOk(email.value) then InvalidEmail
    else
      var mine := ByEmail(orders, Lower(email.value), None);
      if mine == [] then
        NoCustomerOrders(orders, Lower(email.value));
        NoOrders(email.value)
      else
        var shown := Summaries(mine);
        Found(|shown|, shown)
  }

  /** The orders' summaries, position by position. */
  function Summaries(s: seq<Order>): (r: seq<OrderSummary>)
    ensures |r| == |s| && forall i | 0 <= i < |s| :: r[i] == Summary(s[i])
  {
    seq(|s|, i requires 0 <= i < |s| => Summary(s[i]))
  }

  /**
   * A successful lookup lists every order stored under the lower-cased email, each
   * projected to its summary, newest first.
   */
  lemma LookupOrdersFound(orders: seq<Order>, email: Option<string>)
    ensures var r := LookupOrders(orders, email);
            r.Found? ==>
              && |r.orders| == |WithEmail(orders, Lower(email.value))|
              && (forall i, j | 0 <= i < j < |r.orders| :: r.orders[i].orderDate >= r.orders[j].orderDate)
              && (forall i | 0 <= i < |r.orders| :: exists o | o in orders :: o.customerEmail == Lower(email.value) && Summary(o) == r.orders[i])
              && (forall o | o in orders && o.customerEmail == Lower(email.value) :: Summary(o) in r.orders)
  {
    var r := LookupOrders(orders, email);
    if r.Found? {
      var e := Lower(email.value);
      var mine := ByEmail(orders, e, None);
      assert r.orders == Summaries(mine);
      forall i | 0 <= i < |r.orders|
        ensures exists o | o in orders :: o.customerEmail == e && Summary(o) == r.orders[i]
      {
        assert mine[i] in orders && mine[i].customerEmail == e;
      }
      SummariesComplete(orders, e);
    }
  }

  lemma SummariesComplete(orders: seq<Order>, email: string)
    ensures forall o | o in orders && o.customerEmail == email :: Summary(o) in Summaries(ByEmail(orders, email, None))
  {
    var mine := ByEmail(orders, email, None);
    ByEmailAll(orders, email);
    forall o | o in orders && o.customerEmail == email
      ensures Summary(o) in Summaries(mine)
    {
      assert multiset(orders)[o] > 0;
      assert o in multiset(mine);
      var i :| 0 <= i < |mine| && mine[i] == o;
      assert Summaries(mine)[i] == Summary(o);
    }
  }

  lemma NoCustomerOrders(orders: seq<Order>, email: string)
    requires ByEmail(orders, email, None) == []
    ensures forall o | o in orders :: o.customerEmail != email
  {
    forall o | o in orders ensures o.customerEmail != email {
      assert multiset(orders)[o] > 0;
    }
  }

  // ---------------------------------------------------------------- GET /api/orders/:id/track

  /** The route's location rule: an exact-case test of the status text. */
  function TrackLocation(status: string): (loc: string)
    ensures loc == "In transit" <==> status == "shipped"
    ensures loc == "Delivered" <==> status == "Delivered"
    ensures loc == "Processing at warehouse" <==> status == "processing"
    ensures loc in {"In transit", "Delivered", "Processing at warehouse", "Pending"}
  {
    if status == "shipped" then "In transit"
    else if status == "Delivered" then "Delivered"
    else if status == "processing" then "Processing at warehouse"
    else "Pending"
  }

  /** For a stored order the warehouse line never appears, and "Processing" orders read "Pending". */
  lemma TrackLocationOfStatus(st: Status)
    ensures TrackLocation(StatusName(st)) != "Processing at warehouse"
    ensures TrackLocation(StatusName(st)) == "In transit" <==> st == Shipped
    ensures TrackLocation(StatusName(st)) == "Delivered" <==> st == Delivered
    ensures st == Processing ==> TrackLocation(StatusName(st)) == "Pending"
  {
    NoLowerCaseProcessingOrDelivered(st);
  }

  /** The chat and the tracking route disagree on exactly one stored status: "Processing". */
  lemma LocationRulesDiffer(st: Status)
    ensures TrackLocation(StatusName(st)) != Chat.ChatLocation(StatusName(st)) <==> st == Processing
  {
    TrackLocationOfStatus(st);
    Chat.ChatLocationOfStatus(st);
  }

  datatype TrackingView = TrackingView(
    orderId: string,
    status: Status,
    trackingNumber: string,
    estimatedDelivery: Option<int>,
    shippingAddress: Option<Address>,
    currentLocation: string)

  /** The tracking route: 404 (`None`) for an unknown id, else the projection with its defaults. */
  function Track(orders: seq<Order>, id: string): (r: Option<TrackingView>)
    ensures r.None? <==> forall o | o in orders :: o.orderId != id
    ensures r.Some? ==> exists o | o in orders :: o.orderId == id && r.value.status == o.status
                                                && r.value.currentLocation == TrackLocation(StatusName(o.status))
                                                && r.value.trackingNumber == if Truthy(o.trackingNumber) then o.trackingNumber.value else "Not assigned yet"
  {
    match FindById(orders, id)
    case None => None
    case Some(o) =>
      Some(TrackingView(
        o.orderId,
        o.status,
        if Truthy(o.trackingNumber) then o.trackingNumber.value else "Not assigned yet",
        o.estimatedDelivery,
        o.shippingAddress,
        TrackLocation(StatusName(o.status))))
  }

  // ---------------------------------------------------------------- POST /api/orders/:id/{refund,return,exchange}

  /** An action request; the exchange carries the optional `reason` and `newItem` of its body. */
  datatype Request = RefundRequest | ReturnRequest | ExchangeRequest(reason: Option<string>, newItem: Option<string>)

  /** 404 "Order not found"; an earlier request of the same kind, with its stored id if any; or the new id. */
  datatype ActionResult = NotFound | AlreadyDone(existingId: Option<string>) | Done(newId: string)

  /** The status each action sets. */
  function ActionStatus(req: Request): Status {
    match req
    case RefundRequest => Refund
    case ReturnRequest => Return
    case ExchangeRequest(_, _) => Exchange
  }

  /**
   * The action was already taken: the record carries the status the action sets, or,
   * for a refund only, its payment is already refunded.
   */
  predicate AlreadyTaken(req: Request, o: Order)
    ensures AlreadyTaken(req, o) <==> o.status == ActionStatus(req) || (req.RefundRequest? && o.paymentStatus == Refunded)
  {
    match req
    case RefundRequest => o.status == Refund || o.paymentStatus == Refunded
    case ReturnRequest => o.status == Return
    case ExchangeRequest(_, _) => o.status == Exchange
  }

  function ExistingId(req: Request, o: Order): Option<string> {
    match req
    case RefundRequest => o.refundId
    case ReturnRequest => o.returnId
    case ExchangeRequest(_, _) => o.exchangeId
  }

  function IdPrefix(req: Request): string {
    match req
    case RefundRequest => "R"
    case ReturnRequest => "RET"
    case ExchangeRequest(_, _) => "EX"
  }

  /** The action's prefix followed by the decimal digits of the clock reading. */
  function NewId(req: Request, now: nat): (id: string)
    ensures |id| > |IdPrefix(req)| && id[..|IdPrefix(req)|] == IdPrefix(req)
    ensures AllDigits(id[|IdPrefix(req)|..]) && DigitsValue(id[|IdPrefix(req)|..]) == now
  {
    NatToStringRoundTrip(now);
    var id := IdPrefix(req) + NatToString(now);
    assert id[|IdPrefix(req)|..] == NatToString(now);
    id
  }

  /** Two action ids are equal exactly when they come from the same kind of action at the same clock reading. */
  lemma NewIdInjective(r1: Request, t1: nat, r2: Request, t2: nat)
    ensures NewId(r1, t1) == NewId(r2, t2) <==> IdPrefix(r1) == IdPrefix(r2) && t1 == t2
  {
    var a, b := NewId(r1, t1), NewId(r2, t2);
    if IdPrefix(r1) != IdPrefix(r2) {
      if r1.ExchangeRequest? || r2.ExchangeRequest? {
        assert a[0] != b[0];
      } else if r1.RefundRequest? {
        assert a[1..][0] == a[1] && b[1] == 'E';
      } else {
        assert b[1..][0] == b[1] && a[1] == 'E';
      }
    } else if a == b {
      assert a[|IdPrefix(r1)|..] == b[|IdPrefix(r2)|..];
    }
  }

  function ExchangeNote(reason: Option<string>, newItem: Option<string>): (note: string)
    ensures Truthy(reason) ==> Contains(note, "Reason: " + reason.value)
    ensures Truthy(newItem) ==> Contains(note, "New item: " + newItem.value)
    ensures !Truthy(reason) && !Truthy(newItem) ==> note == "Exchange requested.  "
  {
    var because := if Truthy(reason) then "Reason: " + reason.value else "";
    var wanted := if Truthy(newItem) then "New item: " + newItem.value else "";
    ContainsInMiddle("Exchange requested. ", because, " " + wanted);
    AppendAssoc("Exchange requested. " + because, " ", wanted);
    ContainsInMiddle("Exchange requested. " + because + " ", wanted, "");
    assert "Exchange requested. " + because + " " + wanted + "" == "Exchange requested. " + because + " " + wanted;
    "Exchange requested. " + because + " " + wanted
  }

  /** The history entry an action appends. */
  function ActionEntry(req: Request, o: Order, now: int): HistoryEntry {
    match req
    case RefundRequest => HistoryEntry("refund_initiated", "Refund", now, "Refund initiated. Amount: ₹" + IntToString(o.totalAmount))
    case ReturnRequest => HistoryEntry("return_requested", "Return", now, "Return requested. Pickup will be scheduled within 24 hours.")
    case ExchangeRequest(reason, newItem) => HistoryEntry("exchange_requested", "Exchange", now, ExchangeNote(reason, newItem))
  }

  /** The two records agree on every field an action never writes. */
  predicate SameFixedFields(o: Order, p: Order) {
    && p.orderId == o.orderId && p.customerName == o.customerName && p.customerEmail == o.customerEmail
    && p.items == o.items && p.totalAmount == o.totalAmount
    && p.shippingAddress == o.shippingAddress && p.paymentMethod == o.paymentMethod
    && p.orderDate == o.orderDate && p.estimatedDelivery == o.estimatedDelivery
    && p.trackingNumber == o.trackingNumber && p.createdAt == o.createdAt
  }

  /** The record after an action that was not already taken. */
  function Performed(req: Request, o: Order, now: nat): (p: Order)
    ensures SameFixedFields(o, p)
    ensures p.status == match req
                          case RefundRequest => Refund
                          case ReturnRequest => Return
                          case ExchangeRequest(_, _) => Exchange
    ensures p.paymentStatus == if req.RefundRequest? then Refunded else o.paymentStatus
    ensures p.refundId == if req.RefundRequest? then Some(NewId(req, now)) else o.refundId
    ensures p.returnId == if req.ReturnRequest? then Some(NewId(req, now)) else o.returnId
    ensures p.exchangeId == if req.ExchangeRequest? then Some(NewId(req, now)) else o.exchangeId
    ensures p.history == o.history + [ActionEntry(req, o, now)]
    ensures p.updatedAt == now
  {
    var entry := ActionEntry(req, o, now);
    match req
    case RefundRequest =>
      o.(status := Refund, paymentStatus := Refunded, refundId := Some(NewId(req, now)), history := o.history + [entry], updatedAt := now)
    case ReturnRequest =>
      o.(status := Return, returnId := Some(NewId(req, now)), history := o.history + [entry], updatedAt := now)
    case ExchangeRequest(_, _) =>
      o.(status := Exchange, exchangeId := Some(NewId(req, now)), history := o.history + [entry], updatedAt := now)
  }

  /** One action route on the store: its result and the store afterwards. */
  function Act(orders: seq<Order>, id: string, req: Request, now: nat): (r: (ActionResult, seq<Order>))
    ensures |r.1| == |orders|
  {
    match FindIndex(orders, id)
    case None => (NotFound, orders)
    case Some(i) =>
      var o := orders[i];
      if AlreadyTaken(req, o) then (AlreadyDone(ExistingId(req, o)), orders)
      else (Done(NewId(req, now)), orders[i := Performed(req, o, now)])
  }

  /** An unknown id changes nothing. */
  lemma ActUnknownId(orders: seq<Order>, id: string, req: Request, now: nat)
    requires forall o | o in orders :: o.orderId != id
    ensures Act(orders, id, req, now) == (NotFound, orders)
  {
    forall i | 0 <= i < |orders| ensures orders[i].orderId != id {
      assert orders[i] in orders;
    }
  }

  /**
   * An action touches one record, the first with the id: only its status, its payment
   * status (refund only), its own id field, its history (one entry appended) and
   * `updatedAt` change.
   */
  lemma ActFrame(orders: seq<Order>, id: string, req: Request, now: nat)
    ensures var (res, after) := Act(orders, id, req, now);
            && (res.NotFound? || res.AlreadyDone? ==> after == orders)
            && (res.Done? ==>
                  exists i | 0 <= i < |orders| ::
                    && orders[i].orderId == id && !AlreadyTaken(req, orders[i])
                    && after == orders[i := after[i]]
                    && SameFixedFields(orders[i], after[i])
                    && |after[i].history| == |orders[i].history| + 1
                    && after[i].history[..|orders[i].history|] == orders[i].history)
  {
    var (res, after) := Act(orders, id, req, now);
    if res.Done? {
      var i := FindIndex(orders, id).value;
      assert after[i].history[..|orders[i].history|] == orders[i].history;
    }
  }

  /**
   * The outcome of an action on the first record with the id: "not found" exactly when
   * there is none; "already done", with the record's stored id, exactly when the action
   * was already taken; otherwise the new id, with that record replaced by the performed one.
   */
  lemma ActOutcome(orders: seq<Order>, id: string, req: Request, now: nat)
    ensures var (res, after) := Act(orders, id, req, now);
            && (res.NotFound? <==> forall k | 0 <= k < |orders| :: orders[k].orderId != id)
            && (FindIndex(orders, id).Some? ==>
                  var i := FindIndex(orders, id).value;
                  && (forall k | 0 <= k < i :: orders[k].orderId != id)
                  && (res.AlreadyDone? <==> AlreadyTaken(req, orders[i]))
                  && (res.AlreadyDone? ==> res.existingId == ExistingId(req, orders[i]))
                  && (res.Done? ==> res.newId == NewId(req, now) && after == orders[i := Performed(req, orders[i], now)]))
  {
  }

  /** Repeating an action is a no-op that reports the id the first call stored. */
  lemma ActIdempotent(orders: seq<Order>, id: string, req: Request, now: nat, later: nat)
    ensures var (res, after) := Act(orders, id, req, now);
            res.Done? ==> Act(after, id, req, later) == (AlreadyDone(Some(res.newId)), after)
  {
    var (res, after) := Act(orders, id, req, now);
    if res.Done? {
      var i := FindIndex(orders, id).value;
      assert after[i] == Performed(req, orders[i], now);
      assert after[i].orderId == id;
      assert forall k | 0 <= k < i :: after[k] == orders[k];
      assert FindIndex(after, id) == Some(i);
    }
  }

  /** The actions keep the store valid: required fields and ids are never written. */
  lemma ActKeepsStoreValid(orders: seq<Order>, id: string, req: Request, now: nat)
    requires ValidStore(orders)
    ensures ValidStore(Act(orders, id, req, now).1)
  {
    match FindIndex(orders, id)
    case None =>
    case Some(i) =>
      if !AlreadyTaken(req, orders[i]) {
        ReplaceKeepsStoreValid(orders, i, Performed(req, orders[i], now));
      }
  }

  /** Replacing a record by one with the same fixed fields keeps the store valid. */
  lemma ReplaceKeepsStoreValid(orders: seq<Order>, i: nat, p: Order)
    requires ValidStore(orders) && i < |orders| && SameFixedFields(orders[i], p)
    ensures ValidStore(orders[i := p])
  {
  }

  /**
   * A refunded payment stays refunded, and from then on no action writes the refund
   * id: every later refund request is a no-op.
   */
  lemma RefundedStaysRefunded(orders: seq<Order>, id: string, req: Request, now: nat, k: nat)
    requires k < |orders| && orders[k].paymentStatus == Refunded
    ensures var after := Act(orders, id, req, now).1;
            after[k].paymentStatus == Refunded && after[k].refundId == orders[k].refundId
  {
    match FindIndex(orders, id)
    case None =>
    case Some(i) =>
      if i == k {
        assert req.RefundRequest? ==> AlreadyTaken(req, orders[k]);
      }
  }

  /**
   * Return and exchange ids are not write-once: a return, then a refund (which moves
   * the status off "Return"), then a second return stores a second return id.
   */
  lemma ReturnIdRewritten(o: Order, t1: nat, t2: nat, t3: nat)
    requires o.status != Return && o.status != Refund && o.paymentStatus != Refunded && t1 != t3
    ensures var s1 := Act([o], o.orderId, ReturnRequest, t1);
            var s2 := Act(s1.1, o.orderId, RefundRequest, t2);
            var s3 := Act(s2.1, o.orderId, ReturnRequest, t3);
            && s1.0 == Done("RET" + NatToString(t1)) && s2.0.Done? && s3.0 == Done("RET" + NatToString(t3))
            && s3.1[0].returnId == Some("RET" + NatToString(t3)) != Some("RET" + NatToString(t1))
  {
    var s1 := Act([o], o.orderId, ReturnRequest, t1);
    var s2 := Act(s1.1, o.orderId, RefundRequest, t2);
    assert s1.1[0].orderId == o.orderId && s2.1[0].orderId == o.orderId;
    if "RET" + NatToString(t3) == "RET" + NatToString(t1) {
      assert NatToString(t3) == ("RET" + NatToString(t3))[3..];
      NatToStringInjective(t1, t3);
    }
  }

  // ---------------------------------------------------------------- the store

  /** The order collection, whose records the action routes update in place. */
  class OrderStore {
    var orders: seq<Order>

    constructor (initial: seq<Order>)
      requires ValidStore(initial)
      ensures Valid() && orders == initial
    {
      orders := initial;
    }

    predicate Valid()
      reads this
    {
      ValidStore(orders)
    }

    /** POST /:id/refund */
    method Refund(id: string, now: nat) returns (result: ActionResult)
      modifies this
      ensures (result, orders) == Act(old(orders), id, RefundRequest, now)
      ensures old(Valid()) ==> Valid()
    {
      if Valid() { ActKeepsStoreValid(orders, id, RefundRequest, now); }
      var found := FindIndex(orders, id);
      if found.None? {
        return NotFound;
      }
      var i := found.value;
      var order := orders[i];
      if order.status == OrderModel.Refund || order.paymentStatus == Refunded {
        return AlreadyDone(order.refundId);
      }
      var refundId := "R" + NatToString(now);
      order := order.(status := OrderModel.Refund);
      order := order.(paymentStatus := Refunded);
      order := order.(refundId := Some(refundId));
      order := order.(history := order.history + [HistoryEntry("refund_initiated", "Refund", now, "Refund initiated. Amount: ₹" + IntToString(order.totalAmount))]);
      order := order.(updatedAt := now);
      orders := orders[i := order];
      return Done(refundId);
    }

    /** POST /:id/return */
    method Return(id: string, now: nat) returns (result: ActionResult)
      modifies this
      ensures (result, orders) == Act(old(orders), id, ReturnRequest, now)
      ensures old(Valid()) ==> Valid()
    {
      if Valid() { ActKeepsStoreValid(orders, id, ReturnRequest, now); }
      var found := FindIndex(orders, id);
      if found.None? {
        return NotFound;
      }
      var i := found.value;
      var order := orders[i];
      if order.status == OrderModel.Return {
        return AlreadyDone(order.returnId);
      }
      var returnId := "RET" + NatToString(now);
      order := order.(status := OrderModel.Return);
      order := order.(returnId := Some(returnId));
      order := order.(history := order.history + [HistoryEntry("return_requested", "Return", now, "Return requested. Pickup will be scheduled within 24 hours.")]);
      order := order.(updatedAt := now);
      orders := orders[i := order];
      return Done(returnId);
    }

    /** POST /:id/exchange, with the body's optional `reason` and `newItem`. */
    method Exchange(id: string, reason: Option<string>, newItem: Option<string>, now: nat) returns (result: ActionResult)
      modifies this
      ensures (result, orders) == Act(old(orders), id, ExchangeRequest(reason, newItem), now)
      ensures old(Valid()) ==> Valid()
    {
      if Valid() { ActKeepsStoreValid(orders, id, ExchangeRequest(reason, newItem), now); }
      var found := FindIndex(orders, id);
      if found.None? {
        return NotFound;
      }
      var i := found.value;
      var order := orders[i];
      if order.status == OrderModel.Exchange {
        return AlreadyDone(order.exchangeId);
      }
      var exchangeId := "EX" + NatToString(now);
      order := order.(status := OrderModel.Exchange);
      order := order.(exchangeId := Some(exchangeId));
      order := order.(history := order.history + [HistoryEntry("exchange_requested", "Exchange", now, ExchangeNote(reason, newItem))]);
      order := order.(updatedAt := now);
      orders := orders[i := order];
      return Done(exchangeId);
    }
  }
}
