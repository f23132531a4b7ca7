/**
 * The order record kept by the order store, its two enumerations with their
 * defaults, and the two queries the services run against the store: the lookup
 * of one order by its id and the lookup of a customer's orders, newest first.
 * The store itself is a sequence of records in the store's natural order.
 */
module OrderModel {
  import opened Common
  import opened Strings

  /** The order statuses the schema admits, spelled as the schema spells them (mixed case). */
  datatype Status = Pending | Confirmed | Processing | Shipped | Delivered | Refund | Return | Exchange | Cancelled

  datatype PaymentStatus = PaymentPending | Paid | Failed | Refunded

  function StatusName(s: Status): string {
    match s
    case Pending => "pending"
    case Confirmed => "confirmed"
    case Processing => "Processing"
    case Shipped => "shipped"
    case Delivered => "Delivered"
    case Refund => "Refund"
    case Return => "Return"
    case Exchange => "Exchange"
    case Cancelled => "cancelled"
  }

  function PaymentStatusName(p: PaymentStatus): string {
    match p
    case PaymentPending => "pending"
    case Paid => "paid"
    case Failed => "failed"
    case Refunded => "refunded"
  }

  /**
   * The schema's enum validation of a status with its default: an absent status
   * becomes "pending", a listed name its status, and anything else is refused.
   */
  function ParseStatus(name: Option<string>): (r: Option<Status>)
    ensures name.None? ==> r == Some(Pending)
    ensures name.Some? && r.Some? ==> StatusName(r.value) == name.value
    ensures name.Some? && r.None? ==> forall s: Status :: StatusName(s) != name.value
  {
    match name
    case None => Some(Pending)
    case Some(n) =>
      if n == "pending" then Some(Pending)
      else if n == "confirmed" then Some(Confirmed)
      else if n == "Processing" then Some(Processing)
      else if n == "shipped" then Some(Shipped)
      else if n == "Delivered" then Some(Delivered)
      else if n == "Refund" then Some(Refund)
      else if n == "Return" then Some(Return)
      else if n == "Exchange" then Some(Exchange)
      else if n == "cancelled" then Some(Cancelled)
      else None
  }

  /** The same for the payment status: absent becomes "pending". */
  function ParsePaymentStatus(name: Option<string>): (r: Option<PaymentStatus>)
    ensures name.None? ==> r == Some(PaymentPending)
    ensures name.Some? && r.Some? ==> PaymentStatusName(r.value) == name.value
    ensures name.Some? && r.None? ==> forall p: PaymentStatus :: PaymentStatusName(p) != name.value
  {
    match name
    case None => Some(PaymentPending)
    case Some(n) =>
      if n == "pending" then Some(PaymentPending)
      else if n == "paid" then Some(Paid)
      else if n == "failed" then Some(Failed)
      else if n == "refunded" then Some(Refunded)
      else None
  }

  /** Every status name reads back as its status, so the names are pairwise distinct. */
  lemma StatusNamesRoundTrip(s: Status)
    ensures ParseStatus(Some(StatusName(s))) == Some(s)
  {
  }

  lemma PaymentStatusNamesRoundTrip(p: PaymentStatus)
    ensures ParsePaymentStatus(Some(PaymentStatusName(p))) == Some(p)
  {
  }

  /**
   * The enumeration holds "Processing" and "Delivered" but not their lower-case
   * spellings, so a comparison with "processing" or "delivered" never holds for a
   * stored order.
   */
  lemma NoLowerCaseProcessingOrDelivered(s: Status)
    ensures StatusName(s) != "processing" && StatusName(s) != "delivered"
  {
  }

  datatype Item = Item(productName: string, quantity: int, price: int)

  datatype HistoryEntry = HistoryEntry(action: string, status: string, timestamp: int, note: string)

  datatype Address = Address(street: string, city: string, state: string, zipCode: string)

  /** Times are milliseconds since the epoch. */
  datatype Order = Order(
    orderId: string,
    customerName: string,
    customerEmail: string,
    items: seq<Item>,
    totalAmount: int,
    status: Status,
    history: seq<HistoryEntry>,
    refundId: Option<string>,
    returnId: Option<string>,
    exchangeId: Option<string>,
    shippingAddress: Option<Address>,
    paymentMethod: Option<string>,
    paymentStatus: PaymentStatus,
    orderDate: int,
    estimatedDelivery: Option<int>,
    trackingNumber: Option<string>,
    createdAt: int,
    updatedAt: int)

  /** The required string fields are present (the schema's `required` refuses the empty string). */
  predicate ValidOrder(o: Order) {
    o.orderId != "" && o.customerName != "" && o.customerEmail != ""
  }

  /** `orderId` is unique across the store. */
  predicate UniqueIds(orders: seq<Order>) {
    forall i, j | 0 <= i < j < |orders| :: orders[i].orderId != orders[j].orderId
  }

  predicate ValidStore(orders: seq<Order>) {
    UniqueIds(orders) && forall i | 0 <= i < |orders| :: ValidOrder(orders[i])
  }

  // ---------------------------------------------------------------- findOne({orderId})

  /** The position of the first order with the given id. */
  function FindIndex(orders: seq<Order>, id: string): (r: Option<nat>)
    ensures r.Some? ==> r.value < |orders| && orders[r.value].orderId == id
    ensures r.Some? ==> forall i | 0 <= i < r.value :: orders[i].orderId != id
    ensures r.None? <==> forall i | 0 <= i < |orders| :: orders[i].orderId != id
  {
    if orders == [] then None
    else if orders[0].orderId == id then Some(0)
    else
      match FindIndex(orders[1..], id)
      case None => None
      case Some(j) => Some(j + 1)
  }

  /** In a store with unique ids, the order at a position is the one found by its id. */
  lemma FindIndexUnique(orders: seq<Order>, i: nat)
    requires UniqueIds(orders) && i < |orders|
    ensures FindIndex(orders, orders[i].orderId) == Some(i)
  {
  }

  function FindById(orders: seq<Order>, id: string): (r: Option<Order>)
    ensures r.Some? <==> exists i | 0 <= i < |orders| :: orders[i].orderId == id
    ensures r.Some? ==> r.value.orderId == id && r.value in orders
  {
    match FindIndex(orders, id)
    case None => None
    case Some(i) => Some(orders[i])
  }

  // ---------------------------------------------------------------- find({customerEmail}).sort({orderDate: -1})

  predicate NewestFirst(os: seq<Order>) {
    forall i, j | 0 <= i < j < |os| :: os[i].orderDate >= os[j].orderDate
  }

  /** The orders placed with exactly this email, each as often as in the store, in store order. */
  function WithEmail(orders: seq<Order>, email: string): (r: seq<Order>)
    ensures forall i | 0 <= i < |r| :: r[i].customerEmail == email && r[i] in orders
    ensures forall o :: multiset(r)[o] == if o.customerEmail == email then multiset(orders)[o] else 0
  {
    if orders == [] then []
    else
      var rest := WithEmail(orders[1..], email);
      assert orders == [orders[0]] + orders[1..];
      if orders[0].customerEmail == email then [orders[0]] + rest else rest
  }

  /** Puts `o` in front of the first order that is strictly older, so equal dates keep their order. */
  function InsertByDate(o: Order, sorted: seq<Order>): (r: seq<Order>)
    requires NewestFirst(sorted)
    ensures NewestFirst(r)
    ensures multiset(r) == multiset(sorted) + multiset{o}
  {
    if sorted == [] || o.orderDate >= sorted[0].orderDate then [o] + sorted
    else
      var rest := InsertByDate(o, sorted[1..]);
      InsertStep(o, sorted, rest);
      [sorted[0]] + rest
  }

  lemma InsertStep(o: Order, sorted: seq<Order>, rest: seq<Order>)
    requires sorted != [] && NewestFirst(sorted) && o.orderDate < sorted[0].orderDate
    requires NewestFirst(rest) && multiset(rest) == multiset(sorted[1..]) + multiset{o}
    ensures NewestFirst([sorted[0]] + rest)
    ensures multiset([sorted[0]] + rest) == multiset(sorted) + multiset{o}
  {
    var r := [sorted[0]] + rest;
    assert sorted == [sorted[0]] + sorted[1..];
    forall j | 0 < j < |r| ensures r[0].orderDate >= r[j].orderDate {
      var x := rest[j - 1];
      assert x in multiset(rest);
      if x != o {
        assert x in multiset(sorted[1..]);
        var k :| 0 <= k < |sorted[1..]| && sorted[1..][k] == x;
        assert sorted[k + 1] == x;
      }
    }
  }

  function SortNewestFirst(os: seq<Order>): (r: seq<Order>)
    ensures NewestFirst(r)
    ensures multiset(r) == multiset(os)
  {
    if os == [] then []
    else
      assert os == [os[0]] + os[1..];
      InsertByDate(os[0], SortNewestFirst(os[1..]))
  }

  /**
   * A customer's orders, newest first, cut to `limit` when one is given: every
   * returned order has the email and is in the store, and the count is the smaller
   * of the limit and the number of matching orders. `ByEmailKeepsNewest` says which
   * orders are kept.
   */
  function ByEmail(orders: seq<Order>, email: string, limit: Option<nat>): (r: seq<Order>)
    ensures NewestFirst(r)
    ensures forall i | 0 <= i < |r| :: r[i].customerEmail == email && r[i] in orders
    ensures |r| == if limit.Some? && limit.value < |WithEmail(orders, email)| then limit.value
                   else |WithEmail(orders, email)|
  {
    var matching := WithEmail(orders, email);
    var k := if limit.Some? && limit.value < |matching| then limit.value else |matching|;
    NewestPrefix(SortNewestFirst(matching), matching, k);
    CustomerPrefix(orders, email, k);
    SortNewestFirst(matching)[..k]
  }

  /** Without a limit the lookup returns every order of the customer: only the order changes. */
  lemma ByEmailAll(orders: seq<Order>, email: string)
    ensures multiset(ByEmail(orders, email, None)) == multiset(WithEmail(orders, email))
  {
    var matching := WithEmail(orders, email);
    var sorted := SortNewestFirst(matching);
    assert |sorted| == |multiset(sorted)| == |multiset(matching)| == |matching|;
    assert sorted[..|matching|] == sorted;
  }

  /** The orders kept are the customer's, each at most as often as stored, and no order left out is newer than one kept. */
  lemma ByEmailKeepsNewest(orders: seq<Order>, email: string, limit: Option<nat>)
    ensures var r := ByEmail(orders, email, limit);
            && multiset(r) <= multiset(WithEmail(orders, email))
            && forall o, i | o in multiset(WithEmail(orders, email)) - multiset(r) && 0 <= i < |r|
                 :: o.orderDate <= r[i].orderDate
  {
    var matching := WithEmail(orders, email);
    var k := if limit.Some? && limit.value < |matching| then limit.value else |matching|;
    NewestPrefix(SortNewestFirst(matching), matching, k);
  }

  /** Every order among the first `k` of the customer's sorted orders has the email and is stored. */
  lemma CustomerPrefix(orders: seq<Order>, email: string, k: nat)
    requires k <= |WithEmail(orders, email)|
    ensures var r := SortNewestFirst(WithEmail(orders, email))[..k];
      forall i | 0 <= i < |r| :: r[i].customerEmail == email && r[i] in orders
  {
    var sorted := SortNewestFirst(WithEmail(orders, email));
    forall i | 0 <= i < k ensures sorted[..k][i].customerEmail == email && sorted[..k][i] in orders {
      FromCustomer(orders, email, sorted, i);
    }
  }

  lemma FromCustomer(orders: seq<Order>, email: string, s: seq<Order>, i: nat)
    requires multiset(s) == multiset(WithEmail(orders, email)) && i < |s|
    ensures s[i].customerEmail == email && s[i] in orders
  {
    assert s[i] in multiset(s);
    assert s[i] in WithEmail(orders, email);
  }

  /** The first `k` orders of a newest-first arrangement of `matching` are its `k` newest. */
  lemma NewestPrefix(sorted: seq<Order>, matching: seq<Order>, k: nat)
    requires NewestFirst(sorted) && multiset(sorted) == multiset(matching) && k <= |matching|
    ensures |sorted| == |matching| && NewestFirst(sorted[..k])
    ensures multiset(sorted[..k]) <= multiset(matching)
    ensures forall o, i | o in multiset(matching) - multiset(sorted[..k]) && 0 <= i < k
              :: o.orderDate <= sorted[i].orderDate
  {
    assert |sorted| == |multiset(sorted)| == |multiset(matching)| == |matching|;
    assert sorted == sorted[..k] + sorted[k..];
    assert multiset(sorted) == multiset(sorted[..k]) + multiset(sorted[k..]);
    forall o, i | o in multiset(matching) - multiset(sorted[..k]) && 0 <= i < k
      ensures o.orderDate <= sorted[i].orderDate
    {
      assert o in multiset(sorted[k..]);
      var j :| 0 <= j < |sorted[k..]| && sorted[k..][j] == o;
      assert sorted[k + j] == o;
    }
  }
}
