/**
 * The rule-based shopping assistant: an ordered list of intent tests on the trimmed,
 * lower-cased message, a price-bounded search of a fixed three-product catalogue,
 * order lookups against a store snapshot, return advice by order status, and the two
 * reply formats. The database connection flag and the store are parameters, and the
 * locale date text is a function passed in.
 */
module Assistant {
  import opened Common
  import opened Strings
  import opened OrderModel
  import opened Extraction

  // ---------------------------------------------------------------- catalogue

  /** A catalogue product; the rating is kept in tenths (4.3 is 43). */
  datatype Product = Product(id: string, title: string, price: nat, ratingTenths: nat, available: bool)

  const SmartphoneX200 := Product("P1001", "Smartphone X200", 14999, 43, true)
  const HeadphonesPro := Product("P1002", "Wireless Headphones Pro", 2999, 45, true)
  const FitnessBand := Product("P1003", "Fitness Band 2", 1299, 40, false)

  const Catalogue: seq<Product> := [SmartphoneX200, HeadphonesPro, FitnessBand]

  /** `p.title.toLowerCase().includes(word) && p.price <= max`, with no bound standing for `Infinity`. */
  predicate Keeps(p: Product, word: string, max: Option<nat>) {
    Contains(Lower(p.title), word) && (max.None? || p.price <= max.value)
  }

  /** `r` is `s` with some elements removed: the elements of `r` occur in `s` in the same order. */
  predicate Subsequence<T(==)>(r: seq<T>, s: seq<T>) {
    if r == [] then true
    else if s == [] then false
    else if r[0] == s[0] then Subsequence(r[1..], s[1..])
    else Subsequence(r, s[1..])
  }

  /** `filter` over a product list: the kept products, in list order. */
  function Filter(items: seq<Product>, word: string, max: Option<nat>): (r: seq<Product>)
    ensures |r| <= |items|
    ensures forall p :: p in r <==> p in items && Keeps(p, word, max)
  {
    if items == [] then []
    else
      var rest := Filter(items[1..], word, max);
      if Keeps(items[0], word, max) then [items[0]] + rest else rest
  }

  /** The kept products stay in list order: the result is the list with some products removed. */
  lemma {:induction false} FilterInOrder(items: seq<Product>, word: string, max: Option<nat>)
    ensures Subsequence(Filter(items, word, max), items)
  {
    if items != [] {
      var rest := Filter(items[1..], word, max);
      FilterInOrder(items[1..], word, max);
      if Keeps(items[0], word, max) {
        assert ([items[0]] + rest)[1..] == rest;
      } else if rest != [] {
        assert rest[0] in rest;
      }
    }
  }

  /** The lower-cased titles, spelt out. */
  lemma LowerSmartphoneTitle()
    ensures Lower(SmartphoneX200.title) == "smartphone x200"
  {
  }

  lemma LowerHeadphonesTitle()
    ensures Lower(HeadphonesPro.title) == "wireless headphones pro"
  {
  }

  lemma LowerBandTitle()
    ensures Lower(FitnessBand.title) == "fitness band 2"
  {
  }

  /** Which of the lower-cased titles hold "smartphone" and "headphone". */
  lemma TitleWords()
    ensures Contains("smartphone x200", "smartphone") && !Contains("smartphone x200", "headphone")
    ensures Contains("wireless headphones pro", "headphone") && !Contains("wireless headphones pro", "smartphone")
    ensures !Contains("fitness band 2", "smartphone") && !Contains("fitness band 2", "headphone")
  {
    assert MatchAt("smartphone x200", "smartphone", 0);
    AbsentChar("smartphone x200", "headphone", 3);
    assert MatchAt("wireless headphones pro", "headphone", 9);
    AbsentChar("wireless headphones pro", "smartphone", 1);
    AbsentChar("fitness band 2", "smartphone", 1);
    AbsentChar("fitness band 2", "headphone", 0);
  }

  /** Only the Smartphone X200's title names a smartphone. */
  lemma SmartphoneTitles()
    ensures Contains(Lower(SmartphoneX200.title), "smartphone")
    ensures !Contains(Lower(HeadphonesPro.title), "smartphone")
    ensures !Contains(Lower(FitnessBand.title), "smartphone")
  {
    LowerSmartphoneTitle();
    LowerHeadphonesTitle();
    LowerBandTitle();
    TitleWords();
  }

  /** Only the Wireless Headphones Pro's title names a headphone. */
  lemma HeadphoneTitles()
    ensures !Contains(Lower(SmartphoneX200.title), "headphone")
    ensures Contains(Lower(HeadphonesPro.title), "headphone")
    ensures !Contains(Lower(FitnessBand.title), "headphone")
  {
    LowerSmartphoneTitle();
    LowerHeadphonesTitle();
    LowerBandTitle();
    TitleWords();
  }

  /** Filtering the catalogue is deciding each of its three products in turn. */
  lemma FilterCatalogue(word: string, max: Option<nat>)
    ensures Filter(Catalogue, word, max) ==
              (if Keeps(SmartphoneX200, word, max) then [SmartphoneX200] else [])
              + (if Keeps(HeadphonesPro, word, max) then [HeadphonesPro] else [])
              + (if Keeps(FitnessBand, word, max) then [FitnessBand] else [])
  {
    FilterThree(SmartphoneX200, HeadphonesPro, FitnessBand, word, max);
  }

  lemma FilterThree(a: Product, b: Product, c: Product, word: string, max: Option<nat>)
    ensures Filter([a, b, c], word, max) ==
              (if Keeps(a, word, max) then [a] else [])
              + (if Keeps(b, word, max) then [b] else [])
              + (if Keeps(c, word, max) then [c] else [])
  {
    assert [a, b, c][1..] == [b, c];
    assert [b, c][1..] == [c];
    assert [c][1..] == [];
    assert Filter([], word, max) == [];
    assert Filter([c], word, max) == if Keeps(c, word, max) then [c] else [];
  }

  /**
   * Only the Smartphone X200 is a smartphone: the search returns it exactly when there
   * is no bound or the bound is at least its price.
   */
  lemma SmartphoneFilter(max: Option<nat>)
    ensures Filter(Catalogue, "smartphone", max) == if max.None? || max.value >= 14999 then [SmartphoneX200] else []
  {
    SmartphoneTitles();
    FilterCatalogue("smartphone", max);
  }

  /** The headphone search always finds the Wireless Headphones Pro, so its "don't see headphones" reply never fires. */
  lemma HeadphoneFilter()
    ensures Filter(Catalogue, "headphone", None) == [HeadphonesPro]
  {
    HeadphoneTitles();
    FilterCatalogue("headphone", None);
  }

  // ---------------------------------------------------------------- the price bound

  /**
   * The value `under\s*(₹?\s*\d+|\d+)` reads when it matches at `i`: "under", white
   * space, an optional rupee sign and more white space, then a run of digits, which
   * `parseInt` reads once the sign and the spaces are removed.
   */
  function PriceAt(m: string, i: int): (r: Option<nat>)
    ensures r.Some? ==> MatchAt(m, "under", i)
  {
    if !MatchAt(m, "under", i) then None
    else
      var p := SpaceRunEnd(m, i + 5);
      if p < |m| && IsDigit(m[p]) then Some(DigitsValue(m[p..DigitRunEnd(m, p)]))
      else if p < |m| && m[p] == '₹' then
        var q := SpaceRunEnd(m, p + 1);
        if q < |m| && IsDigit(m[q]) then Some(DigitsValue(m[q..DigitRunEnd(m, q)])) else None
      else None
  }

  /** The leftmost match at or after `i`. */
  function PriceFrom(m: string, i: nat): (r: Option<nat>)
    ensures r.Some? ==> exists k | i <= k <= |m| :: PriceAt(m, k) == r && forall k' | i <= k' < k :: PriceAt(m, k').None?
    ensures r.None? ==> forall k | i <= k :: PriceAt(m, k).None?
    decreases |m| - i
  {
    if i > |m| then None
    else if PriceAt(m, i).Some? then PriceAt(m, i)
    else PriceFrom(m, i + 1)
  }

  /** The `max` of the smartphone search: the first "under N" of the message, or no bound. */
  function UnderLimit(m: string): (r: Option<nat>)
    ensures r.Some? ==> exists k | 0 <= k <= |m| :: PriceAt(m, k) == r && forall k' | 0 <= k' < k :: PriceAt(m, k').None?
    ensures r.None? ==> forall k | 0 <= k :: PriceAt(m, k).None?
  {
    PriceFrom(m, 0)
  }

  // ---------------------------------------------------------------- intents

  /** No line terminator in `m[from..to]`: what a regular expression's `.*` may cross. */
  predicate OnOneLine(m: string, from: int, to: int)
    requires 0 <= from <= to <= |m|
  {
    forall k | from <= k < to :: !IsLineTerminator(m[k])
  }

  /** `a.*b` */
  predicate FollowedOnLine(m: string, a: string, b: string) {
    exists i, j | 0 <= i && i + |a| <= j <= |m| - |b| :: MatchAt(m, a, i) && MatchAt(m, b, j) && OnOneLine(m, i + |a|, j)
  }

  /** `(a1|a2|…).*(b1|b2|…)` */
  predicate SomeFollowedOnLine(m: string, firsts: seq<string>, seconds: seq<string>) {
    exists x, y | 0 <= x < |firsts| && 0 <= y < |seconds| :: FollowedOnLine(m, firsts[x], seconds[y])
  }

  /** `#?\d` at `q` */
  predicate HashDigitAt(m: string, q: int) {
    0 <= q < |m| && (IsDigit(m[q]) || (m[q] == '#' && q + 1 < |m| && IsDigit(m[q + 1])))
  }

  /** `order (status|#)?\s*#?\d+` or `order\s+#?\d+` matches at `i`; a digit follows the word. */
  predicate OrderNumberAt(m: string, i: int)
    ensures OrderNumberAt(m, i) ==> exists q | 0 <= i + 6 <= q < |m| :: IsDigit(m[q])
  {
    && MatchAt(m, "order", i)
    && (|| (&& MatchAt(m, " ", i + 5)
            && (|| HashDigitAt(m, SpaceRunEnd(m, i + 6))
                || (MatchAt(m, "status", i + 6) && HashDigitAt(m, SpaceRunEnd(m, i + 12)))
                || (MatchAt(m, "#", i + 6) && HashDigitAt(m, SpaceRunEnd(m, i + 7)))))
        || (i + 5 < |m| && IsSpace(m[i + 5]) && HashDigitAt(m, SpaceRunEnd(m, i + 6))))
  }

  const PhoneVerbs := ["show", "list", "find"]
  const PhoneWords := ["smartphone", "phone", "mobile"]
  const HeadphoneWords := ["headphone", "earbud", "headset"]
  const ReturnWords := ["return", "refund", "replace", "warranty", "cancel"]
  const ReturnedWords := ["return", "refund", "cancel"]
  const EmiWords := ["emi", "emi option", "pay in"]
  const PaymentFailedWords := ["payment failed", "payment error"]
  const GreetingWords := ["hello", "hi", "hey"]

  /** The intents, in the order the assistant tries them. */
  datatype Intent = SmartphoneSearch | HeadphoneSearch | TrackOrder | ReturnOrRefund | Emi | PaymentFailed | Greeting | Fallback

  function Rank(t: Intent): nat {
    match t
    case SmartphoneSearch => 0
    case HeadphoneSearch => 1
    case TrackOrder => 2
    case ReturnOrRefund => 3
    case Emi => 4
    case PaymentFailed => 5
    case Greeting => 6
    case Fallback => 7
  }

  /**
   * The test each intent's regular expressions make on the lower-cased message. The
   * fallback always holds; "emi option" adds nothing to the EMI test; and any
   * "smartphone" makes a smartphone search.
   */
  predicate Holds(t: Intent, m: string)
    ensures t == Fallback ==> Holds(t, m)
    ensures t == Emi ==> (Holds(t, m) <==> Contains(m, "emi") || Contains(m, "pay in"))
    ensures t == SmartphoneSearch && Contains(m, "smartphone") ==> Holds(t, m)
  {
    EmiOptionRedundant(m);
    match t
    case SmartphoneSearch => SomeFollowedOnLine(m, PhoneVerbs, PhoneWords) || Contains(m, "smartphone")
    case HeadphoneSearch => ContainsAny(m, HeadphoneWords)
    case TrackOrder =>
      || Contains(m, "where is my order") || Contains(m, "track order")
      || exists i | 0 <= i <= |m| :: OrderNumberAt(m, i)
    case ReturnOrRefund => SomeFollowedOnLine(m, ReturnWords, ["order"]) || SomeFollowedOnLine(m, ["order"], ReturnedWords)
    case Emi => ContainsAny(m, EmiWords)
    case PaymentFailed => ContainsAny(m, PaymentFailedWords)
    case Greeting => ContainsAny(m, GreetingWords)
    case Fallback => true
  }

  lemma EmiOptionRedundant(m: string)
    ensures ContainsAny(m, EmiWords) <==> Contains(m, "emi") || Contains(m, "pay in")
  {
    if !Contains(m, "emi") {
      AbsentExtension(m, "emi", "emi option");
    }
    assert EmiWords[0] == "emi" && EmiWords[2] == "pay in";
  }

  /** The intent that decides the reply: the first, in the fixed order, whose test holds. */
  function Classify(m: string): (t: Intent)
    ensures Holds(t, m)
    ensures forall u: Intent | Rank(u) < Rank(t) :: !Holds(u, m)
  {
    if Holds(SmartphoneSearch, m) then SmartphoneSearch
    else if Holds(HeadphoneSearch, m) then HeadphoneSearch
    else if Holds(TrackOrder, m) then TrackOrder
    else if Holds(ReturnOrRefund, m) then ReturnOrRefund
    else if Holds(Emi, m) then Emi
    else if Holds(PaymentFailed, m) then PaymentFailed
    else if Holds(Greeting, m) then Greeting
    else Fallback
  }

  /**
   * The greeting test looks for "hi" anywhere, so a message about shipping, which
   * passes every earlier test, is answered with the greeting.
   */
  lemma ShippingIsGreeted()
    ensures Classify("shipping") == Greeting
  {
    var m := "shipping";
    AbsentChar(m, "show", 3);
    AbsentChar(m, "list", 0);
    AbsentChar(m, "find", 0);
    AbsentChar(m, "headphone", 1);
    AbsentChar(m, "earbud", 0);
    AbsentChar(m, "headset", 1);
    AbsentChar(m, "emi", 0);
    AbsentChar(m, "pay in", 1);
    AbsentChar(m, "order", 0);
    AbsentChar(m, "return", 0);
    AbsentChar(m, "refund", 0);
    AbsentChar(m, "replace", 0);
    AbsentChar(m, "warranty", 0);
    AbsentChar(m, "cancel", 0);
    AbsentChar(m, "hello", 1);
    AbsentChar(m, "hey", 1);
    assert MatchAt(m, "hi", 1);
    assert Contains(m, GreetingWords[1]);
    NoFollowingWithout(m, PhoneVerbs, PhoneWords);
    NoFollowingWithout(m, ReturnWords, ["order"]);
    NoFollowingWithout(m, ["order"], ReturnedWords);
    assert forall i | 0 <= i <= |m| :: !OrderNumberAt(m, i) by {
      forall i | 0 <= i <= |m| ensures !MatchAt(m, "order", i) {
        assert !Contains(m, "order");
      }
    }
    assert !Holds(SmartphoneSearch, m);
    assert !Holds(HeadphoneSearch, m);
    assert !Holds(TrackOrder, m);
    assert !Holds(ReturnOrRefund, m);
    assert !Holds(Emi, m);
    assert !Holds(PaymentFailed, m);
    assert Holds(Greeting, m);
  }

  /** An `a.*b` test fails when none of the first words occurs. */
  lemma NoFollowingWithout(m: string, firsts: seq<string>, seconds: seq<string>)
    requires forall x | 0 <= x < |firsts| :: !Contains(m, firsts[x])
    ensures !SomeFollowedOnLine(m, firsts, seconds)
  {
  }

  // ---------------------------------------------------------------- answers

  /** Which reply the assistant gives, before it is put into words. */
  datatype Answer =
    | Matches(products: seq<Product>)
    | NoSmartphones
    | NoHeadphones
    | AskOrderId
    | DatabaseDown(orderId: string)
    | NoSuchOrder(orderId: string)
    | OrderStatus(order: Order)
    | ReturnSteps(orderId: string)
    | ReturnAfterDelivery(orderId: string)
    | AlreadyCancelled(orderId: string)
    | CurrentStatus(orderId: string, status: string)
    | ReturnPolicy
    | EmiInfo
    | PaymentFailedHelp
    | Hello
    | Help

  /**
   * Return advice for an order named in the message: by the stored status when the
   * order id is present, the database is up and the order exists; otherwise the general
   * policy.
   */
  function ReturnAdvice(id: Option<string>, dbConnected: bool, orders: seq<Order>): (a: Answer)
    ensures a.ReturnPolicy? || a.ReturnSteps? || a.ReturnAfterDelivery? || a.AlreadyCancelled? || a.CurrentStatus?
    ensures a != ReturnPolicy ==> id.Some? && dbConnected && FindById(orders, id.value).Some?
    ensures id.Some? && dbConnected && FindById(orders, id.value).Some? ==>
              var status := StatusName(FindById(orders, id.value).value.status);
              a == if status == "delivered" then ReturnSteps(id.value)
                   else if status == "shipped" then ReturnAfterDelivery(id.value)
                   else if status == "cancelled" then AlreadyCancelled(id.value)
                   else CurrentStatus(id.value, status)
  {
    if id.Some? && dbConnected then
      match FindById(orders, id.value)
      case None => ReturnPolicy
      case Some(o) =>
        var status := StatusName(o.status);
        if status == "delivered" then ReturnSteps(id.value)
        else if status == "shipped" then ReturnAfterDelivery(id.value)
        else if status == "cancelled" then AlreadyCancelled(id.value)
        else CurrentStatus(id.value, status)
    else ReturnPolicy
  }

  /**
   * The stored status is "Delivered", never "delivered", so the seven-day return steps
   * are never offered; a delivered order is told it is "currently Delivered".
   */
  lemma ReturnAdviceByStatus(id: string, orders: seq<Order>)
    requires FindById(orders, id).Some?
    ensures var st := FindById(orders, id).value.status;
            var a := ReturnAdvice(Some(id), true, orders);
            && !a.ReturnSteps?
            && (a.ReturnAfterDelivery? <==> st == Shipped)
            && (a.AlreadyCancelled? <==> st == Cancelled)
            && (st == Delivered ==> a == CurrentStatus(id, "Delivered"))
  {
    NoLowerCaseProcessingOrDelivered(FindById(orders, id).value.status);
  }

  /** The catalogue's smartphones within the first "under N" bound, or the apology. */
  function SmartphoneSearchAnswer(m: string): (a: Answer)
    ensures a.Matches? || a == NoSmartphones
  {
    var found := Filter(Catalogue, "smartphone", UnderLimit(m));
    if found == [] then NoSmartphones else Matches(found)
  }

  /** The catalogue's headphones, or the apology. */
  function HeadphoneSearchAnswer(): (a: Answer)
    ensures a.Matches? || a == NoHeadphones
  {
    var found := Filter(Catalogue, "headphone", None);
    if found == [] then NoHeadphones else Matches(found)
  }

  /** The tracking intent's answer: it asks for, or reports on, the order whose id the message names. */
  function TrackAnswer(m: string, dbConnected: bool, orders: seq<Order>): (a: Answer)
    ensures a.AskOrderId? || a.DatabaseDown? || a.NoSuchOrder? || a.OrderStatus?
    ensures a.OrderStatus? ==> dbConnected && ExtractOrderId(m).Some? && a.order.orderId == ExtractOrderId(m).value && a.order in orders
    ensures ExtractOrderId(m).Some? && dbConnected ==>
              var id := ExtractOrderId(m).value;
              a == if FindById(orders, id).Some? then OrderStatus(FindById(orders, id).value) else NoSuchOrder(id)
  {
    match ExtractOrderId(m)
    case None => AskOrderId
    case Some(id) =>
      if !dbConnected then DatabaseDown(id)
      else
        match FindById(orders, id)
        case None => NoSuchOrder(id)
        case Some(o) => OrderStatus(o)
  }

  /**
   * The answer to the lower-cased, trimmed message `m`. Each fixed answer comes from its
   * own intent and only from it, a product list only from a search, and an order's
   * status only with the database up, for the stored order whose id the message names.
   */
  function Respond(m: string, dbConnected: bool, orders: seq<Order>): (a: Answer)
    ensures a == EmiInfo <==> Classify(m) == Emi
    ensures a == PaymentFailedHelp <==> Classify(m) == PaymentFailed
    ensures a == Hello <==> Classify(m) == Greeting
    ensures a == Help <==> Classify(m) == Fallback
    ensures a.Matches? ==> Classify(m) == SmartphoneSearch || Classify(m) == HeadphoneSearch
    ensures a.OrderStatus? ==> dbConnected && ExtractOrderId(m).Some? && a.order.orderId == ExtractOrderId(m).value && a.order in orders
    ensures Classify(m) == ReturnOrRefund ==> a == ReturnAdvice(ExtractOrderId(m), dbConnected, orders)
    ensures a.ReturnPolicy? || a.ReturnSteps? || a.ReturnAfterDelivery? || a.AlreadyCancelled? || a.CurrentStatus?
            ==> Classify(m) == ReturnOrRefund
  {
    match Classify(m)
    case SmartphoneSearch => SmartphoneSearchAnswer(m)
    case HeadphoneSearch => HeadphoneSearchAnswer()
    case TrackOrder => TrackAnswer(m, dbConnected, orders)
    case ReturnOrRefund => ReturnAdvice(ExtractOrderId(m), dbConnected, orders)
    case Emi => EmiInfo
    case PaymentFailed => PaymentFailedHelp
    case Greeting => Hello
    case Fallback => Help
  }

  /**
   * A smartphone search lists the catalogue's smartphones within the first "under N"
   * bound, or says none were found; it never lists anything else.
   */
  lemma SmartphoneAnswer(m: string, dbConnected: bool, orders: seq<Order>)
    requires Classify(m) == SmartphoneSearch
    ensures Respond(m, dbConnected, orders) ==
              if UnderLimit(m).None? || UnderLimit(m).value >= 14999 then Matches([SmartphoneX200]) else NoSmartphones
  {
    SmartphoneFilter(UnderLimit(m));
  }

  lemma HeadphoneAnswer(m: string, dbConnected: bool, orders: seq<Order>)
    requires Classify(m) == HeadphoneSearch
    ensures Respond(m, dbConnected, orders) == Matches([HeadphonesPro])
  {
    HeadphoneFilter();
  }

  /**
   * Tracking: without a run of five digits the assistant asks for the id; with one and
   * the database down it names the id it read without looking anything up; with the
   * database up it shows the stored order with that id, or says there is none.
   */
  lemma TrackingAnswer(m: string, dbConnected: bool, orders: seq<Order>)
    requires Classify(m) == TrackOrder
    ensures ExtractOrderId(m).None? <==> Respond(m, dbConnected, orders) == AskOrderId
    ensures ExtractOrderId(m).Some? && !dbConnected ==> Respond(m, dbConnected, orders) == DatabaseDown(ExtractOrderId(m).value)
    ensures Respond(m, dbConnected, orders).OrderStatus? ==>
              dbConnected && Respond(m, dbConnected, orders).order == FindById(orders, ExtractOrderId(m).value).value
    ensures ExtractOrderId(m).Some? && dbConnected ==>
              var id := ExtractOrderId(m).value;
              Respond(m, dbConnected, orders) ==
                if FindById(orders, id).Some? then OrderStatus(FindById(orders, id).value) else NoSuchOrder(id)
  {
  }

  // ---------------------------------------------------------------- wording

  const ReplyPrefix := "Sure — "
  const SearchHeader := "Here are some matches:\n"
  const SearchFooter := "\n\nWant details or similar alternatives?"

  /** `formatReply`: the text after a fixed friendly prefix, which can be read back off. */
  function FormatReply(text: string): (r: string)
    ensures |r| == |ReplyPrefix| + |text|
    ensures r[..|ReplyPrefix|] == ReplyPrefix && r[|ReplyPrefix|..] == text
  {
    ReplyPrefix + text
  }

  /** A rating as JavaScript prints the number: "4.3", but "4" for 4.0. */
  function RatingText(tenths: nat): string {
    if tenths % 10 == 0 then NatToString(tenths / 10) else NatToString(tenths / 10) + "." + [DigitChar(tenths % 10)]
  }

  function SearchLine(p: Product): string {
    "• " + p.title + " — ₹" + NatToString(p.price) + " — ⭐ " + RatingText(p.ratingTenths) + " — "
    + (if p.available then "In stock" else "Out of stock")
  }

  /** `formatSearch`: a header, one line per product, and a closing question. */
  function FormatSearch(items: seq<Product>): (r: string)
    ensures |r| >= |SearchHeader| && r[..|SearchHeader|] == SearchHeader
    ensures forall k | 0 <= k < |items| :: Contains(r, SearchLine(items[k]))
  {
    var lines := seq(|items|, k requires 0 <= k < |items| => SearchLine(items[k]));
    var body := Join(lines, "\n");
    forall k | 0 <= k < |items| ensures Contains(SearchHeader + body + SearchFooter, SearchLine(items[k])) {
      JoinContains(lines, "\n", k);
      ContainsInMiddle(SearchHeader, body, SearchFooter);
      ContainsTrans(SearchHeader + body + SearchFooter, body, SearchLine(items[k]));
    }
    SearchHeader + body + SearchFooter
  }

  /** The stock word of a search line follows the product's availability. */
  lemma SearchLineStock(p: Product)
    ensures p.available ==> Contains(SearchLine(p), "In stock")
    ensures !p.available ==> Contains(SearchLine(p), "Out of stock")
  {
    var head := "• " + p.title + " — ₹" + NatToString(p.price) + " — ⭐ " + RatingText(p.ratingTenths) + " — ";
    ContainsInMiddle(head, if p.available then "In stock" else "Out of stock", "");
    assert head + (if p.available then "In stock" else "Out of stock") + "" == SearchLine(p);
  }

  function StatusEmoji(status: string): string {
    if status == "pending" then "⏳"
    else if status == "confirmed" then "✅"
    else if status == "processing" then "\U{1F504}"
    else if status == "shipped" then "\U{1F69A}"
    else if status == "delivered" then "\U{1F4E6}"
    else if status == "cancelled" then "❌"
    else if status == "returned" then "↩\U{FE0F}"
    else "\U{1F4CB}"
  }

  function ItemLine(it: Item): string {
    "  • " + it.productName + " (Qty: " + IntToString(it.quantity) + ") - ₹" + IntToString(it.price)
  }

  /** The first line of the order-status text, with the blank line after it. */
  function StatusHead(o: Order): string {
    "Here's the status of your order #" + o.orderId + ":\n\n"
  }

  /** The status, date, amount and payment lines, and the items heading. */
  function StatusSummary(o: Order, date: int -> string): string {
    "Status: " + StatusEmoji(StatusName(o.status)) + " " + Upper(StatusName(o.status)) + "\n"
    + "Order Date: " + date(o.orderDate) + "\n"
    + "Total Amount: ₹" + IntToString(o.totalAmount) + "\n"
    + "Payment Status: " + PaymentStatusName(o.paymentStatus) + "\n\n"
    + "Items:\n"
  }

  function ItemLines(o: Order): (lines: seq<string>)
    ensures |lines| == |o.items| && forall k | 0 <= k < |o.items| :: lines[k] == ItemLine(o.items[k])
  {
    seq(|o.items|, k requires 0 <= k < |o.items| => ItemLine(o.items[k]))
  }

  /** The optional tracking, delivery and address lines. */
  function StatusTail(o: Order, date: int -> string): string {
    "\n\n"
    + (if Truthy(o.trackingNumber) then "Tracking Number: " + o.trackingNumber.value + "\n" else "")
    + (if o.estimatedDelivery.Some? then "Estimated Delivery: " + date(o.estimatedDelivery.value) + "\n" else "")
    + (match o.shippingAddress
       case None => ""
       case Some(a) => "\nShipping Address: " + a.street + ", " + a.city + ", " + a.state + " " + a.zipCode)
  }

  /**
   * The order-status text; `date` stands for `toLocaleDateString`. It opens with the
   * order's id and lists every item.
   */
  function OrderStatusText(o: Order, date: int -> string): (text: string)
    ensures |StatusHead(o)| <= |text| && text[..|StatusHead(o)|] == StatusHead(o)
    ensures forall k | 0 <= k < |o.items| :: Contains(text, ItemLine(o.items[k]))
  {
    FramedLines(StatusHead(o), StatusSummary(o, date), ItemLines(o), StatusTail(o, date));
    StatusHead(o) + StatusSummary(o, date) + Join(ItemLines(o), "\n") + StatusTail(o, date)
  }

  /** A text made of a head, more text, the joined lines and a tail opens with the head and holds every line. */
  lemma FramedLines(head: string, summary: string, lines: seq<string>, post: string)
    ensures var text := head + summary + Join(lines, "\n") + post;
            && |head| <= |text| && text[..|head|] == head
            && forall k | 0 <= k < |lines| :: Contains(text, lines[k])
  {
    var items := Join(lines, "\n");
    var text := head + summary + items + post;
    ContainsInMiddle(head + summary, items, post);
    forall k | 0 <= k < |lines| ensures Contains(text, lines[k]) {
      JoinContains(lines, "\n", k);
      ContainsTrans(text, items, lines[k]);
    }
    assert text[..|head|] == head;
  }

  /** The words of every answer but a product list. */
  function AnswerText(a: Answer, date: int -> string): string
    requires !a.Matches?
  {
    match a
    case NoSmartphones => "I couldn't find smartphones within that price. Would you like alternatives under ₹20,000?"
    case NoHeadphones => "I don't see headphones right now — want alternatives or a price range?"
    case AskOrderId => "I can help you track your order! Please provide your order ID (e.g., 'order #12345' or 'track order 12345')."
    case DatabaseDown(id) =>
      "I found order ID " + id + ", but I'm unable to access the database right now. Please make sure MongoDB is connected. "
      + "For now, you can check your order status in the 'My Orders' section of your account."
    case NoSuchOrder(id) =>
      "I couldn't find an order with ID " + id + ". Please double-check your order number, or contact customer support if you believe this is an error."
    case OrderStatus(o) => OrderStatusText(o, date)
    case ReturnSteps(id) =>
      "For order #" + id + ", you can initiate a return within 7 days of delivery. Steps: 1) Go to 'My Orders' → 2) Select 'Return' → "
      + "3) Choose reason → 4) Schedule pickup. Refunds process within 3-7 business days after we receive the item."
    case ReturnAfterDelivery(id) =>
      "Order #" + id + " is already shipped. You can request a return once it's delivered, or contact support to cancel if it hasn't been dispatched yet."
    case AlreadyCancelled(id) =>
      "Order #" + id + " has already been cancelled. If payment was made, refund should process within 3-5 business days."
    case CurrentStatus(id, status) =>
      "Order #" + id + " is currently " + status + ". You can cancel it from 'My Orders' if it hasn't shipped yet."
    case ReturnPolicy =>
      "For returns and refunds: check the returns policy on the product page, or ask me 'How to return order #<id>'. "
      + "Typical steps: request a return in Orders → choose reason → schedule pickup. Refunds usually process within 3-7 business days after pickup."
    case EmiInfo =>
      "EMI options depend on the seller and card. Usually you can select EMI at checkout and choose tenor (3/6/9/12 months). "
      + "Would you like an EMI estimate on a specific product?"
    case PaymentFailedHelp =>
      "If payment failed: don't retry immediately. Check transaction status with your bank, or wait 10–15 minutes then check 'My Orders' — "
      + "the payment may be pending. If money was deducted, open a dispute or contact support with the transaction reference."
    case Hello =>
      "Hi there! I'm your shopping assistant. Ask me to find products, check orders, or explain returns and payments. "
      + "Example: 'Show me latest smartphones under 20000' or 'How do I return order #12345'?"
    case Help =>
      "I can help with product search, orders, payments, returns, and recommendations. What would you like help with? "
      + "For example, try: 'Show me the latest smartphones under ₹20,000'."
  }

  /** The reply text: a product list in the search format, everything else in the friendly format. */
  function Render(a: Answer, date: int -> string): (r: string)
    ensures a.Matches? ==> |r| >= |SearchHeader| && r[..|SearchHeader|] == SearchHeader
    ensures !a.Matches? ==> r == FormatReply(AnswerText(a, date))
  {
    match a
    case Matches(products) => FormatSearch(products)
    case _ => FormatReply(AnswerText(a, date))
  }

  /** The two formats start differently, so the kind of reply can be told from its first character. */
  lemma RenderKinds(a: Answer, date: int -> string)
    ensures a.Matches? <==> Render(a, date)[0] == 'H'
    ensures !a.Matches? <==> Render(a, date)[0] == 'S'
  {
    var r := Render(a, date);
    if a.Matches? {
      assert r[0] == r[..|SearchHeader|][0];
    } else {
      assert r[0] == r[..|ReplyPrefix|][0];
    }
  }

  /** `assistantReply`: the message is trimmed and lower-cased before any test. */
  function AssistantReply(message: string, dbConnected: bool, orders: seq<Order>, date: int -> string): (r: string)
    ensures var a := Respond(Lower(Trim(message)), dbConnected, orders);
            && (a.Matches? ==> |r| >= |SearchHeader| && r[..|SearchHeader|] == SearchHeader)
            && (!a.Matches? ==> |r| >= |ReplyPrefix| && r[..|ReplyPrefix|] == ReplyPrefix)
  {
    Render(Respond(Lower(Trim(message)), dbConnected, orders), date)
  }
}
