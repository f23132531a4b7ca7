/**
 * The FAQ knowledge base: a fixed, ordered table of keyword lists with their
 * answers. A message gets the answer of the first entry, in table order, one of
 * whose keywords occurs in the lower-cased message.
 */
module Faq {
  import opened Common
  import opened Strings

  /** The ten fixed answers of the knowledge base; `Text` gives each its wording. */
  datatype Answer =
    | ShippingInfo | ReturnPolicy | RefundPolicy | PaymentMethods | EmiOptions
    | Cancellation | WarrantyInfo | TrackingInfo | ExchangePolicy | ContactSupport

  function Text(a: Answer): string {
    match a
    case ShippingInfo => "Standard shipping takes 3-5 business days. Express shipping (1-2 days) is available at checkout. Orders are processed within 24 hours of payment confirmation."
    case ReturnPolicy => "You can return items within 7 days of delivery. Items must be unused and in original packaging. To initiate a return, go to 'My Orders' and select 'Return' for the item."
    case RefundPolicy => "Refunds are processed within 5-7 business days after we receive the returned item. The amount will be credited to your original payment method."
    case PaymentMethods => "We accept Credit/Debit cards, UPI, Net Banking, and Cash on Delivery (COD). You can select your preferred payment method at checkout."
    case EmiOptions => "EMI options are available for orders above â‚¹5,000. You can choose 3, 6, 9, or 12-month tenures. EMI is available for credit cards from major banks."
    case Cancellation => "You can cancel your order within 24 hours of placing it if it hasn't been shipped. Go to 'My Orders' and click 'Cancel Order'. Refunds for cancelled orders are processed within 3-5 business days."
    case WarrantyInfo => "All products come with manufacturer warranty. Warranty periods vary by product (typically 6-12 months). Check the product page for specific warranty details."
    case TrackingInfo => "Once your order is shipped, you'll receive a tracking number via email and SMS. You can track your order in 'My Orders' section or use the tracking number on our website."
    case ExchangePolicy => "You can request an exchange within 7 days of delivery if you received a wrong or defective item. Go to 'My Orders', select the order, and click 'Request Exchange'."
    case ContactSupport => "You can reach our customer support at support@example.com or call 1800-XXX-XXXX (9 AM - 9 PM, Monday to Saturday). You can also chat with us here for immediate assistance."
  }

  datatype FaqEntry = FaqEntry(keywords: seq<string>, answer: Answer)

  const ShippingKeywords: seq<string> := ["shipping", "delivery", "how long", "when will", "ship", "deliver"]
  const ReturnKeywords: seq<string> := ["return", "returns", "return policy", "can i return"]
  const RefundKeywords: seq<string> := ["refund", "refunds", "refund policy", "money back"]
  const PaymentKeywords: seq<string> := ["payment", "pay", "payment method", "how to pay", "payment options"]
  const EmiKeywords: seq<string> := ["emi", "installment", "pay in installments"]
  const CancelKeywords: seq<string> := ["cancel", "cancel order", "cancel my order"]
  const WarrantyKeywords: seq<string> := ["warranty", "guarantee", "warranty period"]
  const TrackKeywords: seq<string> := ["track", "tracking", "where is my package"]
  const ExchangeKeywords: seq<string> := ["exchange", "replace", "wrong item"]
  const ContactKeywords: seq<string> := ["contact", "support", "help", "customer service"]

  const FaqTable: seq<FaqEntry> := [
    FaqEntry(ShippingKeywords, ShippingInfo),
    FaqEntry(ReturnKeywords, ReturnPolicy),
    FaqEntry(RefundKeywords, RefundPolicy),
    FaqEntry(PaymentKeywords, PaymentMethods),
    FaqEntry(EmiKeywords, EmiOptions),
    FaqEntry(CancelKeywords, Cancellation),
    FaqEntry(WarrantyKeywords, WarrantyInfo),
    FaqEntry(TrackKeywords, TrackingInfo),
    FaqEntry(ExchangeKeywords, ExchangePolicy),
    FaqEntry(ContactKeywords, ContactSupport)
  ]

  /** How many of the keywords occur in `m` (the source counts them, then only asks whether the count is positive). */
  function MatchCount(m: string, keywords: seq<string>): nat {
    if keywords == [] then 0
    else (if Contains(m, keywords[0]) then 1 else 0) + MatchCount(m, keywords[1..])
  }

  /** The count is positive exactly when some keyword occurs: how many occur never matters. */
  lemma {:induction false} MatchCountPositive(m: string, keywords: seq<string>)
    ensures MatchCount(m, keywords) > 0 <==> ContainsAny(m, keywords)
  {
    if keywords != [] {
      MatchCountPositive(m, keywords[1..]);
      if ContainsAny(m, keywords[1..]) {
        var k :| 0 <= k < |keywords[1..]| && Contains(m, keywords[1..][k]);
        assert Contains(m, keywords[k + 1]);
      }
      if ContainsAny(m, keywords) {
        var k :| 0 <= k < |keywords| && Contains(m, keywords[k]);
        if k > 0 {
          assert Contains(m, keywords[1..][k - 1]);
        }
      }
    }
  }

  /** Entry `i` has some keyword occurring in the (already lower-cased) message `m`. */
  predicate EntryMatches(m: string, i: int)
    requires 0 <= i < |FaqTable|
  {
    ContainsAny(m, FaqTable[i].keywords)
  }

  /** The first entry at or after `i` whose keyword count in `m` is positive. */
  function FirstMatchFrom(m: string, i: nat): (r: Option<nat>)
    requires i <= |FaqTable|
    ensures r.Some? ==> i <= r.value < |FaqTable| && EntryMatches(m, r.value)
    ensures r.Some? ==> forall j | i <= j < r.value :: !EntryMatches(m, j)
    ensures r.None? ==> forall j | i <= j < |FaqTable| :: !EntryMatches(m, j)
    decreases |FaqTable| - i
  {
    if i == |FaqTable| then None
    else
      MatchCountPositive(m, FaqTable[i].keywords);
      if MatchCount(m, FaqTable[i].keywords) > 0 then Some(i) else FirstMatchFrom(m, i + 1)
  }

  /**
   * `getFAQAnswer`: the answer of the first entry, in table order, with a keyword
   * in the lower-cased message, and none exactly when no keyword of any entry occurs.
   */
  function GetFaqAnswer(message: string): (r: Option<Answer>)
    ensures r.None? <==> forall j | 0 <= j < |FaqTable| :: !EntryMatches(Lower(message), j)
    ensures r.Some? ==> exists i | 0 <= i < |FaqTable| ::
                          && r.value == FaqTable[i].answer
                          && EntryMatches(Lower(message), i)
                          && forall j | 0 <= j < i :: !EntryMatches(Lower(message), j)
  {
    match FirstMatchFrom(Lower(message), 0)
    case None => None
    case Some(i) => Some(FaqTable[i].answer)
  }

  /** No two entries share an answer, so an answer names its entry. */
  lemma AnswersDistinct(i: int, j: int)
    requires 0 <= i < j < |FaqTable|
    ensures FaqTable[i].answer != FaqTable[j].answer
  {
  }

  /**
   * First match wins: when entry `i` matches, the answer is that of entry `i` or of
   * an earlier entry, never of a later one, whatever the later entries' counts are.
   */
  lemma EarlierEntryWins(message: string, i: int, j: int)
    requires 0 <= i < j < |FaqTable| && EntryMatches(Lower(message), i)
    ensures GetFaqAnswer(message).Some?
    ensures GetFaqAnswer(message) != Some(FaqTable[j].answer)
  {
    var r := FirstMatchFrom(Lower(message), 0);
    assert r.Some? && r.value <= i;
    AnswersDistinct(r.value, j);
  }

  const InstallmentsQuery := "how do i pay in installments"

  lemma InstallmentsSkipsShipping()
    ensures !EntryMatches(InstallmentsQuery, 0)
  {
    var m := InstallmentsQuery;
    AbsentChar(m, "shipping", 7);
    AbsentChar(m, "delivery", 4);
    AbsentChar(m, "how long", 7);
    AbsentPair(m, "when will", 0);
    AbsentPair(m, "ship", 0);
    AbsentChar(m, "deliver", 4);
  }

  lemma InstallmentsSkipsReturns()
    ensures !EntryMatches(InstallmentsQuery, 1) && !EntryMatches(InstallmentsQuery, 2)
  {
    var m := InstallmentsQuery;
    AbsentChar(m, "return", 0);
    AbsentChar(m, "returns", 0);
    AbsentChar(m, "return policy", 0);
    AbsentChar(m, "can i return", 0);
    AbsentChar(m, "refund", 0);
    AbsentChar(m, "refunds", 0);
    AbsentChar(m, "refund policy", 0);
    AbsentChar(m, "money back", 6);
  }

  lemma InstallmentsPaymentCount()
    ensures MatchCount(InstallmentsQuery, FaqTable[3].keywords) == 1
  {
    var m := InstallmentsQuery;
    AbsentPair(m, "payment", 2);
    assert MatchAt(m, "pay", 9);
    AbsentExtension(m, "payment", "payment method");
    AbsentPair(m, "how to pay", 4);
    AbsentExtension(m, "payment", "payment options");
  }

  lemma InstallmentsEmiCount()
    ensures MatchCount(InstallmentsQuery, FaqTable[4].keywords) == 2
  {
    var m := InstallmentsQuery;
    AbsentPair(m, "emi", 0);
    assert MatchAt(m, "installment", 16);
    assert MatchAt(m, "pay in installments", 9);
  }

  /** The scan over "how do i pay in installments" passes the first three entries and stops at payments. */
  lemma InstallmentsScan(m: string)
    requires m == InstallmentsQuery
    ensures FirstMatchFrom(m, 0) == Some(3)
  {
    InstallmentsSkipsShipping();
    InstallmentsSkipsReturns();
    SkipEntry(m, 0);
    SkipEntry(m, 1);
    SkipEntry(m, 2);
    InstallmentsPaymentCount();
    MatchCountPositive(m, FaqTable[3].keywords);
  }

  /**
   * Counting never decides between entries: "how do I pay in installments" has one
   * payment keyword and two EMI keywords, and still gets the payment answer.
   */
  lemma PaymentBeforeEmi()
    ensures MatchCount(InstallmentsQuery, FaqTable[3].keywords) < MatchCount(InstallmentsQuery, FaqTable[4].keywords)
    ensures GetFaqAnswer("how do I pay in installments") == Some(PaymentMethods)
  {
    InstallmentsPaymentCount();
    InstallmentsEmiCount();
    InstallmentsLower();
    InstallmentsScan(InstallmentsQuery);
    AnswerOfFirstMatch("how do I pay in installments", 3);
  }

  lemma InstallmentsLower()
    ensures Lower("how do I pay in installments") == InstallmentsQuery
  {
  }

  datatype FaqTopic = FaqTopic(topic: string, answer: Answer)

  /**
   * `getAllFAQs`: the help menu, one topic per entry named by its first keyword.
   * Sending a topic back as a message yields that topic's own answer.
   */
  function GetAllFaqs(): (r: seq<FaqTopic>)
    ensures |r| == |FaqTable|
    ensures forall i | 0 <= i < |r| :: r[i].topic == FaqTable[i].keywords[0] && r[i].answer == FaqTable[i].answer
  {
    seq(|FaqTable|, i requires 0 <= i < |FaqTable| => FaqTopic(FaqTable[i].keywords[0], FaqTable[i].answer))
  }

  // ---------------------------------------------------------------- help-menu round trip

  /** Why a keyword does not occur in a message: one of its characters, or one of its adjacent pairs, is missing, or it is too long. */
  datatype Absence = MissingChar(k: nat) | MissingPair(k: nat) | TooLong

  predicate Shows(m: string, w: string, why: Absence) {
    match why
    case MissingChar(k) => k < |w| && w[k] !in m
    case MissingPair(k) => k + 1 < |w| && forall i | 0 <= i < |m| - 1 :: !(m[i] == w[k] && m[i + 1] == w[k + 1])
    case TooLong => |w| > |m|
  }

  lemma AbsentBecause(m: string, w: string, why: Absence)
    requires Shows(m, w, why)
    ensures !Contains(m, w)
  {
    match why
    case MissingChar(k) => AbsentChar(m, w, k);
    case MissingPair(k) => AbsentPair(m, w, k);
    case TooLong =>
  }

  lemma SkipsKeywords(m: string, keywords: seq<string>, whys: seq<Absence>)
    requires |whys| == |keywords|
    requires forall k | 0 <= k < |whys| :: Shows(m, keywords[k], whys[k])
    ensures !ContainsAny(m, keywords)
  {
    forall k | 0 <= k < |whys| ensures !Contains(m, keywords[k]) {
      AbsentBecause(m, keywords[k], whys[k]);
    }
  }

  lemma AnswerOfFirstMatch(message: string, i: int)
    requires 0 <= i < |FaqTable| && FirstMatchFrom(Lower(message), 0) == Some(i)
    ensures GetFaqAnswer(message) == Some(FaqTable[i].answer)
  {
  }

  /** The scan passes over an entry none of whose keywords occurs. */
  lemma SkipEntry(m: string, j: int)
    requires 0 <= j < |FaqTable| && !ContainsAny(m, FaqTable[j].keywords)
    ensures FirstMatchFrom(m, j) == FirstMatchFrom(m, j + 1)
  {
    MatchCountPositive(m, FaqTable[j].keywords);
  }

  /** The scan stops at an entry whose first keyword occurs. */
  lemma FirstMatchAt(m: string, i: int)
    requires 0 <= i < |FaqTable| && Contains(m, FaqTable[i].keywords[0])
    ensures FirstMatchFrom(m, i) == Some(i)
  {
    MatchCountPositive(m, FaqTable[i].keywords);
  }

  /** None of the first five entries has a keyword in `m`, so the scan reaches entry 5. */
  lemma SkipFirstFive(m: string)
    requires !ContainsAny(m, ShippingKeywords) && !ContainsAny(m, ReturnKeywords) && !ContainsAny(m, RefundKeywords)
    requires !ContainsAny(m, PaymentKeywords) && !ContainsAny(m, EmiKeywords)
    ensures FirstMatchFrom(m, 0) == FirstMatchFrom(m, 5)
  {
    SkipEntry(m, 0);
    SkipEntry(m, 1);
    SkipEntry(m, 2);
    SkipEntry(m, 3);
    SkipEntry(m, 4);
  }

  lemma ShippingTopicScan(m: string)
    requires m == "shipping"
    ensures FirstMatchFrom(m, 0) == Some(0)
  {
    assert MatchAt(m, FaqTable[0].keywords[0], 0);
    FirstMatchAt(m, 0);
  }

  lemma ReturnTopicMisses()
    ensures !ContainsAny("return", ShippingKeywords)
  {
    var m := "return";
    SkipsKeywords(m, ShippingKeywords, [TooLong, TooLong, TooLong, TooLong, MissingChar(0), TooLong]);
  }

  lemma ReturnTopicScan(m: string)
    requires m == "return"
    ensures FirstMatchFrom(m, 0) == Some(1)
  {
    ReturnTopicMisses();
    assert MatchAt(m, FaqTable[1].keywords[0], 0);
    SkipEntry(m, 0);
    FirstMatchAt(m, 1);
  }

  lemma RefundTopicMisses()
    ensures !ContainsAny("refund", ShippingKeywords)
    ensures !ContainsAny("refund", ReturnKeywords)
  {
    var m := "refund";
    SkipsKeywords(m, ShippingKeywords, [TooLong, TooLong, TooLong, TooLong, MissingChar(0), TooLong]);
    SkipsKeywords(m, ReturnKeywords, [MissingChar(2), TooLong, TooLong, TooLong]);
  }

  lemma RefundTopicScan(m: string)
    requires m == "refund"
    ensures FirstMatchFrom(m, 0) == Some(2)
  {
    RefundTopicMisses();
    assert MatchAt(m, FaqTable[2].keywords[0], 0);
    SkipEntry(m, 0);
    SkipEntry(m, 1);
    FirstMatchAt(m, 2);
  }

  lemma PaymentTopicMisses()
    ensures !ContainsAny("payment", ShippingKeywords)
    ensures !ContainsAny("payment", ReturnKeywords)
    ensures !ContainsAny("payment", RefundKeywords)
  {
    var m := "payment";
    SkipsKeywords(m, ShippingKeywords, [TooLong, TooLong, TooLong, TooLong, MissingChar(0), MissingChar(0)]);
    SkipsKeywords(m, ReturnKeywords, [MissingChar(0), MissingChar(0), TooLong, TooLong]);
    SkipsKeywords(m, RefundKeywords, [MissingChar(0), MissingChar(0), TooLong, TooLong]);
  }

  lemma PaymentTopicScan(m: string)
    requires m == "payment"
    ensures FirstMatchFrom(m, 0) == Some(3)
  {
    PaymentTopicMisses();
    assert MatchAt(m, FaqTable[3].keywords[0], 0);
    SkipEntry(m, 0);
    SkipEntry(m, 1);
    SkipEntry(m, 2);
    FirstMatchAt(m, 3);
  }

  lemma EmiTopicMisses()
    ensures !ContainsAny("emi", ShippingKeywords)
    ensures !ContainsAny("emi", ReturnKeywords)
    ensures !ContainsAny("emi", RefundKeywords)
    ensures !ContainsAny("emi", PaymentKeywords)
  {
    var m := "emi";
    SkipsKeywords(m, ShippingKeywords, [TooLong, TooLong, TooLong, TooLong, TooLong, TooLong]);
    SkipsKeywords(m, ReturnKeywords, [TooLong, TooLong, TooLong, TooLong]);
    SkipsKeywords(m, RefundKeywords, [TooLong, TooLong, TooLong, TooLong]);
    SkipsKeywords(m, PaymentKeywords, [TooLong, MissingChar(0), TooLong, TooLong, TooLong]);
  }

  lemma EmiTopicScan(m: string)
    requires m == "emi"
    ensures FirstMatchFrom(m, 0) == Some(4)
  {
    EmiTopicMisses();
    assert MatchAt(m, FaqTable[4].keywords[0], 0);
    SkipEntry(m, 0);
    SkipEntry(m, 1);
    SkipEntry(m, 2);
    SkipEntry(m, 3);
    FirstMatchAt(m, 4);
  }

  lemma CancelTopicMisses()
    ensures !ContainsAny("cancel", ShippingKeywords)
    ensures !ContainsAny("cancel", ReturnKeywords)
    ensures !ContainsAny("cancel", RefundKeywords)
    ensures !ContainsAny("cancel", PaymentKeywords)
    ensures !ContainsAny("cancel", EmiKeywords)
  {
    var m := "cancel";
    SkipsKeywords(m, ShippingKeywords, [TooLong, TooLong, TooLong, TooLong, MissingChar(0), TooLong]);
    SkipsKeywords(m, ReturnKeywords, [MissingChar(0), TooLong, TooLong, TooLong]);
    SkipsKeywords(m, RefundKeywords, [MissingChar(0), TooLong, TooLong, TooLong]);
    SkipsKeywords(m, PaymentKeywords, [TooLong, MissingChar(0), TooLong, TooLong, TooLong]);
    SkipsKeywords(m, EmiKeywords, [MissingChar(1), TooLong, TooLong]);
  }

  lemma CancelTopicScan(m: string)
    requires m == "cancel"
    ensures FirstMatchFrom(m, 0) == Some(5)
  {
    CancelTopicMisses();
    assert MatchAt(m, FaqTable[5].keywords[0], 0);
    SkipEntry(m, 0);
    SkipEntry(m, 1);
    SkipEntry(m, 2);
    SkipEntry(m, 3);
    SkipEntry(m, 4);
    FirstMatchAt(m, 5);
  }

  lemma WarrantyTopicMissesLow()
    ensures !ContainsAny("warranty", ShippingKeywords)
    ensures !ContainsAny("warranty", ReturnKeywords)
    ensures !ContainsAny("warranty", RefundKeywords)
    ensures !ContainsAny("warranty", PaymentKeywords)
    ensures !ContainsAny("warranty", EmiKeywords)
  {
    var m := "warranty";
    SkipsKeywords(m, ShippingKeywords, [MissingChar(0), MissingChar(0), MissingChar(0), TooLong, MissingChar(0), MissingChar(0)]);
    SkipsKeywords(m, ReturnKeywords, [MissingChar(1), MissingChar(1), TooLong, TooLong]);
    SkipsKeywords(m, RefundKeywords, [MissingChar(1), MissingChar(1), TooLong, TooLong]);
    SkipsKeywords(m, PaymentKeywords, [MissingChar(0), MissingChar(0), TooLong, TooLong, TooLong]);
    SkipsKeywords(m, EmiKeywords, [MissingChar(0), TooLong, TooLong]);
  }

  lemma WarrantyTopicMissesHigh()
    ensures !ContainsAny("warranty", CancelKeywords)
  {
    var m := "warranty";
    SkipsKeywords(m, CancelKeywords, [MissingChar(0), TooLong, TooLong]);
  }

  lemma WarrantyTopicScanRest(m: string)
    requires m == "warranty"
    ensures FirstMatchFrom(m, 5) == Some(6)
  {
    WarrantyTopicMissesHigh();
    assert MatchAt(m, FaqTable[6].keywords[0], 0);
    SkipEntry(m, 5);
    FirstMatchAt(m, 6);
  }

  lemma WarrantyTopicScan(m: string)
    requires m == "warranty"
    ensures FirstMatchFrom(m, 0) == Some(6)
  {
    WarrantyTopicMissesLow();
    SkipFirstFive(m);
    WarrantyTopicScanRest(m);
  }

  lemma TrackTopicMissesLow()
    ensures !ContainsAny("track", ShippingKeywords)
    ensures !ContainsAny("track", ReturnKeywords)
    ensures !ContainsAny("track", RefundKeywords)
    ensures !ContainsAny("track", PaymentKeywords)
    ensures !ContainsAny("track", EmiKeywords)
  {
    var m := "track";
    SkipsKeywords(m, ShippingKeywords, [TooLong, TooLong, TooLong, TooLong, MissingChar(0), TooLong]);
    SkipsKeywords(m, ReturnKeywords, [TooLong, TooLong, TooLong, TooLong]);
    SkipsKeywords(m, RefundKeywords, [TooLong, TooLong, TooLong, TooLong]);
    SkipsKeywords(m, PaymentKeywords, [TooLong, MissingChar(0), TooLong, TooLong, TooLong]);
    SkipsKeywords(m, EmiKeywords, [MissingChar(0), TooLong, TooLong]);
  }

  lemma TrackTopicMissesHigh()
    ensures !ContainsAny("track", CancelKeywords)
    ensures !ContainsAny("track", WarrantyKeywords)
  {
    var m := "track";
    SkipsKeywords(m, CancelKeywords, [TooLong, TooLong, TooLong]);
    SkipsKeywords(m, WarrantyKeywords, [TooLong, TooLong, TooLong]);
  }

  lemma TrackTopicScanRest(m: string)
    requires m == "track"
    ensures FirstMatchFrom(m, 5) == Some(7)
  {
    TrackTopicMissesHigh();
    assert MatchAt(m, FaqTable[7].keywords[0], 0);
    SkipEntry(m, 5);
    SkipEntry(m, 6);
    FirstMatchAt(m, 7);
  }

  lemma TrackTopicScan(m: string)
    requires m == "track"
    ensures FirstMatchFrom(m, 0) == Some(7)
  {
    TrackTopicMissesLow();
    SkipFirstFive(m);
    TrackTopicScanRest(m);
  }

  lemma ExchangeTopicMissesLow()
    ensures !ContainsAny("exchange", ShippingKeywords)
    ensures !ContainsAny("exchange", ReturnKeywords)
    ensures !ContainsAny("exchange", RefundKeywords)
    ensures !ContainsAny("exchange", PaymentKeywords)
    ensures !ContainsAny("exchange", EmiKeywords)
  {
    var m := "exchange";
    SkipsKeywords(m, ShippingKeywords, [MissingChar(0), MissingChar(0), MissingChar(1), TooLong, MissingChar(0), MissingChar(0)]);
    SkipsKeywords(m, ReturnKeywords, [MissingChar(0), MissingChar(0), TooLong, TooLong]);
    SkipsKeywords(m, RefundKeywords, [MissingChar(0), MissingChar(0), TooLong, TooLong]);
    SkipsKeywords(m, PaymentKeywords, [MissingChar(0), MissingChar(0), TooLong, TooLong, TooLong]);
    SkipsKeywords(m, EmiKeywords, [MissingChar(1), TooLong, TooLong]);
  }

  lemma ExchangeTopicMissesHigh()
    ensures !ContainsAny("exchange", CancelKeywords)
    ensures !ContainsAny("exchange", WarrantyKeywords)
    ensures !ContainsAny("exchange", TrackKeywords)
  {
    var m := "exchange";
    SkipsKeywords(m, CancelKeywords, [MissingChar(5), TooLong, TooLong]);
    SkipsKeywords(m, WarrantyKeywords, [MissingChar(0), TooLong, TooLong]);
    SkipsKeywords(m, TrackKeywords, [MissingChar(0), MissingChar(0), TooLong]);
  }

  lemma ExchangeTopicScanRest(m: string)
    requires m == "exchange"
    ensures FirstMatchFrom(m, 5) == Some(8)
  {
    ExchangeTopicMissesHigh();
    assert MatchAt(m, FaqTable[8].keywords[0], 0);
    SkipEntry(m, 5);
    SkipEntry(m, 6);
    SkipEntry(m, 7);
    FirstMatchAt(m, 8);
  }

  lemma ExchangeTopicScan(m: string)
    requires m == "exchange"
    ensures FirstMatchFrom(m, 0) == Some(8)
  {
    ExchangeTopicMissesLow();
    SkipFirstFive(m);
    ExchangeTopicScanRest(m);
  }

  lemma ContactTopicMissesLow()
    ensures !ContainsAny("contact", ShippingKeywords)
    ensures !ContainsAny("contact", ReturnKeywords)
    ensures !ContainsAny("contact", RefundKeywords)
    ensures !ContainsAny("contact", PaymentKeywords)
    ensures !ContainsAny("contact", EmiKeywords)
  {
    var m := "contact";
    SkipsKeywords(m, ShippingKeywords, [TooLong, TooLong, TooLong, TooLong, MissingChar(0), MissingChar(0)]);
    SkipsKeywords(m, ReturnKeywords, [MissingChar(0), MissingChar(0), TooLong, TooLong]);
    SkipsKeywords(m, RefundKeywords, [MissingChar(0), MissingChar(0), TooLong, TooLong]);
    SkipsKeywords(m, PaymentKeywords, [MissingChar(0), MissingChar(0), TooLong, TooLong, TooLong]);
    SkipsKeywords(m, EmiKeywords, [MissingChar(0), TooLong, TooLong]);
  }

  lemma ContactTopicMissesHigh()
    ensures !ContainsAny("contact", CancelKeywords)
    ensures !ContainsAny("contact", WarrantyKeywords)
    ensures !ContainsAny("contact", TrackKeywords)
    ensures !ContainsAny("contact", ExchangeKeywords)
  {
    var m := "contact";
    SkipsKeywords(m, CancelKeywords, [MissingChar(4), TooLong, TooLong]);
    SkipsKeywords(m, WarrantyKeywords, [TooLong, TooLong, TooLong]);
    SkipsKeywords(m, TrackKeywords, [MissingChar(1), TooLong, TooLong]);
    SkipsKeywords(m, ExchangeKeywords, [TooLong, MissingChar(0), TooLong]);
  }

  lemma ContactTopicScanRest(m: string)
    requires m == "contact"
    ensures FirstMatchFrom(m, 5) == Some(9)
  {
    ContactTopicMissesHigh();
    assert MatchAt(m, FaqTable[9].keywords[0], 0);
    SkipEntry(m, 5);
    SkipEntry(m, 6);
    SkipEntry(m, 7);
    SkipEntry(m, 8);
    FirstMatchAt(m, 9);
  }

  lemma ContactTopicScan(m: string)
    requires m == "contact"
    ensures FirstMatchFrom(m, 0) == Some(9)
  {
    ContactTopicMissesLow();
    SkipFirstFive(m);
    ContactTopicScanRest(m);
  }

  /** The scan for a topic stops at the topic's own entry. */
  lemma TopicScan(i: int)
    requires 0 <= i < |FaqTable|
    ensures FirstMatchFrom(FaqTable[i].keywords[0], 0) == Some(i)
  {
    var t := FaqTable[i].keywords[0];
    if i == 0 { ShippingTopicScan(t); }
    else if i == 1 { ReturnTopicScan(t); }
    else if i == 2 { RefundTopicScan(t); }
    else if i == 3 { PaymentTopicScan(t); }
    else if i == 4 { EmiTopicScan(t); }
    else if i == 5 { CancelTopicScan(t); }
    else if i == 6 { WarrantyTopicScan(t); }
    else if i == 7 { TrackTopicScan(t); }
    else if i == 8 { ExchangeTopicScan(t); }
    else { ContactTopicScan(t); }
  }

  lemma ShippingKeywordsLowerCase()
    ensures forall k | 0 <= k < |ShippingKeywords| :: IsLower(ShippingKeywords[k])
  {
  }

  lemma ReturnKeywordsLowerCase()
    ensures forall k | 0 <= k < |ReturnKeywords| :: IsLower(ReturnKeywords[k])
  {
  }

  lemma RefundKeywordsLowerCase()
    ensures forall k | 0 <= k < |RefundKeywords| :: IsLower(RefundKeywords[k])
  {
  }

  lemma PaymentKeywordsLowerCase()
    ensures forall k | 0 <= k < |PaymentKeywords| :: IsLower(PaymentKeywords[k])
  {
  }

  lemma EmiKeywordsLowerCase()
    ensures forall k | 0 <= k < |EmiKeywords| :: IsLower(EmiKeywords[k])
  {
  }

  lemma CancelKeywordsLowerCase()
    ensures forall k | 0 <= k < |CancelKeywords| :: IsLower(CancelKeywords[k])
  {
  }

  lemma WarrantyKeywordsLowerCase()
    ensures forall k | 0 <= k < |WarrantyKeywords| :: IsLower(WarrantyKeywords[k])
  {
  }

  lemma TrackKeywordsLowerCase()
    ensures forall k | 0 <= k < |TrackKeywords| :: IsLower(TrackKeywords[k])
  {
  }

  lemma ExchangeKeywordsLowerCase()
    ensures forall k | 0 <= k < |ExchangeKeywords| :: IsLower(ExchangeKeywords[k])
  {
  }

  lemma ContactKeywordsLowerCase()
    ensures forall k | 0 <= k < |ContactKeywords| :: IsLower(ContactKeywords[k])
  {
  }

  /** Every keyword is written in lower case, so matching it against the lower-cased message ignores case. */
  lemma KeywordsLowerCase(j: int, k: int)
    requires 0 <= j < |FaqTable| && 0 <= k < |FaqTable[j].keywords|
    ensures IsLower(FaqTable[j].keywords[k])
  {
    if j == 0 { ShippingKeywordsLowerCase(); }
    else if j == 1 { ReturnKeywordsLowerCase(); }
    else if j == 2 { RefundKeywordsLowerCase(); }
    else if j == 3 { PaymentKeywordsLowerCase(); }
    else if j == 4 { EmiKeywordsLowerCase(); }
    else if j == 5 { CancelKeywordsLowerCase(); }
    else if j == 6 { WarrantyKeywordsLowerCase(); }
    else if j == 7 { TrackKeywordsLowerCase(); }
    else if j == 8 { ExchangeKeywordsLowerCase(); }
    else { ContactKeywordsLowerCase(); }
  }

  /** Each help-menu topic, sent back as a message, is answered with its own answer. */
  lemma TopicsRoundTrip(i: int)
    requires 0 <= i < |GetAllFaqs()|
    ensures GetFaqAnswer(GetAllFaqs()[i].topic) == Some(GetAllFaqs()[i].answer)
  {
    var t := FaqTable[i].keywords[0];
    TopicScan(i);
    KeywordsLowerCase(i, 0);
    LowerIsLower(t);
    AnswerOfFirstMatch(t, i);
  }
}
