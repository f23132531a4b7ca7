/**
 * Pulling an e-mail address and an order id out of a chat message, as the two
 * regular expressions `[\w.-]+@[\w.-]+\.\w+` and `#?(\d{5,})` do with `match`:
 * the leftmost match, and at that position the longest one.
 */
module Extraction {
  import opened Common
  import opened Strings

  // ---------------------------------------------------------------- e-mail

  /** `[\w.-]` */
  predicate IsEmailChar(c: char) {
    IsWordChar(c) || c == '.' || c == '-'
  }

  /**
   * `s[i..j]` is matched in full by the e-mail pattern, with its `@` at `a` and the
   * dot before the final `\w+` at `d`.
   */
  predicate EmailShape(s: string, i: int, a: int, d: int, j: int) {
    && 0 <= i < a && a + 1 < d && d + 1 < j <= |s|
    && (forall k | i <= k < a :: IsEmailChar(s[k]))
    && s[a] == '@'
    && (forall k | a < k < d :: IsEmailChar(s[k]))
    && s[d] == '.'
    && (forall k | d < k < j :: IsWordChar(s[k]))
  }

  predicate EmailAt(s: string, i: int, j: int) {
    exists a, d | i < a < d < j :: EmailShape(s, i, a, d, j)
  }

  /** The start of the run of `[\w.-]` characters that ends just before `a`. */
  function EmailRunStart(s: string, a: nat): (i: nat)
    requires a <= |s|
    ensures i <= a
    ensures forall k | i <= k < a :: IsEmailChar(s[k])
    ensures i == 0 || !IsEmailChar(s[i - 1])
  {
    if a > 0 && IsEmailChar(s[a - 1]) then EmailRunStart(s, a - 1) else a
  }

  /** The end of the run of `[\w.-]` characters that starts at `i`. */
  function EmailRunEnd(s: string, i: nat): (j: nat)
    requires i <= |s|
    ensures i <= j <= |s|
    ensures forall k | i <= k < j :: IsEmailChar(s[k])
    ensures j == |s| || !IsEmailChar(s[j])
    decreases |s| - i
  {
    if i < |s| && IsEmailChar(s[i]) then EmailRunEnd(s, i + 1) else i
  }

  /** A dot at `d` that can end the domain of an address whose `@` is at `a`. */
  predicate DomainDot(s: string, a: int, d: int) {
    && 0 <= a && a + 1 < d && d + 1 < |s|
    && (forall k | a < k < d :: IsEmailChar(s[k]))
    && s[d] == '.' && IsWordChar(s[d + 1])
  }

  /** The last domain dot at or before `k`: what the greedy `[\w.-]+` before `\.` settles on. */
  function LastDotFrom(s: string, a: nat, k: int): (r: Option<nat>)
    requires a < |s| && k < EmailRunEnd(s, a + 1)
    ensures r.Some? ==> DomainDot(s, a, r.value) && r.value <= k
    ensures forall d | (r.None? || r.value < d) && d <= k :: !DomainDot(s, a, d)
    decreases k
  {
    if k <= a + 1 then None
    else if k + 1 < |s| && s[k] == '.' && IsWordChar(s[k + 1]) then Some(k)
    else LastDotFrom(s, a, k - 1)
  }

  /** A domain dot lies inside the run of `[\w.-]` characters after the `@`. */
  lemma DomainDotInRun(s: string, a: nat, d: int)
    requires a < |s| && DomainDot(s, a, d)
    ensures d < EmailRunEnd(s, a + 1)
  {
  }

  function LastDot(s: string, a: nat): (r: Option<nat>)
    requires a < |s|
    ensures r.Some? ==> DomainDot(s, a, r.value)
    ensures forall d | r.None? || r.value < d :: !DomainDot(s, a, d)
  {
    var r := LastDotFrom(s, a, EmailRunEnd(s, a + 1) - 1);
    forall d | r.None? || r.value < d ensures !DomainDot(s, a, d) {
      if DomainDot(s, a, d) {
        DomainDotInRun(s, a, d);
      }
    }
    r
  }

  /** An `@` at `a` that some address uses. */
  predicate UsableAt(s: string, a: int) {
    0 < a < |s| && s[a] == '@' && IsEmailChar(s[a - 1]) && LastDot(s, a).Some?
  }

  /** The first usable `@` at or after `a`. */
  function FirstAt(s: string, a: nat): (r: Option<nat>)
    ensures r.Some? ==> a <= r.value && UsableAt(s, r.value)
    ensures forall b | a <= b && (r.None? || b < r.value) :: !UsableAt(s, b)
    decreases |s| - a
  {
    if a >= |s| then None
    else if UsableAt(s, a) then Some(a)
    else FirstAt(s, a + 1)
  }

  /** Every address in the message has a usable `@`, inside its own span. */
  lemma ShapeUsable(s: string, i: int, a: int, d: int, j: int)
    requires EmailShape(s, i, a, d, j)
    ensures UsableAt(s, a)
    ensures LastDot(s, a).value >= d
  {
    assert DomainDot(s, a, d);
  }

  /**
   * The span of the e-mail pattern's first match: the leftmost start, and at that
   * start the longest match.
   */
  function FirstEmail(s: string): (r: Option<(nat, nat)>)
    ensures r.Some? ==> EmailAt(s, r.value.0, r.value.1)
    ensures r.Some? ==> forall i, j | EmailAt(s, i, j) :: r.value.0 < i || (r.value.0 == i && j <= r.value.1)
    ensures r.None? <==> forall i, j :: !EmailAt(s, i, j)
  {
    match FirstAt(s, 0)
    case None =>
      forall i, j ensures !EmailAt(s, i, j) {
        if EmailAt(s, i, j) {
          var a, d :| i < a < d < j && EmailShape(s, i, a, d, j);
          ShapeUsable(s, i, a, d, j);
        }
      }
      None
    case Some(a) =>
      var d := LastDot(s, a).value;
      var i := EmailRunStart(s, a);
      var j := WordRunEnd(s, d + 1);
      assert EmailShape(s, i, a, d, j);
      assert EmailAt(s, i, j);
      FirstEmailIsFirst(s, a, i, d, j);
      Some((i, j))
  }

  lemma FirstEmailIsFirst(s: string, a: nat, i: nat, d: nat, j: nat)
    requires FirstAt(s, 0) == Some(a) && a < |s|
    requires LastDot(s, a) == Some(d) && i == EmailRunStart(s, a) && d + 1 <= |s| && j == WordRunEnd(s, d + 1)
    ensures forall i', j' | EmailAt(s, i', j') :: i < i' || (i == i' && j' <= j)
  {
    forall i', j' | EmailAt(s, i', j') ensures i < i' || (i == i' && j' <= j) {
      var a', d' :| i' < a' < d' < j' && EmailShape(s, i', a', d', j');
      ShapeUsable(s, i', a', d', j');
      assert a <= a';
      if a < a' {
        // `s[a]` is an `@`, which no local part holds, so the other match starts after it.
        assert !IsEmailChar(s[a]);
        assert a < i';
      } else {
        // Same `@`: the local part starts no earlier than the run before it.
        assert i <= i';
      }
    }
  }

  /** The address handed to the order lookup: the first match, lower-cased. */
  function ExtractEmail(message: string): (r: Option<string>)
    ensures r.None? <==> forall i, j :: !EmailAt(message, i, j)
    ensures r.Some? ==> exists i, j :: EmailAt(message, i, j) && r.value == Lower(message[i..j])
    ensures r.Some? ==> IsLower(r.value)
  {
    match FirstEmail(message)
    case None => None
    case Some((i, j)) =>
      LowerIsLower(message[i..j]);
      Some(Lower(message[i..j]))
  }

  // ---------------------------------------------------------------- order id

  /** Five digits in a row start at `i`. */
  predicate FiveDigitsAt(s: string, i: int) {
    0 <= i && i + 5 <= |s| && forall k | i <= k < i + 5 :: IsDigit(s[k])
  }

  /** A maximal run of at least five digits occupies `s[i..j]`. */
  predicate LongDigitRun(s: string, i: int, j: int) {
    && 0 <= i && i + 5 <= j <= |s|
    && (forall k | i <= k < j :: IsDigit(s[k]))
    && (i == 0 || !IsDigit(s[i - 1]))
    && (j == |s| || !IsDigit(s[j]))
  }

  /** The first run of at least five digits that starts at or after `i`, a position where no run is under way. */
  function DigitRunFrom(s: string, i: nat): (r: Option<(nat, nat)>)
    requires i <= |s| && (i == 0 || !IsDigit(s[i - 1]))
    ensures r.Some? ==> LongDigitRun(s, r.value.0, r.value.1) && i <= r.value.0
    ensures forall k | i <= k && (r.None? || k < r.value.0) :: !FiveDigitsAt(s, k)
    decreases |s| - i
  {
    if i == |s| then None
    else if !IsDigit(s[i]) then DigitRunFrom(s, i + 1)
    else
      var e := DigitRunEnd(s, i);
      if e - i >= 5 then Some((i, e))
      else
        assert forall k | i <= k <= e :: !FiveDigitsAt(s, k) by {
          assert e == |s| || !IsDigit(s[e]);
        }
        if e == |s| then None else DigitRunFrom(s, e + 1)
  }

  /**
   * The order id captured by `#?(\d{5,})`: the first maximal run of five or more
   * digits (an optional `#` before it is matched but not captured).
   */
  function ExtractOrderId(message: string): (r: Option<string>)
    ensures r.None? <==> forall k :: !FiveDigitsAt(message, k)
    ensures r.Some? ==> exists i, j :: LongDigitRun(message, i, j) && r.value == message[i..j]
                                      && forall k | k < i :: !FiveDigitsAt(message, k)
    ensures r.Some? ==> |r.value| >= 5 && AllDigits(r.value)
  {
    match DigitRunFrom(message, 0)
    case None => None
    case Some((i, j)) =>
      assert FiveDigitsAt(message, i);
      Some(message[i..j])
  }
}
