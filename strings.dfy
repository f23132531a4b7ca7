/**
 * The JavaScript string primitives the services rely on: `toLowerCase`, `trim`,
 * `includes`, the `\s`, `\d` and `\w` character classes, and the decimal text of
 * numbers (template-literal interpolation and `parseInt`).
 */
module Strings {

  /** JavaScript's `\s` class: the white space and line terminators that `trim` also removes. */
  predicate IsSpace(c: char) {
    var n := c as int;
    n == 0x09 || n == 0x0A || n == 0x0B || n == 0x0C || n == 0x0D || n == 0x20
    || n == 0xA0 || n == 0x1680 || (0x2000 <= n <= 0x200A) || n == 0x2028 || n == 0x2029
    || n == 0x202F || n == 0x205F || n == 0x3000 || n == 0xFEFF
  }

  /** The characters a regular expression's `.` refuses to match. */
  predicate IsLineTerminator(c: char) {
    c == '\n' || c == '\r' || c as int == 0x2028 || c as int == 0x2029
  }

  /** `\d` */
  predicate IsDigit(c: char) {
    '0' <= c <= '9'
  }

  /** `\w` */
  predicate IsWordChar(c: char) {
    'a' <= c <= 'z' || 'A' <= c <= 'Z' || IsDigit(c) || c == '_'
  }

  predicate AllDigits(s: string) {
    forall i | 0 <= i < |s| :: IsDigit(s[i])
  }

  // ---------------------------------------------------------------- case

  function LowerChar(c: char): (r: char)
    ensures 'A' <= c <= 'Z' ==> 'a' <= r <= 'z' && r as int == c as int + 32
    ensures !('A' <= c <= 'Z') ==> r == c
  {
    if 'A' <= c <= 'Z' then (c as int + 32) as char else c
  }

  /** `toLowerCase`, on the ASCII letters. */
  function Lower(s: string): (r: string)
    ensures |r| == |s|
    ensures forall i | 0 <= i < |s| :: r[i] == LowerChar(s[i])
  {
    seq(|s|, i requires 0 <= i < |s| => LowerChar(s[i]))
  }

  /** `toUpperCase`, on the ASCII letters. */
  function Upper(s: string): (r: string)
    ensures |r| == |s|
    ensures forall i | 0 <= i < |s| :: if 'a' <= s[i] <= 'z' then r[i] as int == s[i] as int - 32 else r[i] == s[i]
  {
    seq(|s|, i requires 0 <= i < |s| => if 'a' <= s[i] <= 'z' then (s[i] as int - 32) as char else s[i])
  }

  /** A string without upper-case ASCII letters. */
  predicate IsLower(s: string) {
    forall i | 0 <= i < |s| :: !('A' <= s[i] <= 'Z')
  }

  lemma LowerIsLower(s: string)
    ensures IsLower(Lower(s))
    ensures IsLower(s) <==> Lower(s) == s
  {
    if IsLower(s) {
      assert forall i | 0 <= i < |s| :: Lower(s)[i] == s[i];
    }
  }

  lemma LowerIdempotent(s: string)
    ensures Lower(Lower(s)) == Lower(s)
  {
    LowerIsLower(s);
    LowerIsLower(Lower(s));
  }

  /** Lower-casing commutes with taking a slice. */
  lemma LowerSlice(s: string, i: int, j: int)
    requires 0 <= i <= j <= |s|
    ensures Lower(s[i..j]) == Lower(s)[i..j]
  {
  }

  // ---------------------------------------------------------------- trim

  /** The suffix of `s` left after its leading white space. */
  function TrimStart(s: string): (r: string)
    ensures |r| <= |s| && forall i | 0 <= i < |r| :: r[i] == s[|s| - |r| + i]
    ensures r != [] ==> !IsSpace(r[0])
    ensures forall j | 0 <= j < |s| - |r| :: IsSpace(s[j])
  {
    if |s| > 0 && IsSpace(s[0]) then TrimStart(s[1..]) else s
  }

  /** The prefix of `s` left before its trailing white space. */
  function TrimEnd(s: string): (r: string)
    ensures |r| <= |s| && forall i | 0 <= i < |r| :: r[i] == s[i]
    ensures r != [] ==> !IsSpace(r[|r| - 1])
    ensures forall j | |r| <= j < |s| :: IsSpace(s[j])
  {
    if |s| > 0 && IsSpace(s[|s| - 1]) then TrimEnd(s[..|s| - 1]) else s
  }

  /**
   * `trim`: what is left is the slice of `s` that starts where the leading white space
   * ends, everything cut before and after it is white space, and it neither starts nor
   * ends with white space.
   */
  function Trim(s: string): (r: string)
    ensures |s| - |TrimStart(s)| + |r| <= |s|
    ensures forall i | 0 <= i < |r| :: r[i] == s[|s| - |TrimStart(s)| + i]
    ensures r != [] ==> !IsSpace(r[0]) && !IsSpace(r[|r| - 1])
    ensures forall j | 0 <= j < |s| - |TrimStart(s)| :: IsSpace(s[j])
    ensures forall j | |s| - |TrimStart(s)| + |r| <= j < |s| :: IsSpace(s[j])
  {
    var t := TrimStart(s);
    var r := TrimEnd(t);
    assert r != [] ==> r[0] == t[0];
    forall j | |s| - |t| + |r| <= j < |s|
      ensures IsSpace(s[j])
    {
      assert s[j] == t[j - (|s| - |t|)];
    }
    r
  }

  // ---------------------------------------------------------------- includes

  /** `w` occurs in `s` at index `i`. */
  predicate MatchAt(s: string, w: string, i: int) {
    0 <= i && i + |w| <= |s| && s[i..i + |w|] == w
  }

  /** `s.includes(w)` */
  predicate Contains(s: string, w: string) {
    exists i | 0 <= i <= |s| - |w| :: MatchAt(s, w, i)
  }

  /** `ws.some(w => s.includes(w))`, or a regular expression that is an alternation of literals. */
  predicate ContainsAny(s: string, ws: seq<string>) {
    exists k | 0 <= k < |ws| :: Contains(s, ws[k])
  }

  lemma MatchAtChar(s: string, w: string, i: int, k: int)
    requires MatchAt(s, w, i) && 0 <= k < |w|
    ensures s[i + k] == w[k]
  {
    assert s[i..i + |w|][k] == w[k];
  }

  /** A word holding a character that `s` lacks does not occur in `s`. */
  lemma AbsentChar(s: string, w: string, k: int)
    requires 0 <= k < |w| && w[k] !in s
    ensures !Contains(s, w)
  {
    forall i | 0 <= i <= |s| - |w| ensures !MatchAt(s, w, i) {
      if MatchAt(s, w, i) {
        MatchAtChar(s, w, i, k);
      }
    }
  }

  /** A word holding two adjacent characters that never stand side by side in `s` does not occur in `s`. */
  lemma AbsentPair(s: string, w: string, k: int)
    requires 0 <= k < |w| - 1
    requires forall i | 0 <= i < |s| - 1 :: !(s[i] == w[k] && s[i + 1] == w[k + 1])
    ensures !Contains(s, w)
  {
    forall i | 0 <= i <= |s| - |w| ensures !MatchAt(s, w, i) {
      if MatchAt(s, w, i) {
        MatchAtChar(s, w, i, k);
        MatchAtChar(s, w, i, k + 1);
      }
    }
  }

  /** A message that contains a word also contains each of the word's substrings. */
  lemma ContainsPart(s: string, w: string, a: int, b: int)
    requires Contains(s, w) && 0 <= a <= b <= |w|
    ensures Contains(s, w[a..b])
  {
    var i :| 0 <= i <= |s| - |w| && MatchAt(s, w, i);
    forall t | 0 <= t < b - a ensures s[i + a..i + b][t] == w[a..b][t] {
      MatchAtChar(s, w, i, a + t);
    }
    assert MatchAt(s, w[a..b], i + a);
  }

  /** A word that extends an absent word is absent too. */
  lemma AbsentExtension(s: string, v: string, w: string)
    requires !Contains(s, v) && |v| <= |w| && w[..|v|] == v
    ensures !Contains(s, w)
  {
    if Contains(s, w) {
      ContainsPart(s, w, 0, |v|);
    }
  }

  /** Containment is transitive. */
  lemma ContainsTrans(a: string, b: string, c: string)
    requires Contains(a, b) && Contains(b, c)
    ensures Contains(a, c)
  {
    var i :| 0 <= i <= |a| - |b| && MatchAt(a, b, i);
    var j :| 0 <= j <= |b| - |c| && MatchAt(b, c, j);
    forall t | 0 <= t < |c| ensures a[i + j + t] == c[t] {
      MatchAtChar(b, c, j, t);
      MatchAtChar(a, b, i, j + t);
    }
    assert MatchAt(a, c, i + j);
  }

  lemma AppendAssoc(x: string, y: string, z: string)
    ensures x + y + z == x + (y + z)
  {
  }

  lemma ContainsPrefix(x: string, y: string)
    ensures Contains(x + y, x)
  {
    assert (x + y)[..|x|] == x;
    assert MatchAt(x + y, x, 0);
  }

  lemma ContainsInMiddle(x: string, y: string, z: string)
    ensures Contains(x + y + z, y)
  {
    assert (x + y + z)[|x|..|x| + |y|] == y;
    assert MatchAt(x + y + z, y, |x|);
  }

  /** `s` spells the lower-case word `w` at index `i`, in any mix of cases. */
  predicate MatchAtIgnoringCase(s: string, w: string, i: int) {
    0 <= i && i + |w| <= |s| && Lower(s[i..i + |w|]) == w
  }

  /**
   * Searching the lower-cased message for a lower-case word finds exactly the places
   * where the message spells the word in any mix of cases.
   */
  lemma ContainsIgnoringCase(s: string, w: string)
    ensures Contains(Lower(s), w) <==> exists i | 0 <= i <= |s| - |w| :: MatchAtIgnoringCase(s, w, i)
  {
    forall i | 0 <= i <= |s| - |w|
      ensures MatchAt(Lower(s), w, i) <==> MatchAtIgnoringCase(s, w, i)
    {
      LowerSlice(s, i, i + |w|);
    }
  }

  // ---------------------------------------------------------------- digit runs

  /** The end of the run of digits that starts at `i`. */
  function DigitRunEnd(s: string, i: nat): (j: nat)
    requires i <= |s|
    ensures i <= j <= |s|
    ensures forall k | i <= k < j :: IsDigit(s[k])
    ensures j == |s| || !IsDigit(s[j])
    decreases |s| - i
  {
    if i < |s| && IsDigit(s[i]) then DigitRunEnd(s, i + 1) else i
  }

  /** The end of the run of `\w` characters that starts at `i`. */
  function WordRunEnd(s: string, i: nat): (j: nat)
    requires i <= |s|
    ensures i <= j <= |s|
    ensures forall k | i <= k < j :: IsWordChar(s[k])
    ensures j == |s| || !IsWordChar(s[j])
    decreases |s| - i
  {
    if i < |s| && IsWordChar(s[i]) then WordRunEnd(s, i + 1) else i
  }

  /** The end of the run of white space that starts at `i` (what a greedy `\s*` consumes). */
  function SpaceRunEnd(s: string, i: nat): (j: nat)
    requires i <= |s|
    ensures i <= j <= |s|
    ensures forall k | i <= k < j :: IsSpace(s[k])
    ensures j == |s| || !IsSpace(s[j])
    decreases |s| - i
  {
    if i < |s| && IsSpace(s[i]) then SpaceRunEnd(s, i + 1) else i
  }

  // ---------------------------------------------------------------- numbers

  function DigitChar(d: nat): (c: char)
    requires d < 10
    ensures IsDigit(c)
  {
    ('0' as int + d) as char
  }

  function DigitValue(c: char): (d: nat)
    requires IsDigit(c)
    ensures d < 10 && DigitChar(d) == c
  {
    c as int - '0' as int
  }

  /** The decimal text of a non-negative number, as template literals print it. */
  function NatToString(n: nat): (r: string)
    decreases n
  {
    if n < 10 then [DigitChar(n)] else NatToString(n / 10) + [DigitChar(n % 10)]
  }

  function IntToString(n: int): string {
    if n < 0 then "-" + NatToString(-n) else NatToString(n)
  }

  /** `parseInt` of a string of decimal digits. */
  function DigitsValue(s: string): nat
    requires AllDigits(s)
  {
    if s == [] then 0 else DigitsValue(s[..|s| - 1]) * 10 + DigitValue(s[|s| - 1])
  }

  /** `parseInt` reads back what `NatToString` prints, and the text is a non-empty run of digits. */
  lemma {:induction false} NatToStringRoundTrip(n: nat)
    ensures |NatToString(n)| > 0 && AllDigits(NatToString(n))
    ensures DigitsValue(NatToString(n)) == n
  {
    var r := NatToString(n);
    if n >= 10 {
      NatToStringRoundTrip(n / 10);
      assert r[..|r| - 1] == NatToString(n / 10);
    }
  }

  /** Different numbers print differently, so `prefix + NatToString(t)` ids from different clocks differ. */
  lemma NatToStringInjective(m: nat, n: nat)
    requires NatToString(m) == NatToString(n)
    ensures m == n
  {
    NatToStringRoundTrip(m);
    NatToStringRoundTrip(n);
  }

  // ---------------------------------------------------------------- join

  /** `parts.join(sep)` */
  function Join(parts: seq<string>, sep: string): (r: string)
    ensures parts == [] ==> r == ""
    ensures |parts| == 1 ==> r == parts[0]
  {
    if parts == [] then ""
    else if |parts| == 1 then parts[0]
    else Join(parts[..|parts| - 1], sep) + sep + parts[|parts| - 1]
  }

  /** Every part appears in the joined text. */
  lemma {:induction false} JoinContains(parts: seq<string>, sep: string, k: int)
    requires 0 <= k < |parts|
    ensures Contains(Join(parts, sep), parts[k])
  {
    if |parts| == 1 {
      ContainsPrefix(parts[0], "");
      assert parts[0] + "" == parts[0];
    } else if k == |parts| - 1 {
      ContainsInMiddle(Join(parts[..|parts| - 1], sep) + sep, parts[k], "");
      assert Join(parts[..|parts| - 1], sep) + sep + parts[k] + "" == Join(parts, sep);
    } else {
      var init := parts[..|parts| - 1];
      JoinContains(init, sep, k);
      assert init[k] == parts[k];
      ContainsPrefix(Join(init, sep), sep + parts[|parts| - 1]);
      AppendAssoc(Join(init, sep), sep, parts[|parts| - 1]);
      ContainsTrans(Join(parts, sep), Join(init, sep), parts[k]);
    }
  }
}
