/**
 * The few pieces of Swift's `String` API the core uses: trimming with
 * `.whitespacesAndNewlines`, `replacingOccurrences(of:with:)`, `contains`,
 * `hasSuffix` and the decimal rendering of an `Int` in string interpolation.
 * Strings are sequences of Unicode scalar values.
 */
module Text {

  /** Foundation's `CharacterSet.whitespacesAndNewlines`: Unicode general
      category Z*, U+0009 to U+000D and U+0085. */
  predicate IsWhitespace(c: char) {
    var n := c as int;
    || (0x09 <= n <= 0x0D)
    || n == 0x20 || n == 0x85 || n == 0xA0 || n == 0x1680
    || (0x2000 <= n <= 0x200A)
    || n == 0x2028 || n == 0x2029 || n == 0x202F || n == 0x205F || n == 0x3000
  }

  predicate AllWhitespace(s: string) {
    forall i :: 0 <= i < |s| ==> IsWhitespace(s[i])
  }

  /** Drops the leading whitespace: what is left is a suffix of `s` that is
      empty or starts with a non-whitespace character, and everything dropped
      is whitespace. */
  function TrimLeading(s: string): (r: string)
    ensures |r| <= |s| && r == s[|s| - |r|..]
    ensures r != [] ==> !IsWhitespace(r[0])
    ensures forall k :: 0 <= k < |s| - |r| ==> IsWhitespace(s[k])
  {
    if |s| > 0 && IsWhitespace(s[0]) then TrimLeading(s[1..]) else s
  }

  /** Drops the trailing whitespace: what is left is a prefix of `s` that is
      empty or ends with a non-whitespace character, and everything dropped
      is whitespace. */
  function TrimTrailing(s: string): (r: string)
    ensures |r| <= |s| && r == s[..|r|]
    ensures r != [] ==> !IsWhitespace(r[|r| - 1])
    ensures forall k :: |r| <= k < |s| ==> IsWhitespace(s[k])
  {
    if |s| > 0 && IsWhitespace(s[|s| - 1]) then TrimTrailing(s[..|s| - 1]) else s
  }

  /** `s.trimmingCharacters(in: .whitespacesAndNewlines)` */
  function Trim(s: string): string {
    TrimTrailing(TrimLeading(s))
  }

  /** The trimmed string is the infix `s[i..j]` left after removing a
      whitespace-only head and tail, and it neither starts nor ends with
      whitespace. */
  lemma TrimIsInfix(s: string) returns (i: nat, j: nat)
    ensures i <= j <= |s| && Trim(s) == s[i..j]
    ensures forall k :: 0 <= k < i ==> IsWhitespace(s[k])
    ensures forall k :: j <= k < |s| ==> IsWhitespace(s[k])
    ensures i < j ==> !IsWhitespace(s[i]) && !IsWhitespace(s[j - 1])
  {
    var l := TrimLeading(s);
    var t := TrimTrailing(l);
    i := |s| - |l|;
    j := i + |t|;
    PrefixOfSuffix(s, i, l, t);
  }

  /** A prefix `t` of the suffix `l == s[i..]`: the infix `s[i..i + |t|]`,
      and what `l` has past `t` is what `s` has past `i + |t|`. */
  lemma PrefixOfSuffix(s: string, i: nat, l: string, t: string)
    requires i <= |s| && l == s[i..] && |t| <= |l| && t == l[..|t|]
    requires forall k :: |t| <= k < |l| ==> IsWhitespace(l[k])
    ensures t == s[i..i + |t|]
    ensures forall k :: i + |t| <= k < |s| ==> IsWhitespace(s[k])
  {
    forall k | i + |t| <= k < |s|
      ensures IsWhitespace(s[k])
    {
      assert s[k] == l[k - i];
    }
  }

  /** Trimming gives the empty string exactly when `s` is all whitespace. */
  lemma TrimEmptyIff(s: string)
    ensures Trim(s) == [] <==> AllWhitespace(s)
  {
    var i, j := TrimIsInfix(s);
    if Trim(s) == [] {
      assert i == j;
    } else {
      assert !IsWhitespace(s[i]);
    }
  }

  /** Trimming twice is trimming once. */
  lemma TrimIdempotent(s: string)
    ensures Trim(Trim(s)) == Trim(s)
  {
    var t := Trim(s);
    var i, j := TrimIsInfix(s);
    if t != [] {
      assert !IsWhitespace(t[0]) && !IsWhitespace(t[|t| - 1]);
      assert TrimLeading(t) == t;
    } else {
      assert TrimLeading(t) == t;
    }
  }

  /** `s.replacingOccurrences(of: ",", with: ".")`: same length, every comma
      becomes a full stop, every other character is kept. */
  function ReplaceCommas(s: string): (r: string)
    ensures |r| == |s|
    ensures forall i :: 0 <= i < |s| ==> r[i] == (if s[i] == ',' then '.' else s[i])
  {
    if s == [] then [] else [if s[0] == ',' then '.' else s[0]] + ReplaceCommas(s[1..])
  }

  predicate StartsWith(s: string, prefix: string) {
    |prefix| <= |s| && s[..|prefix|] == prefix
  }

  /** `s.hasSuffix(suffix)` */
  predicate HasSuffix(s: string, suffix: string) {
    |suffix| <= |s| && s[|s| - |suffix|..] == suffix
  }

  /** `sub` occurs in `s` starting at position `i`. */
  predicate OccursAt(s: string, sub: string, i: int) {
    0 <= i <= |s| - |sub| && s[i..i + |sub|] == sub
  }

  /** `s.contains(sub)`: `sub` occurs at some position of `s`. */
  function Contains(s: string, sub: string): (r: bool)
    ensures r <==> exists i :: OccursAt(s, sub, i)
  {
    if StartsWith(s, sub) then
      assert OccursAt(s, sub, 0);
      true
    else if |s| == 0 then
      false
    else
      var r := Contains(s[1..], sub);
      if r then
        var i :| OccursAt(s[1..], sub, i);
        assert s[1..][i..i + |sub|] == s[i + 1..i + 1 + |sub|];
        assert OccursAt(s, sub, i + 1);
        true
      else
        assert forall i :: OccursAt(s, sub, i) ==> i == 0 || OccursAt(s[1..], sub, i - 1) by {
          forall i | OccursAt(s, sub, i) && i != 0
            ensures OccursAt(s[1..], sub, i - 1)
          {
            assert s[1..][i - 1..i - 1 + |sub|] == s[i..i + |sub|];
          }
        }
        false
  }

  function DigitChar(d: nat): char
    requires d < 10
  {
    "0123456789"[d]
  }

  /** The decimal rendering of `n`, as string interpolation `"\(n)"` writes a
      non-negative `Int`. */
  function Decimal(n: nat): (r: string)
    ensures 1 <= |r|
    ensures n < 10 <==> |r| == 1
  {
    if n < 10 then [DigitChar(n)] else Decimal(n / 10) + [DigitChar(n % 10)]
  }

  /** Different numbers render differently. */
  lemma {:induction false} DecimalInjective(a: nat, b: nat)
    requires Decimal(a) == Decimal(b)
    ensures a == b
  {
    if a >= 10 && b >= 10 {
      var da, db := Decimal(a), Decimal(b);
      assert da[|da| - 1] == DigitChar(a % 10);
      assert db[|db| - 1] == DigitChar(b % 10);
      assert Decimal(a / 10) == da[..|da| - 1] == db[..|db| - 1] == Decimal(b / 10);
      DecimalInjective(a / 10, b / 10);
    }
  }
}
