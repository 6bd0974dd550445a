/** Shared value types and the few JavaScript built-ins the estimator relies on:
    rounding to integers, `Math.max`/`Math.min` on numbers, `String.prototype.trim`,
    ASCII `toLowerCase`, `String.prototype.includes`, and decimal rendering of a
    natural number inside a template literal. */
module Common {

  datatype Option<+T> = None | Some(value: T)

  datatype Result<+T, +E> = Ok(value: T) | Err(error: E)

  /** `Math.ceil` on an exact real. */
  function Ceil(x: real): (r: int)
    ensures r as real - 1.0 < x <= r as real
  {
    -((-x).Floor)
  }

  /** The smallest integer not below x is unique: any integer in (x-1, x] ... [x, x+1) is it. */
  lemma CeilUnique(x: real, n: int)
    requires n as real - 1.0 < x <= n as real
    ensures Ceil(x) == n
  {
  }

  lemma FloorUnique(x: real, n: int)
    requires n as real <= x < n as real + 1.0
    ensures x.Floor == n
  {
  }

  function MaxR(a: real, b: real): (r: real)
    ensures r >= a && r >= b && (r == a || r == b)
  {
    if a >= b then a else b
  }

  function MinR(a: real, b: real): (r: real)
    ensures r <= a && r <= b && (r == a || r == b)
  {
    if a <= b then a else b
  }

  function AbsR(x: real): (r: real)
    ensures r >= 0.0 && (r == x || r == -x)
  {
    if x < 0.0 then -x else x
  }

  function MaxI(a: int, b: int): (r: int)
    ensures r >= a && r >= b && (r == a || r == b)
  {
    if a >= b then a else b
  }

  function MinI(a: int, b: int): (r: int)
    ensures r <= a && r <= b && (r == a || r == b)
  {
    if a <= b then a else b
  }

  /** `Math.max(0, Number(x || 0))` on an already parsed input, `None`
      standing for a missing or empty one: never negative, and the value
      itself when that is not negative. */
  function NonNegativeNumber(x: Option<real>): (v: real)
    ensures v >= 0.0
    ensures x.None? ==> v == 0.0
    ensures x.Some? && x.value >= 0.0 ==> v == x.value
    ensures x.Some? && x.value < 0.0 ==> v == 0.0
  {
    MaxR(0.0, if x.Some? then x.value else 0.0)
  }

  /** Characters removed by `String.prototype.trim`: the ECMAScript WhiteSpace
      code points (TAB, VT, FF, SP, NBSP, ZWNBSP and the Zs category) and the
      LineTerminator code points (LF, CR, LS, PS). */
  predicate IsJsWhitespace(c: char)
  {
    c == '\t' || c == '\n' || c == '\U{000B}' || c == '\U{000C}' || c == '\r' || c == ' '
    || c == '\U{00A0}' || c == '\U{1680}' || ('\U{2000}' <= c <= '\U{200A}')
    || c == '\U{2028}' || c == '\U{2029}' || c == '\U{202F}' || c == '\U{205F}'
    || c == '\U{3000}' || c == '\U{FEFF}'
  }

  /** `Array.prototype.filter`: the elements that pass, in their order. */
  function Filter<T(!new)>(s: seq<T>, keep: T -> bool): (r: seq<T>)
    ensures |r| <= |s|
    ensures forall x :: x in r <==> x in s && keep(x)
  {
    if s == [] then []
    else if keep(s[0]) then [s[0]] + Filter(s[1..], keep)
    else Filter(s[1..], keep)
  }

  /** Filtering with a test that every element passes changes nothing. */
  lemma {:induction false} FilterKeepsAll<T(!new)>(s: seq<T>, keep: T -> bool)
    requires forall i :: 0 <= i < |s| ==> keep(s[i])
    ensures Filter(s, keep) == s
  {
    if s != [] {
      FilterKeepsAll(s[1..], keep);
    }
  }

  /** Filtering distributes over concatenation. */
  lemma {:induction false} FilterAppend<T(!new)>(a: seq<T>, b: seq<T>, keep: T -> bool)
    ensures Filter(a + b, keep) == Filter(a, keep) + Filter(b, keep)
  {
    if a != [] {
      assert (a + b)[1..] == a[1..] + b;
      FilterAppend(a[1..], b, keep);
    } else {
      assert a + b == b;
    }
  }

  /** The index of the first character at or after i that is not
      whitespace, or |s| when there is none. */
  function SkipStart(s: string, i: nat): (k: nat)
    requires i <= |s|
    ensures i <= k <= |s|
    decreases |s| - i
  {
    if i < |s| && IsJsWhitespace(s[i]) then SkipStart(s, i + 1) else i
  }

  /** SkipStart skips exactly the run of whitespace starting at i. */
  lemma {:induction false} SkipStartSpec(s: string, i: nat)
    requires i <= |s|
    ensures var k := SkipStart(s, i);
            (forall j :: i <= j < k ==> IsJsWhitespace(s[j])) && (k < |s| ==> !IsJsWhitespace(s[k]))
    decreases |s| - i
  {
    if i < |s| && IsJsWhitespace(s[i]) {
      SkipStartSpec(s, i + 1);
    }
  }

  /** The end, at most j and at least lo, of s[lo..j] with its trailing
      whitespace removed. */
  function SkipEnd(s: string, lo: nat, j: nat): (k: nat)
    requires lo <= j <= |s|
    ensures lo <= k <= j
    decreases j
  {
    if j > lo && IsJsWhitespace(s[j - 1]) then SkipEnd(s, lo, j - 1) else j
  }

  /** SkipEnd drops exactly the run of whitespace ending at j, never going
      below lo. */
  lemma {:induction false} SkipEndSpec(s: string, lo: nat, j: nat)
    requires lo <= j <= |s|
    ensures var k := SkipEnd(s, lo, j);
            (forall m :: k <= m < j ==> IsJsWhitespace(s[m])) && (k > lo ==> !IsJsWhitespace(s[k - 1]))
    decreases j
  {
    if j > lo && IsJsWhitespace(s[j - 1]) {
      SkipEndSpec(s, lo, j - 1);
    }
  }

  /** q occurs in s starting at position k. */
  predicate OccursAt(s: string, q: string, k: int)
  {
    0 <= k <= |s| - |q| && s[k..k + |q|] == q
  }

  /** `String.prototype.trim`: the piece of the input between its leading
      and its trailing whitespace. */
  function Trim(s: string): (r: string)
    ensures |r| <= |s|
  {
    var a := SkipStart(s, 0);
    s[a..SkipEnd(s, a, |s|)]
  }

  /** The trimmed text starts and ends with a character that is not
      whitespace, and what was cut off on either side is all whitespace. */
  lemma TrimSpec(s: string)
    ensures var r := Trim(s);
            (r != [] ==> !IsJsWhitespace(r[0]) && !IsJsWhitespace(r[|r| - 1]))
            && OccursAt(s, r, SkipStart(s, 0))
            && (forall j :: 0 <= j < SkipStart(s, 0) ==> IsJsWhitespace(s[j]))
            && (forall j :: SkipStart(s, 0) + |r| <= j < |s| ==> IsJsWhitespace(s[j]))
  {
    var a := SkipStart(s, 0);
    SkipStartSpec(s, 0);
    SkipEndSpec(s, a, |s|);
  }

  /** A string made only of whitespace trims to the empty string, and only
      such a string does. */
  lemma TrimEmptyIffAllWhitespace(s: string)
    ensures Trim(s) == [] <==> forall i :: 0 <= i < |s| ==> IsJsWhitespace(s[i])
  {
    TrimSpec(s);
    var a := SkipStart(s, 0);
    var b := SkipEnd(s, a, |s|);
    if Trim(s) == [] {
      assert b == a;
    }
  }

  /** Trimming is idempotent. */
  lemma TrimIdempotent(s: string)
    ensures Trim(Trim(s)) == Trim(s)
  {
    TrimSpec(s);
    var r := Trim(s);
    if r != [] {
      assert SkipStart(r, 0) == 0;
      assert SkipEnd(r, 0, |r|) == |r|;
      assert r[0..|r|] == r;
    }
  }

  /** `toLowerCase` restricted to ASCII letters. */
  function LowerChar(c: char): (r: char)
    ensures ('A' <= c <= 'Z') ==> r as int == c as int + 32
    ensures !('A' <= c <= 'Z') ==> r == c
  {
    if 'A' <= c <= 'Z' then (c as int + 32) as char else c
  }

  function Lower(s: string): (r: string)
    ensures |r| == |s|
    ensures forall i :: 0 <= i < |s| ==> r[i] == LowerChar(s[i])
  {
    if s == [] then [] else [LowerChar(s[0])] + Lower(s[1..])
  }

  /** `s.includes(q)`: q occurs in s as a contiguous piece. */
  function Includes(s: string, q: string): (b: bool)
    ensures b <==> exists k :: OccursAt(s, q, k)
  {
    if q <= s then
      assert OccursAt(s, q, 0);
      true
    else if s == [] then
      false
    else
      var rest := Includes(s[1..], q);
      assert rest <==> exists k :: OccursAt(s, q, k) by {
        forall k | 1 <= k <= |s| - |q| ensures OccursAt(s[1..], q, k - 1) <==> OccursAt(s, q, k) {
          assert s[1..][k - 1..k - 1 + |q|] == s[k..k + |q|];
        }
        if rest {
          var j :| OccursAt(s[1..], q, j);
          assert OccursAt(s, q, j + 1);
        }
        if k :| OccursAt(s, q, k) {
          assert k != 0;
          assert OccursAt(s[1..], q, k - 1);
        }
      }
      rest
  }

  /** Every string includes the empty string. */
  lemma IncludesEmpty(s: string)
    ensures Includes(s, [])
  {
    assert s[0..0] == [];
  }

  predicate IsDigitChar(c: char) { '0' <= c <= '9' }

  function DigitChar(d: nat): (c: char)
    requires d < 10
    ensures IsDigitChar(c) && c as int - '0' as int == d
  {
    ('0' as int + d) as char
  }

  /** The number a string of decimal digits spells, most significant first. */
  function DigitsValue(s: string): nat
    requires forall i :: 0 <= i < |s| ==> IsDigitChar(s[i])
  {
    if s == [] then 0
    else
      assert IsDigitChar(s[|s| - 1]);
      DigitsValue(s[..|s| - 1]) * 10 + (s[|s| - 1] as int - '0' as int)
  }

  /** Decimal rendering of a natural number, as `${n}` produces it: digits
      that spell `n`, with no leading zero. */
  function DecimalText(n: nat): (s: string)
    ensures |s| >= 1
    ensures forall i :: 0 <= i < |s| ==> IsDigitChar(s[i])
    ensures DigitsValue(s) == n
    ensures n >= 10 ==> s[0] != '0'
  {
    if n < 10 then [DigitChar(n)]
    else
      var front := DecimalText(n / 10);
      var s := front + [DigitChar(n % 10)];
      assert s[..|s| - 1] == front;
      s
  }

  /** Different numbers are rendered differently. */
  lemma DecimalTextInjective(m: nat, n: nat)
    requires DecimalText(m) == DecimalText(n)
    ensures m == n
  {
  }
}
