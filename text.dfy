/** Text helpers shared by the serial protocols: Python's notion of whitespace,
    `str.strip()` and `str.split()`, decimal numerals, and the one-decimal
    fixed-point format `{v:.1f}` for values carried as integer tenths. */
module Text {

  datatype Option<T> = None | Some(value: T)

  // ---------------------------------------------------------------------------
  // Whitespace, trimming and splitting (Python `str.isspace`, `strip`, `split`)
  // ---------------------------------------------------------------------------

  /** The characters for which Python's `str.isspace()` holds. */
  predicate IsPySpace(c: char) {
    var k := c as int;
    (9 <= k <= 13) || (28 <= k <= 32) || k == 0x85 || k == 0xA0 || k == 0x1680
    || (0x2000 <= k <= 0x200A) || k == 0x2028 || k == 0x2029 || k == 0x202F
    || k == 0x205F || k == 0x3000
  }

  predicate NoSpace(s: string) {
    forall i :: 0 <= i < |s| ==> !IsPySpace(s[i])
  }

  predicate IsToken(w: string) { w != [] && NoSpace(w) }

  predicate AllSpace(s: string) {
    forall i :: 0 <= i < |s| ==> IsPySpace(s[i])
  }

  /** The first position at or after `i` that does not hold whitespace, or |s|. */
  function SkipSpaces(s: string, i: nat): (r: nat)
    requires i <= |s|
    ensures i <= r <= |s| && (r == |s| || !IsPySpace(s[r]))
    ensures forall k :: i <= k < r ==> IsPySpace(s[k])
    decreases |s| - i
  {
    if i == |s| || !IsPySpace(s[i]) then i else SkipSpaces(s, i + 1)
  }

  /** The first position at or after `i` that holds whitespace, or |s|. */
  function WordEnd(s: string, i: nat): (r: nat)
    requires i <= |s|
    ensures i <= r <= |s| && (r == |s| || IsPySpace(s[r]))
    ensures forall k :: i <= k < r ==> !IsPySpace(s[k])
    decreases |s| - i
  {
    if i == |s| || IsPySpace(s[i]) then i else WordEnd(s, i + 1)
  }

  /** The least position r in [lo, hi] such that s[r..hi] is all whitespace. */
  function TrimEnd(s: string, lo: nat, hi: nat): (r: nat)
    requires lo <= hi <= |s|
    ensures lo <= r <= hi && (r == lo || !IsPySpace(s[r - 1]))
    ensures forall k :: r <= k < hi ==> IsPySpace(s[k])
    decreases hi
  {
    if hi == lo || !IsPySpace(s[hi - 1]) then hi else TrimEnd(s, lo, hi - 1)
  }

  /** Python `s.strip()`: the part of `s` between its leading and its trailing
      whitespace, which neither starts nor ends with whitespace and is empty
      exactly when `s` is all whitespace. */
  function Strip(s: string): (r: string)
    ensures var i := SkipSpaces(s, 0); var j := TrimEnd(s, i, |s|);
      r == s[i..j]
      && (forall k :: 0 <= k < i ==> IsPySpace(s[k]))
      && (forall k :: j <= k < |s| ==> IsPySpace(s[k]))
      && (r == [] || (!IsPySpace(r[0]) && !IsPySpace(r[|r| - 1])))
    ensures r == [] <==> forall k :: 0 <= k < |s| ==> IsPySpace(s[k])
  {
    var i := SkipSpaces(s, 0);
    s[i..TrimEnd(s, i, |s|)]
  }

  /** Python `s.split()` with no separator: the maximal runs of non-whitespace
      characters. */
  function Split(s: string): (ws: seq<string>)
    ensures ws == [] <==> AllSpace(s)
    ensures |ws| <= |s|
    decreases |s|
  {
    if s == [] then []
    else if IsPySpace(s[0]) then
      assert AllSpace(s) <==> AllSpace(s[1..]) by {
        if AllSpace(s[1..]) {
          forall i | 0 <= i < |s| ensures IsPySpace(s[i]) {
            if i > 0 { assert s[i] == s[1..][i - 1]; }
          }
        }
      }
      Split(s[1..])
    else
      var j := WordEnd(s, 0);
      [s[..j]] + Split(s[j..])
  }

  /** Every word `Split` returns is non-empty and free of whitespace. */
  lemma {:induction false} SplitTokens(s: string)
    ensures forall k :: 0 <= k < |Split(s)| ==> IsToken(Split(s)[k])
    decreases |s|
  {
    if s != [] {
      if IsPySpace(s[0]) {
        SplitTokens(s[1..]);
      } else {
        var j := WordEnd(s, 0);
        SplitTokens(s[j..]);
        assert IsToken(s[..j]);
      }
    }
  }

  /** `WordEnd` stops at the same place once whitespace follows the string. */
  lemma {:induction false} WordEndExtend(a: string, t: string, k: nat)
    requires k <= |a| && t != [] && IsPySpace(t[0])
    ensures WordEnd(a + t, k) == WordEnd(a, k)
    decreases |a| - k
  {
    var s := a + t;
    if k < |a| {
      assert s[k] == a[k];
      if !IsPySpace(a[k]) {
        WordEndExtend(a, t, k + 1);
      }
    } else {
      assert s[k] == t[0];
    }
  }

  /** Maximal runs: a whitespace character separates the words before it from
      the words after it, and no word spans it. */
  lemma {:induction false} SplitAtSpace(a: string, c: char, b: string)
    requires IsPySpace(c)
    ensures Split(a + [c] + b) == Split(a) + Split(b)
    decreases |a|
  {
    var s := a + [c] + b;
    if a == [] {
      assert s[0] == c && s[1..] == b;
    } else if IsPySpace(a[0]) {
      assert s[0] == a[0];
      assert s[1..] == a[1..] + [c] + b;
      SplitAtSpace(a[1..], c, b);
    } else {
      assert s[0] == a[0];
      assert s == a + ([c] + b);
      WordEndExtend(a, [c] + b, 0);
      var j := WordEnd(a, 0);
      assert s[..j] == a[..j];
      assert s[j..] == a[j..] + [c] + b;
      SplitAtSpace(a[j..], c, b);
    }
  }

  /** `strip()` removes exactly the whitespace around a text that neither
      starts nor ends with whitespace. */
  lemma StripPadded(pre: string, m: string, post: string)
    requires AllSpace(pre) && AllSpace(post)
    requires m != [] && !IsPySpace(m[0]) && !IsPySpace(m[|m| - 1])
    ensures Strip(pre + m + post) == m
  {
    var s := pre + m + post;
    var i := SkipSpaces(s, 0);
    var j := TrimEnd(s, i, |s|);
    var a, e := |pre|, |pre| + |m|;
    assert s[a] == m[0] && s[e - 1] == m[|m| - 1];
    assert forall k :: 0 <= k < a ==> s[k] == pre[k];
    assert forall k :: e <= k < |s| ==> s[k] == post[k - e];
    assert i == a;
    assert j == e;
    assert s[a..e] == m;
  }

  /** Python `" ".join(ws)`. */
  function JoinSpaced(ws: seq<string>): (line: string) {
    if ws == [] then [] else if |ws| == 1 then ws[0] else ws[0] + " " + JoinSpaced(ws[1..])
  }

  lemma {:induction false} WordEndOfToken(w: string, tail: string, k: nat)
    requires IsToken(w) && k <= |w|
    requires tail == [] || IsPySpace(tail[0])
    ensures WordEnd(w + tail, k) == |w|
    decreases |w| - k
  {
    var s := w + tail;
    if k < |w| {
      assert s[k] == w[k];
      WordEndOfToken(w, tail, k + 1);
    } else if tail != [] {
      assert s[k] == tail[0];
    }
  }

  /** A leading token followed by whitespace (or nothing) is the first word. */
  lemma LeadingToken(w: string, tail: string)
    requires IsToken(w) && (tail == [] || IsPySpace(tail[0]))
    ensures Split(w + tail) == [w] + Split(tail)
  {
    var s := w + tail;
    assert s[0] == w[0];
    WordEndOfToken(w, tail, 0);
    assert s[..|w|] == w;
    assert s[|w|..] == tail;
  }

  /** A leading space does not change the words. */
  lemma LeadingSpace(rest: string)
    ensures Split(" " + rest) == Split(rest)
  {
    assert (" " + rest)[1..] == rest;
  }

  /** Splitting undoes joining with single spaces, for non-empty space-free words. */
  lemma {:induction false} SplitJoin(ws: seq<string>)
    requires forall k :: 0 <= k < |ws| ==> IsToken(ws[k])
    ensures Split(JoinSpaced(ws)) == ws
  {
    if |ws| == 1 {
      LeadingToken(ws[0], []);
      assert ws[0] + [] == ws[0];
      assert Split([]) == [];
    } else if |ws| > 1 {
      var rest := JoinSpaced(ws[1..]);
      assert JoinSpaced(ws) == ws[0] + (" " + rest);
      LeadingToken(ws[0], " " + rest);
      LeadingSpace(rest);
      SplitJoin(ws[1..]);
      assert [ws[0]] + ws[1..] == ws;
    }
  }

  // ---------------------------------------------------------------------------
  // Decimal numerals
  // ---------------------------------------------------------------------------

  predicate IsDigit(c: char) { '0' <= c <= '9' }

  predicate AllDigits(s: string) {
    forall i :: 0 <= i < |s| ==> IsDigit(s[i])
  }

  function DigitChar(d: nat): (c: char)
    requires d < 10
    ensures IsDigit(c)
  {
    ('0' as int + d) as char
  }

  function DigitValue(c: char): (d: nat)
    requires IsDigit(c)
    ensures d < 10 && DigitChar(d) == c
  {
    c as int - '0' as int
  }

  /** Decimal numeral of `n` without leading zeros (Python `str(n)` for n >= 0). */
  function NatToString(n: nat): (r: string)
    ensures |r| >= 1 && AllDigits(r)
    ensures |r| == 1 || r[0] != '0'
    decreases n
  {
    if n < 10 then [DigitChar(n)] else NatToString(n / 10) + [DigitChar(n % 10)]
  }

  /** Python `str(i)` for an integer. */
  function IntToString(i: int): (r: string)
    ensures |r| >= 1 && ',' !in r && '#' !in r && '\n' !in r && '\r' !in r
    ensures i >= 0 ==> r == NatToString(i)
  {
    NoCommaInDigits(NatToString(if i < 0 then -i else i));
    if i < 0 then "-" + NatToString(-i) else NatToString(i)
  }

  lemma NoCommaInDigits(s: string)
    requires AllDigits(s)
    ensures ',' !in s && '#' !in s && '\n' !in s && '\r' !in s && '.' !in s && '-' !in s
  {
  }

  /** The value of a string of decimal digits, most significant first. */
  function DigitsValue(s: string): (v: nat)
    requires AllDigits(s)
  {
    if s == [] then 0 else DigitsValue(s[..|s| - 1]) * 10 + DigitValue(s[|s| - 1])
  }

  /** Reading back a numeral gives the number. */
  lemma {:induction false} DigitsRoundTrip(n: nat)
    ensures DigitsValue(NatToString(n)) == n
    decreases n
  {
    if n >= 10 {
      var s := NatToString(n);
      assert s[..|s| - 1] == NatToString(n / 10);
      DigitsRoundTrip(n / 10);
    }
  }

  // ---------------------------------------------------------------------------
  // Searching
  // ---------------------------------------------------------------------------

  /** The first position at or after `from` that holds `c`, or -1 if there is none
      (Arduino `String::indexOf(ch, fromIndex)`, which also answers -1 when
      `fromIndex` is past the end). */
  function IndexOfFrom(s: string, c: char, from: nat): (k: int)
    ensures -1 <= k < |s|
    ensures k >= 0 ==> from <= k && s[k] == c && forall i :: from <= i < k ==> s[i] != c
    ensures k == -1 <==> forall i :: from <= i < |s| ==> s[i] != c
    decreases |s| - from
  {
    if from >= |s| then -1 else if s[from] == c then from else IndexOfFrom(s, c, from + 1)
  }

  // ---------------------------------------------------------------------------
  // One-decimal fixed point, Python `f"{v:.1f}"` for v = t / 10
  // ---------------------------------------------------------------------------

  function Abs(t: int): (a: nat) { if t < 0 then -t else t }

  /** `{v:.1f}` of the value `t` tenths: optional minus, integer part, point, one digit. */
  function FormatTenths(t: int): (r: string)
    ensures ',' !in r && '#' !in r && |r| >= 3
    ensures r[|r| - 2] == '.' && IsDigit(r[|r| - 1])
  {
    var intPart := NatToString(Abs(t) / 10);
    NoCommaInDigits(intPart);
    (if t < 0 then "-" else "") + intPart + "." + [DigitChar(Abs(t) % 10)]
  }

  /** Reads `[-]digits.digit` back as a number of tenths. */
  function ParseTenths(s: string): (r: Option<int>)
    ensures r.Some? ==> |s| >= 3 && s[|s| - 2] == '.'
  {
    if |s| < 3 || s[|s| - 2] != '.' || !IsDigit(s[|s| - 1]) then None
    else
      var neg := s[0] == '-';
      var intPart := if neg then s[1..|s| - 2] else s[..|s| - 2];
      if intPart == [] || !AllDigits(intPart) then None
      else
        var mag := DigitsValue(intPart) * 10 + DigitValue(s[|s| - 1]);
        Some(if neg then -mag else mag)
  }

  /** `ParseTenths` on an optional minus, a digit string, a point and a digit. */
  lemma ParseTenthsShape(neg: bool, intPart: string, c: char)
    requires intPart != [] && AllDigits(intPart) && IsDigit(c)
    ensures var mag := DigitsValue(intPart) * 10 + DigitValue(c);
      ParseTenths((if neg then "-" else "") + intPart + "." + [c]) == Some(if neg then -mag else mag)
  {
    var s := (if neg then "-" else "") + intPart + "." + [c];
    assert s[|s| - 2] == '.' && s[|s| - 1] == c;
    if neg {
      assert s[0] == '-';
      assert s[1..|s| - 2] == intPart;
    } else {
      assert s[0] == intPart[0];
      assert s[..|s| - 2] == intPart;
    }
  }

  /** Reading back a formatted one-decimal value gives the same number of tenths. */
  lemma TenthsRoundTrip(t: int)
    ensures ParseTenths(FormatTenths(t)) == Some(t)
  {
    var q := Abs(t) / 10;
    var d := Abs(t) % 10;
    ParseTenthsShape(t < 0, NatToString(q), DigitChar(d));
    DigitsRoundTrip(q);
    assert DigitValue(DigitChar(d)) == d;
    assert q * 10 + d == Abs(t);
  }
}
