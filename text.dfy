/** The JavaScript string operations the application uses: `trim`,
    integer `toString`, `padStart`, `join`/`split` on one separator
    character, and upper-casing one character. */
module Text {
  import opened Wrappers
  import Seqs

  /** ECMAScript WhiteSpace and LineTerminator code points: what `trim`
      removes. */
  predicate IsWhitespace(c: char) {
    c == '\t' || c == '\n' || c == '\U{000B}' || c == '\U{000C}' || c == '\r' || c == ' '
    || c == '\U{00A0}' || c == '\U{1680}' || ('\U{2000}' <= c <= '\U{200A}')
    || c == '\U{2028}' || c == '\U{2029}' || c == '\U{202F}' || c == '\U{205F}'
    || c == '\U{3000}' || c == '\U{FEFF}'
  }

  predicate AllWhitespace(s: string) {
    forall k :: 0 <= k < |s| ==> IsWhitespace(s[k])
  }

  /** The index of the first character of `s` at or after `from` that is
      not whitespace. */
  function ContentStart(s: string, from: nat): (i: nat)
    requires from <= |s|
    ensures from <= i <= |s|
    ensures AllWhitespace(s[from..i])
    ensures i < |s| ==> !IsWhitespace(s[i])
    decreases |s| - from
  {
    if from == |s| || !IsWhitespace(s[from]) then from
    else
      var i := ContentStart(s, from + 1);
      assert forall k :: 0 <= k < i - from ==> s[from..i][k] == s[from + k];
      i
  }

  /** The index just past the last character of `s[lo..upto]` that is not
      whitespace, or `lo` when there is none. */
  function ContentEnd(s: string, lo: nat, upto: nat): (j: nat)
    requires lo <= upto <= |s|
    ensures lo <= j <= upto
    ensures AllWhitespace(s[j..upto])
    ensures j > lo ==> !IsWhitespace(s[j - 1])
    decreases upto - lo
  {
    if upto == lo || !IsWhitespace(s[upto - 1]) then upto
    else
      var j := ContentEnd(s, lo, upto - 1);
      assert forall k :: 0 <= k < upto - j ==> s[j..upto][k] == s[j + k];
      j
  }

  /** `s.trim()`: `s` without its leading and trailing whitespace. */
  function Trim(s: string): (r: string)
    ensures |r| <= |s|
    ensures r != [] ==> !IsWhitespace(r[0]) && !IsWhitespace(r[|r| - 1])
    ensures exists i, j ::
              0 <= i <= j <= |s| && r == s[i..j] && AllWhitespace(s[..i]) && AllWhitespace(s[j..])
  {
    var i := ContentStart(s, 0);
    var j := ContentEnd(s, i, |s|);
    assert s[0..i] == s[..i];
    assert s[j..|s|] == s[j..];
    s[i..j]
  }

  /** A string that `trim` empties is made of whitespace only, and the other
      way round: the `!description.trim()` guard rejects exactly the blank
      descriptions. */
  lemma TrimEmptyIffBlank(s: string)
    ensures Trim(s) == "" <==> AllWhitespace(s)
  {
    var i := ContentStart(s, 0);
    var j := ContentEnd(s, i, |s|);
    assert s[0..i] == s[..i];
    if Trim(s) == "" {
      assert j == i;
      forall k | 0 <= k < |s| ensures IsWhitespace(s[k]) {
        if k < i {
          assert s[..i][k] == s[k];
        } else {
          assert s[j..|s|][k - j] == s[k];
        }
      }
    }
    if AllWhitespace(s) {
      assert i == |s|;
    }
  }

  /** Trimming twice is trimming once. */
  lemma TrimIdempotent(s: string)
    ensures Trim(Trim(s)) == Trim(s)
  {
    var t := Trim(s);
    if t != [] {
      var i := ContentStart(t, 0);
      assert i == 0;
      var j := ContentEnd(t, 0, |t|);
      assert j == |t|;
      assert t[0..|t|] == t;
    }
  }

  predicate IsDigit(c: char) {
    '0' <= c <= '9'
  }

  predicate AllDigits(s: string) {
    forall k :: 0 <= k < |s| ==> IsDigit(s[k])
  }

  function DigitChar(d: nat): (c: char)
    requires d < 10
    ensures IsDigit(c)
  {
    (48 + d) as char
  }

  function DigitValue(c: char): (d: nat)
    requires IsDigit(c)
    ensures d < 10
  {
    c as int - 48
  }

  /** The number of decimal digits of `n`. */
  function DigitCount(n: nat): (k: nat)
    ensures k >= 1
  {
    if n < 10 then 1 else 1 + DigitCount(n / 10)
  }

  /** A number below `10^k` has at most `k` digits. */
  lemma {:induction false} DigitCountBound(n: nat, k: nat)
    requires k >= 1 && n < Pow10(k)
    ensures DigitCount(n) <= k
  {
    if n >= 10 {
      assert k >= 2;
      DigitCountBound(n / 10, k - 1);
    }
  }

  /** A number of at least `10^(k-1)` has at least `k` digits. */
  lemma {:induction false} DigitCountAtLeast(n: nat, k: nat)
    requires k >= 1 && n >= Pow10(k - 1)
    ensures DigitCount(n) >= k
  {
    if k > 1 {
      assert n >= 10;
      DigitCountAtLeast(n / 10, k - 1);
    }
  }

  /** `String(n)` for a non-negative integer: its decimal digits, with no
      leading zero. */
  function NatText(n: nat): (r: string)
    ensures |r| == DigitCount(n)
    ensures AllDigits(r)
    ensures r[0] != '0' || n == 0
  {
    if n < 10 then [DigitChar(n)]
    else
      var r := NatText(n / 10) + [DigitChar(n % 10)];
      assert forall k :: 0 <= k < |r| - 1 ==> r[k] == NatText(n / 10)[k];
      r
  }

  /** `String(i)` for an integer. */
  function IntText(i: int): string {
    if i < 0 then "-" + NatText(-i) else NatText(i)
  }

  /** The value of a string of decimal digits (0 for the empty string). */
  function DigitsValue(s: string): nat
    requires AllDigits(s)
  {
    if s == [] then 0 else 10 * DigitsValue(s[..|s| - 1]) + DigitValue(s[|s| - 1])
  }

  /** Reading back what `NatText` wrote gives the number. */
  lemma {:induction false} NatTextValue(n: nat)
    ensures DigitsValue(NatText(n)) == n
  {
    if n >= 10 {
      var r := NatText(n);
      assert r[..|r| - 1] == NatText(n / 10);
      NatTextValue(n / 10);
    }
  }

  /** `parseInt(s)` on the decimal text of an integer: digits with an
      optional leading minus sign; `None` (NaN) on any other text. */
  function ParseDecimal(s: string): (r: Option<int>)
    ensures r.Some? <==> (s != "" && AllDigits(s)) || (|s| >= 2 && s[0] == '-' && AllDigits(s[1..]))
    ensures r.Some? && s[0] != '-' ==> r.value >= 0
  {
    if s != "" && AllDigits(s) then Some(DigitsValue(s))
    else if |s| >= 2 && s[0] == '-' && AllDigits(s[1..]) then Some(-(DigitsValue(s[1..]) as int))
    else None
  }

  /** `parseInt(String(i)) === i`. */
  lemma ParseIntText(i: int)
    ensures ParseDecimal(IntText(i)) == Some(i)
  {
    var r := IntText(i);
    if i < 0 {
      assert r == "-" + NatText(-i);
      assert r[1..] == NatText(-i);
      assert !IsDigit(r[0]);
      NatTextValue(-i);
    } else {
      assert r == NatText(i);
      NatTextValue(i);
    }
  }

  /** `s` when it is at least `width` long, otherwise `s` after enough copies
      of `fill` to make it `width` long: `s.padStart(width, fill)`. */
  function PadStart(s: string, width: nat, fill: char): (r: string)
    ensures |r| == if |s| >= width then |s| else width
    ensures r[|r| - |s|..] == s
    ensures forall k :: 0 <= k < |r| - |s| ==> r[k] == fill
  {
    if |s| >= width then s else seq(width - |s|, _ => fill) + s
  }

  lemma {:induction false} DigitsValueConcat(a: string, b: string)
    requires AllDigits(a) && AllDigits(b)
    ensures AllDigits(a + b)
    ensures DigitsValue(a + b) == DigitsValue(a) * Pow10(|b|) + DigitsValue(b)
    decreases |b|
  {
    assert AllDigits(a + b) by {
      forall k | 0 <= k < |a + b| ensures IsDigit((a + b)[k]) {
        if k >= |a| {
          assert (a + b)[k] == b[k - |a|];
        }
      }
    }
    if b == [] {
      assert a + b == a;
    } else {
      var b' := b[..|b| - 1];
      assert (a + b)[..|a + b| - 1] == a + b';
      DigitsValueConcat(a, b');
      var x, p, y, d := DigitsValue(a), Pow10(|b'|), DigitsValue(b'), DigitValue(b[|b| - 1]);
      assert DigitsValue(a + b) == 10 * (x * p + y) + d;
      assert DigitsValue(b) == 10 * y + d;
      assert Pow10(|b|) == 10 * p;
      Regroup(x, p, y, d);
    }
  }

  lemma Regroup(x: int, p: int, y: int, d: int)
    ensures 10 * (x * p + y) + d == x * (10 * p) + (10 * y + d)
  {
  }

  function Pow10(k: nat): (p: nat)
    ensures p >= 1
  {
    if k == 0 then 1 else 10 * Pow10(k - 1)
  }

  lemma {:induction false} ZerosValue(k: nat)
    ensures AllDigits(seq(k, _ => '0'))
    ensures DigitsValue(seq(k, _ => '0')) == 0
  {
    if k > 0 {
      var z := seq(k, _ => '0');
      assert z[..k - 1] == seq(k - 1, _ => '0');
      ZerosValue(k - 1);
    }
  }

  /** Padding a number's digits with zeros does not change the value they
      spell. */
  lemma PaddedValue(n: nat, width: nat)
    ensures AllDigits(PadStart(NatText(n), width, '0'))
    ensures DigitsValue(PadStart(NatText(n), width, '0')) == n
  {
    var t := NatText(n);
    NatTextValue(n);
    if |t| < width {
      var z := seq(width - |t|, _ => '0');
      ZerosValue(width - |t|);
      DigitsValueConcat(z, t);
    }
  }

  /** `xs.join(sep)` for a one-character separator. */
  function Join(xs: seq<string>, sep: char): string
  {
    if xs == [] then ""
    else if |xs| == 1 then xs[0]
    else xs[0] + [sep] + Join(xs[1..], sep)
  }

  /** A character other than the separator that no piece holds is not in
      the joined text either. */
  lemma {:induction false} NotInJoin(xs: seq<string>, sep: char, c: char)
    requires c != sep
    requires forall k :: 0 <= k < |xs| ==> c !in xs[k]
    ensures c !in Join(xs, sep)
  {
    if |xs| > 1 {
      NotInJoin(xs[1..], sep, c);
    }
  }

  /** A piece that holds the separator joins to the same text as its two
      halves side by side. */
  lemma {:induction false} JoinCutPiece(xs: seq<string>, i: nat, a: string, b: string, sep: char)
    requires i < |xs| && xs[i] == a + [sep] + b
    ensures Join(xs[..i] + [a, b] + xs[i + 1..], sep) == Join(xs, sep)
  {
    var ys := xs[..i] + [a, b] + xs[i + 1..];
    if i == 0 {
      assert ys[1..] == [b] + xs[1..];
      if |xs| > 1 {
        assert ys[1..][1..] == xs[1..];
      }
    } else {
      JoinCutPiece(xs[1..], i - 1, a, b, sep);
      assert ys[1..] == xs[1..][..i - 1] + [a, b] + xs[1..][i..];
    }
  }

  /** The test `c === sep`. */
  function IsChar(sep: char): char -> bool {
    c => c == sep
  }

  /** `s.split(sep)` for a one-character separator: the pieces between the
      separators, never an empty list. */
  function Split(s: string, sep: char): (r: seq<string>)
    ensures |r| >= 1
    decreases |s|
  {
    var i := Seqs.IndexWhere(s, IsChar(sep));
    if i == |s| then [s] else [s[..i]] + Split(s[i + 1..], sep)
  }

  lemma {:induction false} IndexOfSeparator(a: string, b: string, sep: char)
    requires sep !in a
    ensures Seqs.IndexWhere(a + [sep] + b, IsChar(sep)) == |a|
  {
    var s := a + [sep] + b;
    var i := Seqs.IndexWhere(s, IsChar(sep));
    assert IsChar(sep)(s[|a|]);
    forall k | 0 <= k < |a| ensures !IsChar(sep)(s[k]) {
      assert s[k] == a[k];
      assert a[k] in a;
    }
  }

  /** A text without the separator splits into itself alone. */
  lemma SplitWithout(a: string, sep: char)
    requires sep !in a
    ensures Split(a, sep) == [a]
  {
    forall k | 0 <= k < |a| ensures !IsChar(sep)(a[k]) {
      assert a[k] in a;
    }
  }

  /** Splitting cuts at the first separator. */
  lemma SplitAtFirst(a: string, b: string, sep: char)
    requires sep !in a
    ensures Split(a + [sep] + b, sep) == [a] + Split(b, sep)
  {
    var s := a + [sep] + b;
    IndexOfSeparator(a, b, sep);
    assert s[..|a|] == a;
    assert s[|a| + 1..] == b;
  }

  /** Splitting what `Join` built recovers the pieces, provided no piece
      holds the separator. */
  lemma {:induction false} SplitJoin(xs: seq<string>, sep: char)
    requires |xs| >= 1
    requires forall k :: 0 <= k < |xs| ==> sep !in xs[k]
    ensures Split(Join(xs, sep), sep) == xs
  {
    if |xs| == 1 {
      SplitWithout(xs[0], sep);
    } else {
      SplitAtFirst(xs[0], Join(xs[1..], sep), sep);
      SplitJoin(xs[1..], sep);
    }
  }

  /** `SplitJoin` for a first line followed by further lines. */
  lemma SplitJoinLines(first: string, rest: seq<string>, sep: char)
    requires sep !in first
    requires forall k :: 0 <= k < |rest| ==> sep !in rest[k]
    ensures Split(Join([first] + rest, sep), sep) == [first] + rest
  {
    var xs := [first] + rest;
    assert forall k :: 1 <= k < |xs| ==> xs[k] == rest[k - 1];
    SplitJoin(xs, sep);
  }

  /** `c.toUpperCase()` for the ASCII letters. */
  function UpperAscii(c: char): char {
    if 'a' <= c <= 'z' then (c as int - 32) as char else c
  }

  /** `s.charAt(0).toUpperCase() + s.slice(1)`. */
  function Capitalize(s: string): (r: string)
    ensures |r| == |s|
    ensures r != [] ==> r[0] == UpperAscii(s[0]) && r[1..] == s[1..]
  {
    if s == [] then "" else [UpperAscii(s[0])] + s[1..]
  }
}
