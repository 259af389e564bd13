/**
 * String helpers shared by the routes and the page: ASCII case mapping
 * (`toUpperCase` / `toLowerCase`), decimal rendering of integers (template
 * literals), JavaScript's `parseInt` without a radix, and `join` / `split`
 * on one separator character.
 */
module Strings {
  import opened Wrappers

  // ---------------------------------------------------------------------------
  // Case mapping (ASCII letters only)
  // ---------------------------------------------------------------------------

  predicate IsAsciiLower(c: char) { 'a' <= c <= 'z' }

  predicate IsAsciiUpper(c: char) { 'A' <= c <= 'Z' }

  function UpperChar(c: char): (u: char)
    ensures !IsAsciiLower(u)
    ensures !IsAsciiLower(c) ==> u == c
  {
    if IsAsciiLower(c) then (c as int - 32) as char else c
  }

  function LowerChar(c: char): (l: char)
    ensures !IsAsciiUpper(l)
    ensures !IsAsciiUpper(c) ==> l == c
  {
    if IsAsciiUpper(c) then (c as int + 32) as char else c
  }

  /** No ASCII lower-case letter occurs in `s`. */
  predicate NoLower(s: string) { forall i :: 0 <= i < |s| ==> !IsAsciiLower(s[i]) }

  /** No ASCII upper-case letter occurs in `s`. */
  predicate NoUpper(s: string) { forall i :: 0 <= i < |s| ==> !IsAsciiUpper(s[i]) }

  /** `s.toUpperCase()` on the ASCII letters. */
  function ToUpper(s: string): (r: string)
    ensures |r| == |s|
    ensures NoLower(r)
  {
    if s == [] then [] else [UpperChar(s[0])] + ToUpper(s[1..])
  }

  /** `s.toLowerCase()` on the ASCII letters. */
  function ToLower(s: string): (r: string)
    ensures |r| == |s|
    ensures NoUpper(r)
  {
    if s == [] then [] else [LowerChar(s[0])] + ToLower(s[1..])
  }

  /** A string without lower-case letters is its own upper-casing. */
  lemma {:induction false} ToUpperFixesNoLower(s: string)
    requires NoLower(s)
    ensures ToUpper(s) == s
  {
    if s != [] {
      assert NoLower(s[1..]) by {
        forall i | 0 <= i < |s[1..]| ensures !IsAsciiLower(s[1..][i]) { assert s[1..][i] == s[i + 1]; }
      }
      ToUpperFixesNoLower(s[1..]);
    }
  }

  /** Upper-casing is idempotent. */
  lemma ToUpperIdempotent(s: string)
    ensures ToUpper(ToUpper(s)) == ToUpper(s)
  {
    ToUpperFixesNoLower(ToUpper(s));
  }

  /** Each character of the upper-casing is the upper-casing of the character at the same place. */
  lemma {:induction false} ToUpperAt(s: string, i: nat)
    requires i < |s|
    ensures ToUpper(s)[i] == UpperChar(s[i])
  {
    if i > 0 { ToUpperAt(s[1..], i - 1); }
  }

  /** A string without upper-case letters is its own lower-casing. */
  lemma {:induction false} ToLowerFixesNoUpper(s: string)
    ensures NoUpper(s) ==> ToLower(s) == s
  {
    if s != [] && NoUpper(s) {
      assert NoUpper(s[1..]) by {
        forall i | 0 <= i < |s[1..]| ensures !IsAsciiUpper(s[1..][i]) { assert s[1..][i] == s[i + 1]; }
      }
      ToLowerFixesNoUpper(s[1..]);
    }
  }

  /** Each character of the lower-casing is the lower-casing of the character at the same place. */
  lemma {:induction false} ToLowerAt(s: string, i: nat)
    requires i < |s|
    ensures ToLower(s)[i] == LowerChar(s[i])
  {
    if i > 0 { ToLowerAt(s[1..], i - 1); }
  }

  // ---------------------------------------------------------------------------
  // Decimal rendering (`${n}` for an integer-valued number)
  // ---------------------------------------------------------------------------

  predicate IsDecimalDigit(c: char) { '0' <= c <= '9' }

  function DigitChar(d: nat): (c: char)
    requires d < 10
    ensures IsDecimalDigit(c)
  {
    ('0' as int + d) as char
  }

  /** The decimal digits of `n`, most significant first, without leading zeros. */
  function Decimal(n: nat): (r: string)
    ensures |r| >= 1
    ensures forall i :: 0 <= i < |r| ==> IsDecimalDigit(r[i])
    ensures r[0] == '0' <==> n == 0
    ensures r[0] == '0' ==> |r| == 1
    decreases n
  {
    if n < 10 then [DigitChar(n)] else Decimal(n / 10) + [DigitChar(n % 10)]
  }

  /** `${i}` for an integer: a minus sign before the digits of a negative number. */
  function IntText(i: int): (r: string)
    ensures |r| >= 1
    ensures (r[0] == '-') <==> i < 0
  {
    if i < 0 then "-" + Decimal(-i) else Decimal(i)
  }

  /** `${x}` for the result of `parseInt`: `NaN` when nothing was parsed. */
  function NumberText(x: Option<int>): string {
    match x
    case None => "NaN"
    case Some(i) => IntText(i)
  }

  // ---------------------------------------------------------------------------
  // parseInt(s) with no radix argument
  // ---------------------------------------------------------------------------

  /** The white space `parseInt` skips: the ECMAScript WhiteSpace and LineTerminator characters. */
  predicate IsJsWhiteSpace(c: char) {
    c == ' ' || c == '\t' || c == '\n' || c == '\r' || c == '\U{B}' || c == '\U{C}'
    || c == '\U{A0}' || c == '\U{1680}' || ('\U{2000}' <= c <= '\U{200A}')
    || c == '\U{2028}' || c == '\U{2029}' || c == '\U{202F}' || c == '\U{205F}'
    || c == '\U{3000}' || c == '\U{FEFF}'
  }

  /** `s` without its leading white space. */
  function TrimStart(s: string): (r: string)
    ensures |r| <= |s| && r == s[|s| - |r|..]
    ensures r == [] || !IsJsWhiteSpace(r[0])
    ensures forall i :: 0 <= i < |s| - |r| ==> IsJsWhiteSpace(s[i])
  {
    if s != [] && IsJsWhiteSpace(s[0]) then TrimStart(s[1..]) else s
  }

  /** The value of `c` as a digit in base `radix` (10 or 16, either letter case). */
  function DigitValue(c: char, radix: nat): (d: Option<nat>)
    ensures d.Some? ==> d.value < radix
  {
    if '0' <= c <= '9' && (c as int - '0' as int) < radix then Some(c as int - '0' as int)
    else if radix == 16 && 'a' <= c <= 'f' then Some(c as int - 'a' as int + 10)
    else if radix == 16 && 'A' <= c <= 'F' then Some(c as int - 'A' as int + 10)
    else None
  }

  /** The longest prefix of `s` made of base-`radix` digits. */
  function DigitRun(s: string, radix: nat): (r: string)
    ensures |r| <= |s| && r == s[..|r|]
    ensures forall i :: 0 <= i < |r| ==> DigitValue(r[i], radix).Some?
    ensures |r| < |s| ==> DigitValue(s[|r|], radix).None?
  {
    if s != [] && DigitValue(s[0], radix).Some? then [s[0]] + DigitRun(s[1..], radix) else []
  }

  /** The number a run of base-`radix` digits denotes, read most significant digit first. */
  function DigitsValue(ds: string, radix: nat): nat
    requires forall i :: 0 <= i < |ds| ==> DigitValue(ds[i], radix).Some?
  {
    if ds == [] then 0
    else DigitsValue(ds[..|ds| - 1], radix) * radix + DigitValue(ds[|ds| - 1], radix).value
  }

  /** Drops one leading sign; the flag says whether it was a minus. */
  function SplitSign(t: string): (r: (bool, string))
    ensures r.0 <==> |t| > 0 && t[0] == '-'
    ensures r.1 == if |t| > 0 && (t[0] == '-' || t[0] == '+') then t[1..] else t
  {
    if |t| > 0 && (t[0] == '-' || t[0] == '+') then (t[0] == '-', t[1..]) else (false, t)
  }

  /** Base 16 and the rest after a `0x` / `0X` prefix, otherwise base 10 and all of `u`. */
  function SplitRadix(u: string): (r: (nat, string))
    ensures r.0 == 10 || r.0 == 16
    ensures r.0 == 16 <==> |u| >= 2 && u[0] == '0' && (u[1] == 'x' || u[1] == 'X')
    ensures r.1 == if r.0 == 16 then u[2..] else u
  {
    if |u| >= 2 && u[0] == '0' && (u[1] == 'x' || u[1] == 'X') then (16, u[2..]) else (10, u)
  }

  /** The unsigned part of `parseInt`: an optional `0x` prefix, then the longest digit run. */
  function ParseMagnitude(u: string): Option<nat>
  {
    var (radix, w) := SplitRadix(u);
    var ds := DigitRun(w, radix);
    if ds == [] then None else Some(DigitsValue(ds, radix))
  }

  /**
   * `parseInt(s)`: skip leading white space, take one optional sign, switch to base 16
   * after a `0x` / `0X` prefix, then read the longest run of digits; `None` is `NaN`,
   * the answer when that run is empty.
   */
  function ParseInt(s: string): Option<int>
  {
    ParseTrimmed(TrimStart(s))
  }

  /** `parseInt` after the leading white space is gone. */
  function ParseTrimmed(t: string): Option<int>
  {
    var sign := SplitSign(t);
    var m := ParseMagnitude(sign.1);
    if m.None? then None else Some(if sign.0 then -(m.value as int) else m.value as int)
  }

  /** The digits of a string that starts with a digit other than a `0x` prefix are read in base 10. */
  lemma MagnitudeOfDigits(s: string)
    requires forall i :: 0 <= i < |s| ==> DigitValue(s[i], 10).Some?
    requires |s| >= 1 && !(s[0] == '0' && |s| >= 2)
    ensures ParseMagnitude(s) == Some(DigitsValue(s, 10))
  {
    assert SplitRadix(s) == (10, s);
    DigitRunOfDigits(s, 10);
  }

  lemma {:induction false} DigitRunOfDigits(s: string, radix: nat)
    requires forall i :: 0 <= i < |s| ==> DigitValue(s[i], radix).Some?
    ensures DigitRun(s, radix) == s
  {
    if s != [] {
      DigitRunOfDigits(s[1..], radix);
    }
  }

  lemma {:induction false} DecimalValue(n: nat)
    ensures forall i :: 0 <= i < |Decimal(n)| ==> DigitValue(Decimal(n)[i], 10).Some?
    ensures DigitsValue(Decimal(n), 10) == n
    decreases n
  {
    var r := Decimal(n);
    if n >= 10 {
      DecimalValue(n / 10);
      assert r[..|r| - 1] == Decimal(n / 10);
    }
  }

  /** A string that starts with a digit has no leading white space to skip. */
  lemma TrimStartOfDigit(s: string)
    requires |s| >= 1 && IsDecimalDigit(s[0])
    ensures TrimStart(s) == s
  {
    assert !IsJsWhiteSpace(s[0]);
  }

  lemma MagnitudeOfDecimal(n: nat)
    ensures ParseMagnitude(Decimal(n)) == Some(n)
  {
    DecimalValue(n);
    MagnitudeOfDigits(Decimal(n));
  }

  /** The page's `&limit=${limit}` is read back by `parseInt` as the same number. */
  lemma ParseIntDecimal(n: nat)
    ensures ParseInt(Decimal(n)) == Some(n)
  {
    var s := Decimal(n);
    TrimStartOfDigit(s);
    MagnitudeOfDecimal(n);
    assert SplitSign(s) == (false, s);
  }

  /** `parseInt` reads back every integer rendered by `${i}`. */
  lemma ParseIntText(i: int)
    ensures ParseInt(IntText(i)) == Some(i)
  {
    if i < 0 {
      var n: nat := -i;
      assert IntText(i) == "-" + Decimal(n);
      ParseIntNegative(n);
    } else {
      assert IntText(i) == Decimal(i);
      ParseIntDecimal(i);
    }
  }

  /** A minus sign before the digits of n is read as -n. */
  lemma ParseIntNegative(n: nat)
    ensures ParseInt("-" + Decimal(n)) == Some(-(n as int))
  {
    var d := Decimal(n);
    var s := "-" + d;
    assert s[0] == '-' && s[1..] == d;
    assert TrimStart(s) == s by { assert !IsJsWhiteSpace(s[0]); }
    assert SplitSign(s) == (true, d);
    MagnitudeOfDecimal(n);
  }

  // ---------------------------------------------------------------------------
  // join / split on one separator character
  // ---------------------------------------------------------------------------

  /** `xs.join(sep)`. */
  function Join(xs: seq<string>, sep: char): string
  {
    if |xs| == 0 then "" else if |xs| == 1 then xs[0] else xs[0] + [sep] + Join(xs[1..], sep)
  }

  /** The position of the first `c` in `s`, or `|s|` when there is none. */
  function IndexOf(s: string, c: char): (i: nat)
    ensures i <= |s|
    ensures i < |s| ==> s[i] == c
    ensures forall j :: 0 <= j < i ==> s[j] != c
  {
    if s == [] then 0 else if s[0] == c then 0 else 1 + IndexOf(s[1..], c)
  }

  /** The first `c` in `a + [c] + b` is the one after `a` when `a` has none. */
  lemma IndexOfAfter(a: string, c: char, b: string)
    requires c !in a
    ensures IndexOf(a + [c] + b, c) == |a|
  {
    var s := a + [c] + b;
    assert s[|a|] == c;
    forall k | 0 <= k < |a| ensures s[k] != c { assert s[k] == a[k]; }
  }

  /** `s.split(sep)`: the pieces between the separators, at least one. */
  function Split(s: string, sep: char): (r: seq<string>)
    ensures |r| >= 1
    decreases |s|
  {
    var i := IndexOf(s, sep);
    if i == |s| then [s] else [s[..i]] + Split(s[i + 1..], sep)
  }

  /** Splitting around the one separator of `a + [sep] + b`. */
  lemma SplitAround(a: string, sep: char, b: string)
    requires sep !in a && sep !in b
    ensures Split(a + [sep] + b, sep) == [a, b]
  {
    var s := a + [sep] + b;
    IndexOfAfter(a, sep, b);
    assert s[..|a|] == a && s[|a| + 1..] == b;
  }

  /** Every character of a join is the separator or a character of one of the parts. */
  lemma {:induction false} JoinChars(xs: seq<string>, sep: char, k: nat)
    requires k < |Join(xs, sep)|
    ensures Join(xs, sep)[k] == sep || exists x :: x in xs && Join(xs, sep)[k] in x
  {
    var j := Join(xs, sep);
    assert xs[0] in xs;
    if |xs| >= 2 {
      if k < |xs[0]| {
        assert j[k] == xs[0][k];
      } else if k > |xs[0]| {
        assert j[k] == Join(xs[1..], sep)[k - |xs[0]| - 1];
        JoinChars(xs[1..], sep, k - |xs[0]| - 1);
        assert forall x :: x in xs[1..] ==> x in xs;
      }
    }
  }

  /** Splitting a join recovers the parts when no part holds the separator. */
  lemma {:induction false} SplitJoin(xs: seq<string>, sep: char)
    requires |xs| >= 1
    requires forall x :: x in xs ==> sep !in x
    ensures Split(Join(xs, sep), sep) == xs
  {
    var j := Join(xs, sep);
    if |xs| == 1 {
      assert xs[0] in xs && j == xs[0];
      assert IndexOf(j, sep) == |j|;
    } else {
      var x := xs[0];
      assert sep !in x;
      assert IndexOf(j, sep) == |x| by {
        assert j[|x|] == sep;
        assert forall m :: 0 <= m < |x| ==> j[m] == x[m];
      }
      assert j[..|x|] == x;
      assert j[|x| + 1..] == Join(xs[1..], sep);
      SplitJoin(xs[1..], sep);
    }
  }
}
