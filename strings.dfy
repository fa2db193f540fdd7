/**
 * Text helpers used by the device record and the workflow: Java's
 * `String.equalsIgnoreCase`, restricted to ASCII case mapping, and the decimal
 * rendering of numbers that `LocalDate.toString` relies on.
 */
module Strings {

  datatype Option<T> = None | Some(value: T)

  /** ASCII `Character.toUpperCase`: only 'a'..'z' move. */
  function ToUpper(c: char): (u: char)
    ensures 'a' <= c <= 'z' ==> 'A' <= u <= 'Z' && u as int == c as int - 32
    ensures !('a' <= c <= 'z') ==> u == c
  {
    if 'a' <= c <= 'z' then (c as int - 32) as char else c
  }

  /** ASCII `Character.toLowerCase`: only 'A'..'Z' move. */
  function ToLower(c: char): (l: char)
    ensures 'A' <= c <= 'Z' ==> 'a' <= l <= 'z' && l as int == c as int + 32
    ensures !('A' <= c <= 'Z') ==> l == c
  {
    if 'A' <= c <= 'Z' then (c as int + 32) as char else c
  }

  /** The case-folded key of an identifier: every character lower-cased. */
  function Key(s: string): (k: string)
    ensures |k| == |s|
    ensures forall i :: 0 <= i < |s| ==> k[i] == ToLower(s[i])
  {
    seq(|s|, i requires 0 <= i < |s| => ToLower(s[i]))
  }

  /**
   * The per-character test of `regionMatches(true, ...)`: equal, or equal
   * after upper-casing, or equal after upper- then lower-casing. Under ASCII
   * case mapping this is agreement of the lower-case forms.
   */
  function CharEqualsIgnoreCase(a: char, b: char): (r: bool)
    ensures r <==> ToLower(a) == ToLower(b)
  {
    a == b || ToUpper(a) == ToUpper(b) || ToLower(ToUpper(a)) == ToLower(ToUpper(b))
  }

  /**
   * `a.equalsIgnoreCase(b)`: same length and pairwise equal ignoring case,
   * which is the same as having equal keys.
   */
  function EqualsIgnoreCase(a: string, b: string): (r: bool)
    ensures r <==> Key(a) == Key(b)
  {
    |a| == |b| && forall i :: 0 <= i < |a| ==> CharEqualsIgnoreCase(a[i], b[i])
  }

  predicate StartsWith(s: string, prefix: string)
  {
    |prefix| <= |s| && s[..|prefix|] == prefix
  }

  predicate EndsWith(s: string, suffix: string)
  {
    |suffix| <= |s| && s[|s| - |suffix|..] == suffix
  }

  lemma PrefixOfConcat(a: string, b: string)
    ensures StartsWith(a + b, a)
  {
    assert (a + b)[..|a|] == a;
  }

  lemma SuffixOfConcat(a: string, b: string)
    ensures EndsWith(a + b, b)
  {
    assert (a + b)[|a|..] == b;
  }

  lemma StartsWithTransitive(a: string, b: string, c: string)
    requires StartsWith(a, b) && StartsWith(b, c)
    ensures StartsWith(a, c)
  {
    assert a[..|c|] == b[..|b|][..|c|];
  }

  /** A common tail may be appended to a string and its suffix alike. */
  lemma EndsWithAppend(a: string, b: string, c: string)
    requires EndsWith(a, b)
    ensures EndsWith(a + c, b + c)
  {
    assert (a + c)[|a + c| - |b + c|..] == a[|a| - |b|..] + c;
  }

  /** `a + b + c` starts with `a` and ends with `c`. */
  lemma Framed(a: string, b: string, c: string)
    ensures StartsWith(a + b + c, a) && EndsWith(a + b + c, c)
  {
    assert (a + b + c)[..|a|] == a;
    assert (a + b + c)[|a + b|..] == c;
  }

  /** What string concatenation writes for a Java `String` that may be null. */
  function NullableText(s: Option<string>): string
  {
    match s
    case None => "null"
    case Some(v) => v
  }

  // Decimal rendering of numbers

  function DigitChar(d: nat): (c: char)
    requires d < 10
    ensures '0' <= c <= '9' && c as int - '0' as int == d
  {
    (d + '0' as int) as char
  }

  predicate IsDigits(s: string)
  {
    forall i :: 0 <= i < |s| ==> '0' <= s[i] <= '9'
  }

  /** The value of a string of decimal digits, most significant first. */
  function DigitsValue(s: string): nat
    requires IsDigits(s)
  {
    if s == [] then 0 else 10 * DigitsValue(s[..|s| - 1]) + (s[|s| - 1] as int - '0' as int)
  }

  /** `Integer.toString` of a non-negative number: no leading zeros. */
  function NatText(n: nat): string
  {
    if n < 10 then [DigitChar(n)] else NatText(n / 10) + [DigitChar(n % 10)]
  }

  /** `NatText` writes at least one digit, and no leading zero. */
  lemma {:induction false} NatTextDigits(n: nat)
    ensures 1 <= |NatText(n)| && IsDigits(NatText(n))
    ensures |NatText(n)| > 1 ==> NatText(n)[0] != '0'
  {
    if n >= 10 {
      NatTextDigits(n / 10);
    }
  }

  /** Numbers below 10000 take at most four digits, and exactly four from 1000 on; fewer below 1000, 100 and 10. */
  lemma {:induction false} NatTextShort(n: nat)
    requires n < 10000
    ensures |NatText(n)| <= 4
    ensures n >= 1000 ==> |NatText(n)| == 4
    ensures n < 1000 ==> |NatText(n)| <= 3
    ensures n < 100 ==> |NatText(n)| <= 2
    ensures n < 10 ==> |NatText(n)| == 1
  {
    if n >= 10 {
      NatTextShort(n / 10);
      if n >= 100 {
        NatTextShort(n / 100);
      }
    }
  }

  /** Reading back the digits of `NatText(n)` gives `n`. */
  lemma {:induction false} NatTextRoundTrip(n: nat)
    ensures IsDigits(NatText(n)) && DigitsValue(NatText(n)) == n
  {
    NatTextDigits(n);
    if n >= 10 {
      NatTextRoundTrip(n / 10);
      var r := NatText(n);
      assert r[..|r| - 1] == NatText(n / 10);
    }
  }

  /** A leading zero does not change the value of a digit string. */
  lemma {:induction false} LeadingZero(s: string)
    requires IsDigits(s)
    ensures IsDigits("0" + s) && DigitsValue("0" + s) == DigitsValue(s)
  {
    if s != [] {
      var t := "0" + s;
      assert t[..|t| - 1] == "0" + s[..|s| - 1];
      LeadingZero(s[..|s| - 1]);
    }
  }

  /** Left-pads `s` with '0' up to width `w`. */
  function ZeroPad(s: string, w: nat): string
    decreases w - |s|
  {
    if |s| >= w then s else ZeroPad("0" + s, w)
  }

  /** The padded string has width at least `w`, ends with `s`, and is zeros before it. */
  lemma {:induction false} ZeroPadShape(s: string, w: nat)
    ensures |ZeroPad(s, w)| == if |s| >= w then |s| else w
    ensures EndsWith(ZeroPad(s, w), s)
    ensures forall i :: 0 <= i < |ZeroPad(s, w)| - |s| ==> ZeroPad(s, w)[i] == '0'
    decreases w - |s|
  {
    if |s| < w {
      var t := "0" + s;
      var r := ZeroPad(s, w);
      assert r == ZeroPad(t, w);
      ZeroPadShape(t, w);
      assert r[|r| - |t|..] == t;
      assert r[|r| - |s|..] == t[1..];
      forall i | 0 <= i < |r| - |s| ensures r[i] == '0' {
        if i == |r| - |t| {
          assert r[i] == t[0];
        }
      }
    } else {
      assert s[|s| - |s|..] == s;
    }
  }

  /** Padding a digit string with zeros keeps its value. */
  lemma {:induction false} ZeroPadValue(s: string, w: nat)
    requires IsDigits(s)
    ensures IsDigits(ZeroPad(s, w)) && DigitsValue(ZeroPad(s, w)) == DigitsValue(s)
    decreases w - |s|
  {
    if |s| < w {
      LeadingZero(s);
      ZeroPadValue("0" + s, w);
    }
  }
  /** Below 100, padding to width two gives exactly two digits that read back as `n`. */
  lemma TwoDigitRoundTrip(n: nat)
    requires n < 100
    ensures |ZeroPad(NatText(n), 2)| == 2
    ensures IsDigits(ZeroPad(NatText(n), 2)) && DigitsValue(ZeroPad(NatText(n), 2)) == n
  {
    NatTextRoundTrip(n);
    NatTextShort(n);
    NatTextDigits(n);
    ZeroPadShape(NatText(n), 2);
    ZeroPadValue(NatText(n), 2);
  }

}
