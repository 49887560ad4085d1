/**
 * The Python `str` builtins that the passphrase engine calls, on ASCII text:
 * `lower`, `upper`, `capitalize`, `islower`, `isupper`, `istitle`, `strip`,
 * `join`, `count` of a substring, `str` of an integer and `int` of a string.
 */
module Text {
  import opened Wrappers

  predicate IsUpperChar(c: char) { 'A' <= c <= 'Z' }
  predicate IsLowerChar(c: char) { 'a' <= c <= 'z' }
  predicate IsCasedChar(c: char) { IsUpperChar(c) || IsLowerChar(c) }
  predicate IsDigitChar(c: char) { '0' <= c <= '9' }

  /** `str.isspace` on ASCII: tab to carriage return (9-13), the separators 28-31, and space. */
  predicate IsSpaceChar(c: char) {
    var n := c as int;
    n == 32 || 9 <= n <= 13 || 28 <= n <= 31
  }

  /** Every character of `s` avoids `bad`. */
  predicate Avoids(s: string, bad: char -> bool) {
    forall i :: 0 <= i < |s| ==> !bad(s[i])
  }

  predicate AllDigits(s: string) {
    forall i :: 0 <= i < |s| ==> IsDigitChar(s[i])
  }

  predicate AllCased(s: string) {
    forall i :: 0 <= i < |s| ==> IsCasedChar(s[i])
  }

  // ---------------------------------------------------------------------------
  // Case mapping

  function LowerChar(c: char): (r: char)
    ensures !IsUpperChar(r)
    ensures IsCasedChar(r) <==> IsCasedChar(c)
  {
    if IsUpperChar(c) then (c as int + 32) as char else c
  }

  function UpperChar(c: char): (r: char)
    ensures !IsLowerChar(r)
    ensures IsCasedChar(r) <==> IsCasedChar(c)
    ensures LowerChar(r) == LowerChar(c)
  {
    if IsLowerChar(c) then (c as int - 32) as char else c
  }

  /** `s.lower()` */
  function Lower(s: string): string {
    seq(|s|, i requires 0 <= i < |s| => LowerChar(s[i]))
  }

  /** `s.upper()` */
  function Upper(s: string): string {
    seq(|s|, i requires 0 <= i < |s| => UpperChar(s[i]))
  }

  /** `s.capitalize()`: the first character upper case, all others lower case. */
  function Capitalize(s: string): string {
    if |s| == 0 then "" else [UpperChar(s[0])] + Lower(s[1..])
  }

  predicate HasCased(s: string) {
    exists i :: 0 <= i < |s| && IsCasedChar(s[i])
  }

  /** `s.islower()`: some cased character, and no upper-case one. */
  predicate IsLower(s: string) {
    HasCased(s) && forall i :: 0 <= i < |s| ==> !IsUpperChar(s[i])
  }

  /** `s.isupper()`: some cased character, and no lower-case one. */
  predicate IsUpper(s: string) {
    HasCased(s) && forall i :: 0 <= i < |s| ==> !IsLowerChar(s[i])
  }

  /**
   * The scan behind `s.istitle()`: an upper-case letter may only follow an
   * uncased character, a lower-case letter only a cased one.
   */
  function TitleScan(s: string, previousCased: bool): bool
    decreases |s|
  {
    if |s| == 0 then true
    else if IsUpperChar(s[0]) then !previousCased && TitleScan(s[1..], true)
    else if IsLowerChar(s[0]) then previousCased && TitleScan(s[1..], true)
    else TitleScan(s[1..], false)
  }

  /** `s.istitle()` */
  predicate IsTitle(s: string) {
    HasCased(s) && TitleScan(s, false)
  }

  /** Lower-casing forgets every earlier case mapping. */
  lemma LowerAfterCasing(s: string)
    ensures Lower(Lower(s)) == Lower(s)
    ensures Lower(Upper(s)) == Lower(s)
    ensures Lower(Capitalize(s)) == Lower(s)
    ensures Upper(Lower(s)) == Upper(s)
  {
    assert forall i :: 0 <= i < |s| ==> Lower(Lower(s))[i] == Lower(s)[i];
    assert forall i :: 0 <= i < |s| ==> Lower(Upper(s))[i] == Lower(s)[i];
    assert forall i :: 0 <= i < |s| ==> Upper(Lower(s))[i] == Upper(s)[i];
    if |s| > 0 {
      var c := Capitalize(s);
      assert |c| == |s|;
      forall i | 0 <= i < |s| ensures Lower(c)[i] == Lower(s)[i] {
        if i > 0 {
          assert c[i] == Lower(s[1..])[i - 1] == LowerChar(s[i]);
        }
      }
    }
  }

  /** A word with a letter in it becomes an `islower()` word under `lower()`. */
  lemma LowerIsLower(s: string)
    requires HasCased(s)
    ensures IsLower(Lower(s))
  {
    var i :| 0 <= i < |s| && IsCasedChar(s[i]);
    assert IsCasedChar(Lower(s)[i]);
  }

  /** A word with a letter in it becomes an `isupper()` word under `upper()`. */
  lemma UpperIsUpper(s: string)
    requires HasCased(s)
    ensures IsUpper(Upper(s))
  {
    var i :| 0 <= i < |s| && IsCasedChar(s[i]);
    assert IsCasedChar(Upper(s)[i]);
  }

  lemma {:induction false} LowerLettersScan(s: string)
    requires forall i :: 0 <= i < |s| ==> IsLowerChar(s[i])
    ensures TitleScan(s, true)
    decreases |s|
  {
    if |s| > 0 {
      LowerLettersScan(s[1..]);
    }
  }

  /** A non-empty word of letters becomes an `istitle()` word under `capitalize()`. */
  lemma CapitalizeIsTitle(s: string)
    requires |s| > 0 && AllCased(s)
    ensures IsTitle(Capitalize(s))
  {
    var c := Capitalize(s);
    assert IsUpperChar(c[0]);
    assert c[1..] == Lower(s[1..]);
    LowerLettersScan(c[1..]);
  }

  // ---------------------------------------------------------------------------
  // Stripping

  /** `s.lstrip()` */
  function StripLeading(s: string): string
    decreases |s|
  {
    if |s| > 0 && IsSpaceChar(s[0]) then StripLeading(s[1..]) else s
  }

  /** `s.rstrip()` */
  function StripTrailing(s: string): string
    decreases |s|
  {
    if |s| > 0 && IsSpaceChar(s[|s| - 1]) then StripTrailing(s[..|s| - 1]) else s
  }

  /** `lstrip()` drops a prefix made only of white space and stops at the first other character. */
  lemma {:induction false} StripLeadingSpec(s: string)
    ensures var r := StripLeading(s);
      |r| <= |s| && r == s[|s| - |r|..] && (r == [] || !IsSpaceChar(r[0])) &&
      forall i :: 0 <= i < |s| - |r| ==> IsSpaceChar(s[i])
    decreases |s|
  {
    if |s| > 0 && IsSpaceChar(s[0]) {
      StripLeadingSpec(s[1..]);
    }
  }

  /** `rstrip()` drops a suffix made only of white space and stops at the last other character. */
  lemma {:induction false} StripTrailingSpec(s: string)
    ensures var r := StripTrailing(s);
      |r| <= |s| && r == s[..|r|] && (r == [] || !IsSpaceChar(r[|r| - 1])) &&
      forall i :: |r| <= i < |s| ==> IsSpaceChar(s[i])
    decreases |s|
  {
    if |s| > 0 && IsSpaceChar(s[|s| - 1]) {
      StripTrailingSpec(s[..|s| - 1]);
    }
  }

  /** `s.strip()`: drops the leading and trailing white space. */
  function Strip(s: string): string {
    StripTrailing(StripLeading(s))
  }

  /**
   * `strip()` keeps a contiguous piece of the string, everything outside it
   * white space, and the piece neither starts nor ends with white space.
   */
  lemma StripSpec(s: string)
    ensures var r := Strip(s);
      var a := |s| - |StripLeading(s)|;
      (r == [] || (!IsSpaceChar(r[0]) && !IsSpaceChar(r[|r| - 1]))) &&
      0 <= a <= a + |r| <= |s| && r == s[a..a + |r|] &&
      (forall i :: 0 <= i < a ==> IsSpaceChar(s[i])) &&
      (forall i :: a + |r| <= i < |s| ==> IsSpaceChar(s[i]))
  {
    var l := StripLeading(s);
    StripLeadingSpec(s);
    StripTrailingSpec(l);
    var r := Strip(s);
    var a := |s| - |l|;
    assert r == l[..|r|];
    assert r == s[a..a + |r|];
    forall i | a + |r| <= i < |s| ensures IsSpaceChar(s[i]) {
      assert s[i] == l[i - a];
    }
  }

  /** A string without white space at either end is its own `strip()`. */
  lemma StripFixed(s: string)
    requires s == [] || (!IsSpaceChar(s[0]) && !IsSpaceChar(s[|s| - 1]))
    ensures Strip(s) == s
  {
    assert StripLeading(s) == s;
  }

  lemma StripIdempotent(s: string)
    ensures Strip(Strip(s)) == Strip(s)
  {
    StripSpec(s);
    StripFixed(Strip(s));
  }

  // ---------------------------------------------------------------------------
  // Joining and counting

  /** `sep.join(parts)` */
  function Join(sep: string, parts: seq<string>): string
    decreases |parts|
  {
    if |parts| == 0 then ""
    else if |parts| == 1 then parts[0]
    else parts[0] + sep + Join(sep, parts[1..])
  }

  lemma AvoidsConcat(a: string, b: string, bad: char -> bool)
    requires Avoids(a, bad) && Avoids(b, bad)
    ensures Avoids(a + b, bad)
  {
    forall i | 0 <= i < |a + b| ensures !bad((a + b)[i]) {
      if i >= |a| {
        assert (a + b)[i] == b[i - |a|];
      }
    }
  }

  /** A class of characters absent from the parts and the separator is absent from the join. */
  lemma {:induction false} JoinAvoids(sep: string, parts: seq<string>, bad: char -> bool)
    requires Avoids(sep, bad)
    requires forall k :: 0 <= k < |parts| ==> Avoids(parts[k], bad)
    ensures Avoids(Join(sep, parts), bad)
    decreases |parts|
  {
    if |parts| > 1 {
      JoinAvoids(sep, parts[1..], bad);
      AvoidsConcat(parts[0], sep, bad);
      AvoidsConcat(parts[0] + sep, Join(sep, parts[1..]), bad);
    }
  }

  /**
   * `s.count(sub)`: the non-overlapping occurrences of `sub`, found scanning
   * from the left and resuming after each match; an empty `sub` is found
   * `|s| + 1` times.
   */
  function CountSub(s: string, sub: string): nat
    decreases |s|
  {
    if |sub| == 0 then |s| + 1
    else if |s| < |sub| then 0
    else if s[..|sub|] == sub then 1 + CountSub(s[|sub|..], sub)
    else CountSub(s[1..], sub)
  }

  /** Text without the first character of `sub` holds no occurrence of `sub` and is skipped. */
  lemma {:induction false} CountSubSkip(p: string, rest: string, sub: string)
    requires |sub| > 0
    requires forall i :: 0 <= i < |p| ==> p[i] != sub[0]
    ensures CountSub(p + rest, sub) == CountSub(rest, sub)
    decreases |p|
  {
    var s := p + rest;
    if |p| == 0 {
      assert s == rest;
    } else {
      assert s[0] == p[0];
      if |s| >= |sub| {
        assert s[..|sub|][0] != sub[0];
      }
      assert s[1..] == p[1..] + rest;
      CountSubSkip(p[1..], rest, sub);
    }
  }

  /** An occurrence of `sub` at the start is counted once and scanning resumes after it. */
  lemma CountSubLeading(sub: string, rest: string)
    requires |sub| > 0
    ensures CountSub(sub + rest, sub) == 1 + CountSub(rest, sub)
  {
    var s := sub + rest;
    assert s[..|sub|] == sub;
    assert s[|sub|..] == rest;
  }

  // ---------------------------------------------------------------------------
  // Decimal numerals

  function Pow10(e: nat): (r: nat)
    ensures r >= 1
  {
    if e == 0 then 1 else 10 * Pow10(e - 1)
  }

  function DigitChar(d: nat): (c: char)
    requires d < 10
    ensures IsDigitChar(c)
  {
    ('0' as int + d) as char
  }

  function DigitValue(c: char): (d: nat)
    requires IsDigitChar(c)
    ensures d < 10
  {
    c as int - '0' as int
  }

  /** `str(n)` for a non-negative integer: no leading zero unless `n` is zero. */
  function DecimalString(n: nat): (r: string)
    ensures |r| >= 1 && AllDigits(r)
    ensures r[0] == '0' <==> n == 0
    decreases n
  {
    if n < 10 then [DigitChar(n)] else DecimalString(n / 10) + [DigitChar(n % 10)]
  }

  /** `str(n)` for any integer. */
  function IntToString(n: int): string {
    if n < 0 then "-" + DecimalString(-n) else DecimalString(n)
  }

  /** The value of a run of decimal digits. */
  function DigitsValue(s: string): nat
    requires AllDigits(s)
    decreases |s|
  {
    if |s| == 0 then 0 else 10 * DigitsValue(s[..|s| - 1]) + DigitValue(s[|s| - 1])
  }

  /**
   * The white space `int()` skips around an ASCII numeral: tab to carriage
   * return (9-13) and space. Unlike `IsSpaceChar`, the separators 28-31 are
   * not skipped.
   */
  predicate IsNumeralSpaceChar(c: char) {
    var n := c as int;
    n == 32 || 9 <= n <= 13
  }

  function TrimNumeralLeading(s: string): string
    decreases |s|
  {
    if |s| > 0 && IsNumeralSpaceChar(s[0]) then TrimNumeralLeading(s[1..]) else s
  }

  function TrimNumeralTrailing(s: string): string
    decreases |s|
  {
    if |s| > 0 && IsNumeralSpaceChar(s[|s| - 1]) then TrimNumeralTrailing(s[..|s| - 1]) else s
  }

  /** The numeral part of an `int()` argument: `s` without the white space `int()` skips at either end. */
  function TrimNumeral(s: string): string {
    TrimNumeralTrailing(TrimNumeralLeading(s))
  }

  /**
   * `int(s)` on ASCII text: surrounding white space (tab to carriage return and
   * space), an optional sign, then one or more decimal digits; anything else is
   * a `ValueError`, here `None`.
   */
  function ParseInt(s: string): Option<int> {
    var t := TrimNumeral(s);
    if |t| >= 2 && (t[0] == '-' || t[0] == '+') && AllDigits(t[1..]) then
      Some(if t[0] == '-' then -(DigitsValue(t[1..]) as int) else DigitsValue(t[1..]))
    else if |t| >= 1 && AllDigits(t) then
      Some(DigitsValue(t))
    else
      None
  }

  /** Leading white space that `int()` skips is dropped up to the first other character. */
  lemma {:induction false} TrimNumeralLeadingSkips(ws: string, t: string)
    requires forall i :: 0 <= i < |ws| ==> IsNumeralSpaceChar(ws[i])
    requires |t| > 0 && !IsNumeralSpaceChar(t[0])
    ensures TrimNumeralLeading(ws + t) == t
    decreases |ws|
  {
    if |ws| > 0 {
      assert (ws + t)[1..] == ws[1..] + t;
      TrimNumeralLeadingSkips(ws[1..], t);
    } else {
      assert ws + t == t;
    }
  }

  /** Trailing white space that `int()` skips is dropped back to the last other character. */
  lemma {:induction false} TrimNumeralTrailingSkips(t: string, ws: string)
    requires forall i :: 0 <= i < |ws| ==> IsNumeralSpaceChar(ws[i])
    requires |t| > 0 && !IsNumeralSpaceChar(t[|t| - 1])
    ensures TrimNumeralTrailing(t + ws) == t
    decreases |ws|
  {
    if |ws| > 0 {
      assert (t + ws)[..|t + ws| - 1] == t + ws[..|ws| - 1];
      TrimNumeralTrailingSkips(t, ws[..|ws| - 1]);
    } else {
      assert t + ws == t;
    }
  }

  /** `int()` ignores tab-to-carriage-return and space around a numeral that starts and ends with no such character. */
  lemma TrimNumeralAround(pre: string, t: string, post: string)
    requires forall i :: 0 <= i < |pre| ==> IsNumeralSpaceChar(pre[i])
    requires forall i :: 0 <= i < |post| ==> IsNumeralSpaceChar(post[i])
    requires |t| > 0 && !IsNumeralSpaceChar(t[0]) && !IsNumeralSpaceChar(t[|t| - 1])
    ensures TrimNumeral(pre + t + post) == t
  {
    assert pre + t + post == pre + (t + post);
    TrimNumeralLeadingSkips(pre, t + post);
    TrimNumeralTrailingSkips(t, post);
  }

  /**
   * The information separators 28-31 are white space to `strip()` but not to
   * `int()`: a numeral with one of them in front is a `ValueError`.
   */
  lemma SeparatorBeforeNumeral(c: char, m: nat)
    requires 28 <= c as int <= 31
    ensures ParseInt([c] + DecimalString(m)) == None
  {
    var s := [c] + DecimalString(m);
    assert !IsNumeralSpaceChar(s[0]);
    assert TrimNumeralLeading(s) == s;
    var t := TrimNumeral(s);
    var k := |TrimNumeralTrailing(s)|;
    TrimNumeralTrailingPrefix(s);
    assert t == s[..k];
    if k > 0 {
      assert t[0] == c && !IsDigitChar(c) && c != '-' && c != '+';
    }
  }

  lemma {:induction false} TrimNumeralTrailingPrefix(s: string)
    ensures var r := TrimNumeralTrailing(s); |r| <= |s| && r == s[..|r|]
    decreases |s|
  {
    if |s| > 0 && IsNumeralSpaceChar(s[|s| - 1]) {
      TrimNumeralTrailingPrefix(s[..|s| - 1]);
    }
  }

  /** A numeral with `d` digits and no leading zero: exactly the numbers in [10^(d-1), 10^d - 1]. */
  lemma {:induction false} DecimalLength(n: nat, d: nat)
    requires d >= 1 && Pow10(d - 1) <= n < Pow10(d)
    ensures |DecimalString(n)| == d
    decreases d
  {
    if d > 1 {
      var p := Pow10(d - 2);
      assert Pow10(d - 1) == 10 * p;
      assert Pow10(d) == 100 * p;
      assert n / 10 >= p;
      assert n / 10 < 10 * p;
      DecimalLength(n / 10, d - 1);
    }
  }

  lemma {:induction false} DigitsValueOfDecimal(n: nat)
    ensures DigitsValue(DecimalString(n)) == n
    decreases n
  {
    if n >= 10 {
      var r := DecimalString(n);
      assert r[..|r| - 1] == DecimalString(n / 10);
      DigitsValueOfDecimal(n / 10);
    }
  }

  lemma ParseDecimal(m: nat)
    ensures ParseInt(DecimalString(m)) == Some(m as int)
  {
    var d := DecimalString(m);
    assert IsDigitChar(d[0]) && IsDigitChar(d[|d| - 1]);
    TrimNumeralAround("", d, "");
    assert "" + d + "" == d;
    assert d[0] != '-' && d[0] != '+';
    DigitsValueOfDecimal(m);
  }

  lemma ParseNegativeDecimal(m: nat)
    ensures ParseInt("-" + DecimalString(m)) == Some(-(m as int))
  {
    var d := DecimalString(m);
    var s := "-" + d;
    assert s[|s| - 1] == d[|d| - 1] && IsDigitChar(d[|d| - 1]);
    TrimNumeralAround("", s, "");
    assert "" + s + "" == s;
    assert s[1..] == d;
    DigitsValueOfDecimal(m);
  }

  /** `int(str(n)) == n` */
  lemma ParseIntRoundTrip(n: int)
    ensures ParseInt(IntToString(n)) == Some(n)
  {
    if n < 0 {
      ParseNegativeDecimal(-n);
    } else {
      ParseDecimal(n);
    }
  }

  /** `int(" \t" + str(n) + "\n") == n`: white space that `int()` skips may surround the numeral. */
  lemma ParseIntAround(pre: string, n: int, post: string)
    requires forall i :: 0 <= i < |pre| ==> IsNumeralSpaceChar(pre[i])
    requires forall i :: 0 <= i < |post| ==> IsNumeralSpaceChar(post[i])
    ensures ParseInt(pre + IntToString(n) + post) == Some(n)
  {
    var d := IntToString(n);
    assert !IsNumeralSpaceChar(d[0]) && IsDigitChar(d[|d| - 1]);
    TrimNumeralAround(pre, d, post);
    TrimNumeralAround("", d, "");
    assert "" + d + "" == d;
    ParseIntRoundTrip(n);
  }
}
