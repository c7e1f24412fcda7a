/**
 * The three Python built-ins the quote form leans on to turn text into
 * numbers and back: `str.strip()`, `int(text)` and the `,` option of the
 * format mini-language (PEP 378), restricted to non-negative integers.
 */
module Numerals {

  datatype Option<T> = None | Some(value: T)

  // ---------------------------------------------------------------------
  // str.strip()
  // ---------------------------------------------------------------------

  /**
   * Python's `str.isspace` for a single character. No whitespace character
   * can be part of a signed decimal numeral.
   */
  predicate IsSpace(c: char): (b: bool)
    ensures b ==> !IsDigit(c) && c != '+' && c != '-'
  {
    || c == ' '
    || '\t' <= c <= '\r'
    || '\U{1C}' <= c <= '\U{1F}'
    || c == '\U{85}' || c == '\U{A0}' || c == '\U{1680}'
    || '\U{2000}' <= c <= '\U{200A}'
    || c == '\U{2028}' || c == '\U{2029}' || c == '\U{202F}' || c == '\U{205F}'
    || c == '\U{3000}'
  }

  /** Number of whitespace characters at the front of `s`. */
  function LeadingSpaces(s: string): (n: nat)
    ensures n <= |s|
    ensures forall i :: 0 <= i < n ==> IsSpace(s[i])
    ensures n < |s| ==> !IsSpace(s[n])
  {
    if s != [] && IsSpace(s[0]) then 1 + LeadingSpaces(s[1..]) else 0
  }

  /** Number of whitespace characters at the back of `s`. */
  function TrailingSpaces(s: string): (n: nat)
    ensures n <= |s|
    ensures forall i :: |s| - n <= i < |s| ==> IsSpace(s[i])
    ensures n < |s| ==> !IsSpace(s[|s| - 1 - n])
  {
    if s != [] && IsSpace(s[|s| - 1]) then 1 + TrailingSpaces(s[..|s| - 1]) else 0
  }

  /**
   * `s.strip()`: the contiguous part of `s` that starts at its first and
   * ends at its last non-whitespace character; empty when `s` is all
   * whitespace.
   */
  function Strip(s: string): (r: string)
    ensures LeadingSpaces(s) + |r| <= |s| && r == s[LeadingSpaces(s)..LeadingSpaces(s) + |r|]
    ensures forall i :: 0 <= i < |s| && !IsSpace(s[i]) ==> LeadingSpaces(s) <= i < LeadingSpaces(s) + |r|
    ensures r != [] ==> !IsSpace(r[0]) && !IsSpace(r[|r| - 1])
  {
    var rest := s[LeadingSpaces(s)..];
    rest[..|rest| - TrailingSpaces(rest)]
  }

  /** Stripping text that neither begins nor ends with whitespace leaves it alone. */
  lemma StripUnpadded(s: string)
    requires s != [] && !IsSpace(s[0]) && !IsSpace(s[|s| - 1])
    ensures Strip(s) == s
  {
    assert LeadingSpaces(s) == 0;
  }

  /** Whitespace added around text is exactly what `strip` removes again. */
  lemma {:induction false} StripPadded(pre: string, s: string, post: string)
    requires s != [] && !IsSpace(s[0]) && !IsSpace(s[|s| - 1])
    requires forall i :: 0 <= i < |pre| ==> IsSpace(pre[i])
    requires forall i :: 0 <= i < |post| ==> IsSpace(post[i])
    ensures Strip(pre + s + post) == s
  {
    var t := pre + s + post;
    assert t[|pre|] == s[0];
    assert t[|pre| + |s| - 1] == s[|s| - 1];
    assert forall i :: 0 <= i < |pre| ==> t[i] == pre[i];
    assert forall i :: |pre| + |s| <= i < |t| ==> t[i] == post[i - |pre| - |s|];
    var r := Strip(t);
    var k := LeadingSpaces(t);
    if k < |pre| { assert false; }
    if k > |pre| { assert false; }
    if |r| < |s| { assert false; }
    if |r| > |s| { assert false; }
    assert r == t[|pre|..|pre| + |s|];
    assert t[|pre|..|pre| + |s|] == s;
  }

  // ---------------------------------------------------------------------
  // Decimal digits
  // ---------------------------------------------------------------------

  predicate IsDigit(c: char)
  {
    '0' <= c <= '9'
  }

  predicate AllDigits(s: string)
  {
    forall i :: 0 <= i < |s| ==> IsDigit(s[i])
  }

  function DigitChar(d: nat): (c: char)
    requires d < 10
    ensures IsDigit(c) && c as int - '0' as int == d
  {
    (d + '0' as int) as char
  }

  function DigitValue(c: char): (d: nat)
    requires IsDigit(c)
    ensures d < 10 && DigitChar(d) == c
  {
    c as int - '0' as int
  }

  /** The number a string of decimal digits denotes (leading zeros allowed). */
  function DigitsValue(s: string): nat
    requires AllDigits(s)
  {
    if s == [] then 0 else DigitsValue(s[..|s| - 1]) * 10 + DigitValue(s[|s| - 1])
  }

  /** The plain decimal numeral of `n`, before grouping: digits, no sign, no leading zero. */
  function Digits(n: nat): (s: string)
    ensures s != [] && AllDigits(s)
    ensures |s| > 1 ==> s[0] != '0'
  {
    if n < 10 then [DigitChar(n)] else Digits(n / 10) + [DigitChar(n % 10)]
  }

  lemma {:induction false} DigitsRoundTrip(n: nat)
    ensures DigitsValue(Digits(n)) == n
  {
    if n >= 10 {
      DigitsRoundTrip(n / 10);
      var s := Digits(n);
      assert s[..|s| - 1] == Digits(n / 10);
    }
  }

  /** Numerals of different numbers differ: `Digits` loses nothing. */
  lemma DigitsInjective(m: nat, n: nat)
    requires Digits(m) == Digits(n)
    ensures m == n
  {
    DigitsRoundTrip(m);
    DigitsRoundTrip(n);
  }

  // ---------------------------------------------------------------------
  // int(text)
  // ---------------------------------------------------------------------

  /**
   * `int(s)` on already stripped text: an optional `+` or `-` followed by
   * one or more ASCII digits; anything else is a `ValueError` (`None`).
   */
  function ParseInt(s: string): (r: Option<int>)
    ensures r.Some? ==> s != []
    ensures r.Some? && r.value < 0 ==> s[0] == '-'
  {
    if s == [] then None
    else
      var body := if s[0] == '+' || s[0] == '-' then s[1..] else s;
      if body == [] || !AllDigits(body) then None
      else if s[0] == '-' then Some(-(DigitsValue(body) as int))
      else Some(DigitsValue(body))
  }

  /** The numeral of a number parses back to it, with or without a sign. */
  lemma ParseDigits(n: nat)
    ensures ParseInt(Digits(n)) == Some(n)
    ensures ParseInt("+" + Digits(n)) == Some(n)
    ensures ParseInt("-" + Digits(n)) == Some(-(n as int))
  {
    DigitsRoundTrip(n);
    assert ("+" + Digits(n))[1..] == Digits(n);
    assert ("-" + Digits(n))[1..] == Digits(n);
  }

  /** Any run of digits, leading zeros included, parses to its value, with or without a sign. */
  lemma ParseNumeral(d: string)
    requires d != [] && AllDigits(d)
    ensures ParseInt(d) == Some(DigitsValue(d))
    ensures ParseInt("+" + d) == Some(DigitsValue(d))
    ensures ParseInt("-" + d) == Some(-(DigitsValue(d) as int))
  {
    assert ("+" + d)[1..] == d;
    assert ("-" + d)[1..] == d;
  }

  /**
   * Only an optional sign followed by one or more digits parses: a bare sign,
   * a sign after the first position or any other character makes `int` fail.
   */
  lemma ParseShape(s: string)
    requires ParseInt(s).Some?
    ensures || (AllDigits(s) && ParseInt(s).value == DigitsValue(s))
            || (|s| >= 2 && s[0] == '+' && AllDigits(s[1..]) && ParseInt(s).value == DigitsValue(s[1..]))
            || (|s| >= 2 && s[0] == '-' && AllDigits(s[1..]) && ParseInt(s).value == -(DigitsValue(s[1..]) as int))
  {
  }

  /** Leading zeros and bare signs, as `int` treats them. */
  lemma ParseExamples()
    ensures ParseInt("050") == Some(50)
    ensures ParseInt("+007") == Some(7)
    ensures ParseInt("-00") == Some(0)
    ensures ParseInt("+") == None && ParseInt("-") == None
  {
    assert DigitsValue("050") == 50 by {
      assert "050"[..2] == "05" && "05"[..1] == "0" && "0"[..0] == [];
    }
    assert DigitsValue("007") == 7 by {
      assert "007"[..2] == "00" && "00"[..1] == "0" && "0"[..0] == [];
    }
    assert DigitsValue("00") == 0 by {
      assert "00"[..1] == "0" && "0"[..0] == [];
    }
    ParseNumeral("050");
    ParseNumeral("007");
    ParseNumeral("00");
    assert "+" + "007" == "+007";
    assert "-" + "00" == "-00";
  }

  /** A character that is neither a digit nor a leading sign makes `int` fail. */
  lemma ParseRejectsStray(s: string, i: nat)
    requires i < |s| && !IsDigit(s[i])
    requires i == 0 ==> s[0] != '+' && s[0] != '-'
    ensures ParseInt(s) == None
  {
    if s[0] == '+' || s[0] == '-' {
      if |s| > 1 { assert s[1..][i - 1] == s[i]; }
    }
  }

  // ---------------------------------------------------------------------
  // format(n, ',')  (PEP 378)
  // ---------------------------------------------------------------------

  /** The three digits of `r < 1000`, zero-padded: one group after a comma. */
  function Group3(r: nat): (s: string)
    requires r < 1000
    ensures |s| == 3 && AllDigits(s) && DigitsValue(s) == r
  {
    var s := [DigitChar(r / 100), DigitChar(r / 10 % 10), DigitChar(r % 10)];
    ThreeDigitsValue(r / 100, r / 10 % 10, r % 10);
    s
  }

  lemma ThreeDigitsValue(a: nat, b: nat, c: nat)
    requires a < 10 && b < 10 && c < 10
    ensures DigitsValue([DigitChar(a), DigitChar(b), DigitChar(c)]) == (a * 10 + b) * 10 + c
  {
    var s := [DigitChar(a), DigitChar(b), DigitChar(c)];
    assert s[..2] == [s[0], s[1]] && s[..2][..1] == [s[0]] && [s[0]][..0] == [];
    assert DigitsValue([s[0]]) == a;
    assert DigitsValue(s[..2]) == a * 10 + b;
  }

  /**
   * `format(n, ',')`: the decimal numeral of `n` with a comma between groups
   * of three digits; it starts and ends with a digit.
   */
  function Grouped(n: nat): (r: string)
    ensures r != [] && IsDigit(r[0]) && IsDigit(r[|r| - 1])
  {
    if n < 1000 then Digits(n) else Grouped(n / 1000) + "," + Group3(n % 1000)
  }

  /** The text with every comma removed. */
  function Ungroup(s: string): (r: string)
    ensures |r| <= |s|
    ensures forall i :: 0 <= i < |r| ==> r[i] != ','
  {
    if s == [] then [] else (if s[0] == ',' then [] else [s[0]]) + Ungroup(s[1..])
  }

  lemma {:induction false} UngroupAppend(a: string, b: string)
    ensures Ungroup(a + b) == Ungroup(a) + Ungroup(b)
  {
    if a != [] {
      assert (a + b)[1..] == a[1..] + b;
      UngroupAppend(a[1..], b);
    } else {
      assert a + b == b;
    }
  }

  lemma {:induction false} UngroupDigits(s: string)
    requires AllDigits(s)
    ensures Ungroup(s) == s
  {
    if s != [] {
      UngroupDigits(s[1..]);
    }
  }

  /** Splitting off the last three digits of a numeral. */
  lemma DigitsSplit(q: nat, r: nat)
    requires q > 0 && r < 1000
    ensures Digits(q * 1000 + r) == Digits(q) + Group3(r)
  {
    var n := q * 1000 + r;
    assert n / 10 == q * 100 + r / 10 && n % 10 == r % 10;
    var n1 := n / 10;
    assert n1 / 10 == q * 10 + r / 100 && n1 % 10 == r / 10 % 10;
    var n2 := n1 / 10;
    assert n2 / 10 == q && n2 % 10 == r / 100;
    assert n >= 10 && n1 >= 10 && n2 >= 10;
    assert Digits(n) == Digits(n1) + [DigitChar(r % 10)];
    assert Digits(n1) == Digits(n2) + [DigitChar(r / 10 % 10)];
    assert Digits(n2) == Digits(q) + [DigitChar(r / 100)];
  }

  /**
   * PEP 378: removing the separators gives back the plain numeral, and a
   * numeral of d digits gets (d - 1) / 3 separators, one in front of each
   * group of three digits counted from the right, none at the very front.
   */
  lemma {:induction false} GroupedDigits(n: nat)
    ensures Ungroup(Grouped(n)) == Digits(n)
    ensures |Grouped(n)| == |Digits(n)| + (|Digits(n)| - 1) / 3
  {
    if n < 1000 {
      UngroupDigits(Digits(n));
      DigitsShort(n);
    } else {
      GroupedDigits(n / 1000);
      GroupedStep(n / 1000, n % 1000);
      assert n == n / 1000 * 1000 + n % 1000;
    }
  }

  /** One step of `GroupedDigits`: a further group of three digits and its comma. */
  lemma GroupedStep(q: nat, r: nat)
    requires q > 0 && r < 1000
    requires Ungroup(Grouped(q)) == Digits(q)
    requires |Grouped(q)| == |Digits(q)| + (|Digits(q)| - 1) / 3
    ensures Ungroup(Grouped(q * 1000 + r)) == Digits(q * 1000 + r)
    ensures |Grouped(q * 1000 + r)| == |Digits(q * 1000 + r)| + (|Digits(q * 1000 + r)| - 1) / 3
  {
    var n := q * 1000 + r;
    assert n / 1000 == q && n % 1000 == r;
    assert Grouped(n) == Grouped(q) + "," + Group3(r);
    DigitsSplit(q, r);
    UngroupAppend(Grouped(q) + ",", Group3(r));
    UngroupAppend(Grouped(q), ",");
    UngroupDigits(Group3(r));
    assert Ungroup(",") == [];
  }

  /** A number below 1000 has at most three digits. */
  lemma DigitsShort(n: nat)
    requires n < 1000
    ensures |Digits(n)| <= 3
  {
    if n >= 10 {
      assert |Digits(n)| == |Digits(n / 10)| + 1;
      if n / 10 >= 10 {
        assert |Digits(n / 10)| == |Digits(n / 100)| + 1;
        assert n / 10 / 10 == n / 100 < 10;
      }
    }
  }

  /** Counted from the right, every fourth character of a grouped numeral is a comma, and only those. */
  lemma {:induction false} GroupedCommas(n: nat)
    ensures forall i :: 0 <= i < |Grouped(n)| ==> (Grouped(n)[i] == ',' <==> (|Grouped(n)| - i) % 4 == 0)
  {
    var g := Grouped(n);
    if n < 1000 {
      DigitsShort(n);
      assert forall i :: 0 <= i < |g| ==> IsDigit(g[i]) && 0 < |g| - i < 4;
    } else {
      var h, t := Grouped(n / 1000), Group3(n % 1000);
      GroupedCommas(n / 1000);
      assert g == h + "," + t;
      forall i | 0 <= i < |g| ensures g[i] == ',' <==> (|g| - i) % 4 == 0 {
        if i < |h| {
          assert g[i] == h[i] && |g| - i == (|h| - i) + 4;
        } else if i == |h| {
          assert g[i] == ',';
        } else {
          assert g[i] == t[i - |h| - 1] && 0 < |g| - i < 4;
        }
      }
    }
  }
}
