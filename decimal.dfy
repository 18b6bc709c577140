/** Decimal text of integers, as the report uses it: Python's str(n) for the
    offsets table, Python 2's int(s) for the comma-separated summary files and
    the alignment count, and format_thousands, which groups digits by three
    (mqc_tools/mQC.py:1207-1208, 648). */
module Decimal {
  import opened Wrappers

  predicate IsDigit(c: char) { '0' <= c <= '9' }

  predicate AllDigits(s: string) { forall i :: 0 <= i < |s| ==> IsDigit(s[i]) }

  function DigitChar(d: nat): (c: char)
    requires d < 10
    ensures IsDigit(c) && DigitValue(c) == d
  {
    (d + '0' as int) as char
  }

  function DigitValue(c: char): nat
    requires IsDigit(c)
  {
    c as int - '0' as int
  }

  /** The decimal digits of n, most significant first, with no leading zero. */
  function NatToString(n: nat): (s: string)
    ensures |s| >= 1 && AllDigits(s)
    ensures |s| > 1 ==> s[0] != '0'
    decreases n
  {
    if n < 10 then [DigitChar(n)] else NatToString(n / 10) + [DigitChar(n % 10)]
  }

  /** The number a string of digits denotes. */
  function DigitsValue(s: string): nat
    requires AllDigits(s)
  {
    if s == [] then 0 else DigitsValue(s[..|s| - 1]) * 10 + DigitValue(s[|s| - 1])
  }

  lemma {:induction false} DigitsValueOfNatToString(n: nat)
    ensures DigitsValue(NatToString(n)) == n
    decreases n
  {
    if n >= 10 {
      var s := NatToString(n);
      assert s[..|s| - 1] == NatToString(n / 10);
      DigitsValueOfNatToString(n / 10);
    }
  }

  /** Python's str(n): a minus sign for negative numbers, then the digits. */
  function IntToString(n: int): (s: string)
  {
    if n < 0 then "-" + NatToString(-n) else NatToString(n)
  }

  /** The characters Python 2's str.strip() and int() treat as white space. */
  predicate IsSpace(c: char)
  {
    c == ' ' || c == '\t' || c == '\n' || c == '\r' || c == '\U{000B}' || c == '\U{000C}'
  }

  function TrimLeft(s: string): (r: string)
    ensures |r| <= |s| && r == s[|s| - |r|..]
    ensures r != [] ==> !IsSpace(r[0])
  {
    if s != [] && IsSpace(s[0]) then TrimLeft(s[1..]) else s
  }

  function TrimRight(s: string): (r: string)
    ensures |r| <= |s| && r == s[..|r|]
    ensures r != [] ==> !IsSpace(r[|r| - 1])
  {
    if s != [] && IsSpace(s[|s| - 1]) then TrimRight(s[..|s| - 1]) else s
  }

  function Strip(s: string): string
  {
    TrimRight(TrimLeft(s))
  }

  /** Python 2's int(s) on a string: optional surrounding white space, an
      optional sign, then one or more decimal digits; anything else raises
      ValueError, which is None here. */
  function ParseInt(s: string): (r: Option<int>)
    ensures r.Some? ==> Strip(s) != [] && IsDigit(Strip(s)[|Strip(s)| - 1])
  {
    ParseSigned(Strip(s))
  }

  /** int() on text that has already been stripped of white space. */
  function ParseSigned(t: string): (r: Option<int>)
    ensures r.Some? ==> t != [] && IsDigit(t[|t| - 1])
  {
    if t != [] && (t[0] == '-' || t[0] == '+') then
      var d := t[1..];
      if d != [] && AllDigits(d) then
        var v: int := DigitsValue(d);
        Some(if t[0] == '-' then -v else v)
      else
        None
    else if t != [] && AllDigits(t) then
      Some(DigitsValue(t))
    else
      None
  }

  lemma {:induction false} StripDigits(s: string)
    requires s != [] && !IsSpace(s[0]) && !IsSpace(s[|s| - 1])
    ensures Strip(s) == s
  {
  }

  lemma {:induction false} TrimLeftAppendSpace(s: string, c: char)
    requires IsSpace(c)
    ensures TrimLeft(s + [c]) == if TrimLeft(s) == [] then [] else TrimLeft(s) + [c]
  {
    var sc := s + [c];
    if s == [] {
      assert sc[1..] == [];
    } else if IsSpace(s[0]) {
      assert sc[1..] == s[1..] + [c];
      TrimLeftAppendSpace(s[1..], c);
    } else {
      assert sc[0] == s[0];
    }
  }

  /** White space after a number does not change what int() reads. */
  lemma ParseIntTrailingSpace(s: string, c: char)
    requires IsSpace(c)
    ensures ParseInt(s + [c]) == ParseInt(s)
  {
    TrimLeftAppendSpace(s, c);
    var t := TrimLeft(s);
    if t != [] {
      assert (t + [c])[..|t|] == t;
    }
    assert Strip(s + [c]) == Strip(s);
  }

  lemma {:induction false} ParseIntDigits(d: string, v: nat)
    requires d != [] && AllDigits(d) && DigitsValue(d) == v
    ensures ParseInt(d) == Some(v)
    ensures ParseInt("-" + d) == Some(-(v as int))
  {
    StripDigits(d);
    assert ParseSigned(d) == Some(v);
    var m := "-" + d;
    assert m[0] == '-' && m[1..] == d && m[|m| - 1] == d[|d| - 1];
    StripDigits(m);
    assert ParseSigned(m) == Some(-(v as int));
  }

  /** int(str(n)) == n: the parser reads back exactly what str writes. */
  lemma {:induction false} ParseIntToString(n: int)
    ensures ParseInt(IntToString(n)) == Some(n)
  {
    if n < 0 {
      ParseIntToStringNegative(n);
    } else {
      ParseIntToStringNonNegative(n);
    }
  }

  lemma {:induction false} ParseIntToStringNonNegative(n: int)
    requires n >= 0
    ensures ParseInt(IntToString(n)) == Some(n)
  {
    var d := NatToString(n);
    DigitsValueOfNatToString(n);
    ParseIntDigits(d, n);
  }

  lemma {:induction false} ParseIntToStringNegative(n: int)
    requires n < 0
    ensures ParseInt(IntToString(n)) == Some(n)
  {
    var m: nat := -n;
    var d := NatToString(m);
    assert IntToString(n) == "-" + d;
    DigitsValueOfNatToString(m);
    ParseIntDigits(d, m);
  }

  /** The digits of n in groups of three from the right, separated by single
      spaces. */
  function GroupThousands(d: string): (r: string)
    requires d != [] && AllDigits(d)
    decreases |d|
  {
    if |d| <= 3 then d else GroupThousands(d[..|d| - 3]) + " " + d[|d| - 3..]
  }

  /** The layout of a grouped number: one separator per full group of three
      below the leading group, a separator exactly at every fourth position
      counted from the right end, and digits everywhere else. */
  lemma GroupThousandsShape(d: string)
    requires d != [] && AllDigits(d)
    ensures var r := GroupThousands(d);
      && |r| == |d| + (|d| - 1) / 3
      && (forall i :: 0 <= i < |r| ==> (r[i] == ' ' <==> 0 < i && (|r| - i) % 4 == 0))
      && (forall i :: 0 <= i < |r| && r[i] != ' ' ==> IsDigit(r[i]))
  {
    GroupThousandsLength(d);
    GroupThousandsSpaces(d);
    GroupThousandsDigits(d);
  }

  lemma {:induction false} GroupThousandsLength(d: string)
    requires d != [] && AllDigits(d)
    ensures |GroupThousands(d)| == |d| + (|d| - 1) / 3
    decreases |d|
  {
    if |d| > 3 {
      GroupThousandsLength(d[..|d| - 3]);
    }
  }

  lemma {:induction false} GroupThousandsDigits(d: string)
    requires d != [] && AllDigits(d)
    ensures forall i :: 0 <= i < |GroupThousands(d)| && GroupThousands(d)[i] != ' ' ==> IsDigit(GroupThousands(d)[i])
    decreases |d|
  {
    if |d| > 3 {
      var head, tail := d[..|d| - 3], d[|d| - 3..];
      GroupThousandsDigits(head);
      var g := GroupThousands(head);
      var r := g + " " + tail;
      assert GroupThousands(d) == r;
      forall i | 0 <= i < |r| && r[i] != ' '
        ensures IsDigit(r[i])
      {
        if i < |g| {
          assert r[i] == g[i];
        } else {
          assert i > |g|;
          assert r[i] == tail[i - |g| - 1] == d[|d| - 3 + (i - |g| - 1)];
        }
      }
    }
  }

  lemma {:induction false} GroupThousandsSpaces(d: string)
    requires d != [] && AllDigits(d)
    ensures forall i :: 0 <= i < |GroupThousands(d)| ==>
              (GroupThousands(d)[i] == ' ' <==> 0 < i && (|GroupThousands(d)| - i) % 4 == 0)
    decreases |d|
  {
    if |d| > 3 {
      var head, tail := d[..|d| - 3], d[|d| - 3..];
      GroupThousandsSpaces(head);
      var g := GroupThousands(head);
      var r := g + " " + tail;
      assert GroupThousands(d) == r;
      assert |r| == |g| + 4;
      forall i | 0 <= i < |r|
        ensures r[i] == ' ' <==> 0 < i && (|r| - i) % 4 == 0
      {
        if i < |g| {
          assert r[i] == g[i];
          assert (|r| - i) % 4 == (|g| - i) % 4 by { ShiftByFour(|g| - i); }
        } else if i == |g| {
          assert r[i] == ' ';
          assert (|r| - i) % 4 == 0;
        } else {
          assert r[i] == tail[i - |g| - 1] == d[|d| - 3 + (i - |g| - 1)];
          assert IsDigit(r[i]);
          assert 0 < |r| - i < 4;
        }
      }
    }
  }

  lemma ShiftByFour(k: int)
    ensures (k + 4) % 4 == k % 4
  {
  }

  /** Python's '{:,}'.format(int(x)).replace(",", " "). */
  function FormatThousands(x: int): (r: string)
  {
    if x < 0 then "-" + GroupThousands(NatToString(-x)) else GroupThousands(NatToString(x))
  }

  function RemoveSpaces(s: string): (r: string)
    ensures |r| <= |s|
  {
    if s == [] then []
    else if s[|s| - 1] == ' ' then RemoveSpaces(s[..|s| - 1])
    else RemoveSpaces(s[..|s| - 1]) + [s[|s| - 1]]
  }

  lemma {:induction false} RemoveSpacesAppend(a: string, b: string)
    ensures RemoveSpaces(a + b) == RemoveSpaces(a) + RemoveSpaces(b)
    decreases |b|
  {
    if b == [] {
      assert a + b == a;
    } else {
      assert (a + b)[..|a + b| - 1] == a + b[..|b| - 1];
      RemoveSpacesAppend(a, b[..|b| - 1]);
    }
  }

  lemma {:induction false} RemoveSpacesNoSpace(s: string)
    requires forall i :: 0 <= i < |s| ==> s[i] != ' '
    ensures RemoveSpaces(s) == s
    decreases |s|
  {
    if s != [] {
      RemoveSpacesNoSpace(s[..|s| - 1]);
    }
  }

  lemma {:induction false} RemoveSpacesGroupThousands(d: string)
    requires d != [] && AllDigits(d)
    ensures RemoveSpaces(GroupThousands(d)) == d
    decreases |d|
  {
    if |d| <= 3 {
      RemoveSpacesNoSpace(d);
    } else {
      var head, tail := d[..|d| - 3], d[|d| - 3..];
      var g := GroupThousands(head);
      assert GroupThousands(d) == g + " " + tail;
      assert RemoveSpaces(" ") == [] by {
        assert " "[..0] == [];
      }
      calc {
        RemoveSpaces(GroupThousands(d));
        RemoveSpaces(g + " " + tail);
        { RemoveSpacesAppend(g + " ", tail); }
        RemoveSpaces(g + " ") + RemoveSpaces(tail);
        { RemoveSpacesAppend(g, " "); RemoveSpacesNoSpace(tail); }
        RemoveSpaces(g) + [] + tail;
        { RemoveSpacesGroupThousands(head); }
        head + [] + tail;
        { assert head + tail == d; }
        d;
      }
    }
  }

  /** Deleting the separators from format_thousands(x) gives back str(x), so
      int() reads the original number back. */
  lemma FormatThousandsUngrouped(x: int)
    ensures RemoveSpaces(FormatThousands(x)) == IntToString(x)
    ensures ParseInt(RemoveSpaces(FormatThousands(x))) == Some(x)
  {
    if x < 0 {
      RemoveSpacesGroupThousands(NatToString(-x));
      RemoveSpacesAppend("-", GroupThousands(NatToString(-x)));
      RemoveSpacesNoSpace("-");
    } else {
      RemoveSpacesGroupThousands(NatToString(x));
    }
    ParseIntToString(x);
  }
}
