/** The page counts the spiders compute: Python's `int(...)` on a page-count string,
    and `total // 20 + 1` on a result count. */
module Paging {
  import opened Base
  import opened Text

  /** The results an ajax or API page carries. */
  const PageSize := 20

  /** `total // 20 + 1`: the number of pages of 20 that hold `total` results, counting
      a last page that is empty when 20 divides `total`. `//` floors, as Dafny's `/`
      does for a positive divisor. */
  function PageCount(total: int): (r: int)
    ensures PageSize * (r - 1) <= total < PageSize * r
  {
    total / PageSize + 1
  }

  /** What a page-count loop gives: the count, or what it raised, and the index of the
      next unused network outcome. */
  datatype Counted = Counted(count: Result<int>, next: nat)

  /** The white space `str.strip()` and `int()` remove: the characters `str.isspace`
      accepts. */
  const Whitespace: set<char> :=
    {'\t', '\n', '\U{000B}', '\U{000C}', '\r', '\U{001C}', '\U{001D}', '\U{001E}', '\U{001F}', ' ',
     '\U{0085}', '\U{00A0}', '\U{1680}', '\U{2000}', '\U{2001}', '\U{2002}', '\U{2003}', '\U{2004}',
     '\U{2005}', '\U{2006}', '\U{2007}', '\U{2008}', '\U{2009}', '\U{200A}', '\U{2028}', '\U{2029}',
     '\U{202F}', '\U{205F}', '\U{3000}'}

  /** `s.strip()`. */
  function Strip(s: string): string
  {
    StripOf(s, Whitespace)
  }

  predicate IsDigit(c: char)
  {
    '0' <= c <= '9'
  }

  predicate AllDigits(s: string)
  {
    forall i :: 0 <= i < |s| ==> IsDigit(s[i])
  }

  /** The number a run of decimal digits writes. */
  function DigitsValue(ds: string): (n: nat)
    requires AllDigits(ds)
  {
    if ds == [] then 0
    else DigitsValue(ds[..|ds| - 1]) * 10 + (ds[|ds| - 1] as int - '0' as int)
  }

  const InvalidLiteral := ValueError("invalid literal for int() with base 10")

  /** Every character a decimal digit or an underscore. */
  predicate DigitsOrUnderscores(ds: string)
  {
    forall i :: 0 <= i < |ds| ==> IsDigit(ds[i]) || ds[i] == '_'
  }

  /** Decimal digits, with single underscores between them, as `int()` reads them. */
  predicate IsDigitGroups(ds: string)
  {
    ds != [] && IsDigit(ds[0]) && IsDigit(ds[|ds| - 1]) && DigitsOrUnderscores(ds) &&
    (forall i :: 0 <= i < |ds| - 1 && ds[i] == '_' ==> IsDigit(ds[i + 1]))
  }

  /** The characters of `s` other than underscores, in order. */
  function DropUnderscores(s: string): string
  {
    if s == [] then []
    else if s[0] == '_' then DropUnderscores(s[1..])
    else [s[0]] + DropUnderscores(s[1..])
  }

  /** Dropping the underscores of digits and underscores leaves digits. */
  lemma {:induction false} DropUnderscoresDigits(s: string)
    requires DigitsOrUnderscores(s)
    ensures AllDigits(DropUnderscores(s))
  {
    if s != [] {
      assert DigitsOrUnderscores(s[1..]) by {
        forall i | 0 <= i < |s[1..]| ensures IsDigit(s[1..][i]) || s[1..][i] == '_' {
          assert s[1..][i] == s[i + 1];
        }
      }
      DropUnderscoresDigits(s[1..]);
      var r := DropUnderscores(s[1..]);
      if s[0] != '_' {
        assert forall i :: 1 <= i < |[s[0]] + r| ==> ([s[0]] + r)[i] == r[i - 1];
      }
    }
  }

  lemma {:induction false} DropUnderscoresAppend(a: string, b: string)
    ensures DropUnderscores(a + b) == DropUnderscores(a) + DropUnderscores(b)
  {
    if a == [] {
      assert a + b == b;
    } else {
      assert (a + b)[0] == a[0] && (a + b)[1..] == a[1..] + b;
      DropUnderscoresAppend(a[1..], b);
      if a[0] != '_' {
        assert [a[0]] + (DropUnderscores(a[1..]) + DropUnderscores(b)) ==
          ([a[0]] + DropUnderscores(a[1..])) + DropUnderscores(b);
      }
    }
  }

  /** Plain digits are digit groups, and nothing is dropped from them. */
  lemma {:induction false} PlainDigits(d: string)
    requires d != [] && AllDigits(d)
    ensures IsDigitGroups(d) && DropUnderscores(d) == d
  {
    assert d[0] != '_';
    if |d| > 1 {
      assert AllDigits(d[1..]) by {
        forall i | 0 <= i < |d[1..]| ensures IsDigit(d[1..][i]) {
          assert d[1..][i] == d[i + 1];
        }
      }
      PlainDigits(d[1..]);
      assert d == [d[0]] + d[1..];
    } else {
      assert d[1..] == [];
      assert d == [d[0]];
    }
  }

  /** `int(t)` on a string without white space around it: an optional sign, then
      decimal digits that single underscores may group; ValueError for anything
      else. */
  function ParseNumber(t: string): (r: Result<int>)
    ensures r.Err? ==> r.error == InvalidLiteral
  {
    var neg := t != [] && t[0] == '-';
    var digits := if t != [] && (t[0] == '-' || t[0] == '+') then t[1..] else t;
    if !IsDigitGroups(digits) then Err(InvalidLiteral)
    else
      var ds := DropUnderscores(digits);
      DropUnderscoresDigits(digits);
      var v: int := DigitsValue(ds);
      Ok(if neg then -v else v)
  }

  lemma GroupsAroundUnderscore(x: string, y: string)
    requires x != [] && AllDigits(x) && y != [] && AllDigits(y)
    ensures IsDigitGroups(x + "_" + y)
  {
    var t := x + "_" + y;
    assert t[|x|] == '_';
    assert forall i :: 0 <= i < |x| ==> t[i] == x[i];
    assert forall i :: |x| < i < |t| ==> t[i] == y[i - |x| - 1];
    forall i | 0 <= i < |t| - 1 && t[i] == '_' ensures IsDigit(t[i + 1]) {
      assert i == |x|;
      assert t[i + 1] == y[0];
    }
  }

  lemma DigitsJoined(x: string, y: string)
    requires AllDigits(x) && AllDigits(y)
    ensures AllDigits(x + y)
  {
    assert forall i :: |x| <= i < |x + y| ==> (x + y)[i] == y[i - |x|];
  }

  /** Digit groups without a sign are the number their digits write. */
  lemma ParseGroups(t: string)
    requires IsDigitGroups(t)
    ensures AllDigits(DropUnderscores(t)) && ParseNumber(t) == Ok(DigitsValue(DropUnderscores(t)))
  {
    DropUnderscoresDigits(t);
  }

  lemma DropAroundUnderscore(x: string, y: string)
    requires x != [] && AllDigits(x) && y != [] && AllDigits(y)
    ensures DropUnderscores(x + "_" + y) == x + y
  {
    PlainDigits(x);
    PlainDigits(y);
    DropUnderscoresAppend(x + "_", y);
    DropUnderscoresAppend(x, "_");
    assert DropUnderscores("_") == [];
  }

  /** An underscore between two runs of digits does not change the number. */
  lemma UnderscoreIgnored(x: string, y: string)
    requires x != [] && AllDigits(x) && y != [] && AllDigits(y)
    ensures ParseNumber(x + "_" + y) == ParseNumber(x + y)
  {
    GroupsAroundUnderscore(x, y);
    DropAroundUnderscore(x, y);
    DigitsJoined(x, y);
    PlainDigits(x + y);
    ParseGroups(x + "_" + y);
    ParseGroups(x + y);
  }

  /** `int(s)` on a string: white space around it is ignored. */
  function ParseInt(s: string): (r: Result<int>)
    ensures r.Err? ==> r.error == InvalidLiteral
  {
    ParseNumber(Strip(s))
  }

  /** The decimal digits of `n`, without leading zeros. */
  function NatToString(n: nat): (s: string)
    ensures s != [] && AllDigits(s) && s[0] != '-' && s[0] != '+'
    ensures s[0] !in Whitespace && s[|s| - 1] !in Whitespace
  {
    var d := ['0' + ((n % 10) as char)];
    if n < 10 then d else NatToString(n / 10) + d
  }

  /** `str(n)`. */
  function IntToString(n: int): string
  {
    if n < 0 then "-" + NatToString(-n) else NatToString(n)
  }

  lemma {:induction false} DigitsOfNat(n: nat)
    ensures DigitsValue(NatToString(n)) == n
  {
    var s := NatToString(n);
    if n < 10 {
      assert s[..0] == [];
    } else {
      DigitsOfNat(n / 10);
      assert s[..|s| - 1] == NatToString(n / 10);
    }
  }

  /** `int` reads back what `str` writes. */
  lemma ParseNumberOf(n: int)
    ensures ParseNumber(IntToString(n)) == Ok(n)
  {
    var m: nat := if n < 0 then -n else n;
    var d := NatToString(m);
    DigitsOfNat(m);
    PlainDigits(d);
    if n < 0 {
      var s := IntToString(n);
      assert s == "-" + d && s[0] == '-' && s[1..] == d;
    }
  }

  /** `int(str(n)) == n`, with any white space around it. */
  lemma ParseIntToString(n: int, a: string, b: string)
    requires AllIn(a, Whitespace) && AllIn(b, Whitespace)
    ensures ParseInt(a + IntToString(n) + b) == Ok(n)
  {
    var s := IntToString(n);
    if n < 0 {
      var d := NatToString(-n);
      assert s == "-" + d && s[|s| - 1] == d[|d| - 1];
    }
    StripSurrounded(a, s, b, Whitespace);
    ParseNumberOf(n);
  }

  /** Text with no digit in it is never a number, however it is padded. */
  lemma ParseIntNeedsDigits(s: string)
    requires forall i :: 0 <= i < |s| ==> !IsDigit(s[i])
    ensures ParseInt(s).Err?
  {
    var u := TrimStartOf(s, Whitespace);
    var t := TrimEndOf(u, Whitespace);
    assert forall i :: 0 <= i < |t| ==> t[i] == u[i] && u[i] == s[|s| - |u| + i];
    ParseNumberNeedsDigits(t);
  }

  lemma ParseNumberNeedsDigits(t: string)
    requires forall i :: 0 <= i < |t| ==> !IsDigit(t[i])
    ensures ParseNumber(t).Err?
  {
    if |t| > 1 {
      assert t[1..][0] == t[1];
    }
  }
}
