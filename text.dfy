/** Python's string operations that the crawler and the savers use, on `seq<char>`. */
module Text {

  /** `s.startswith(p)`. */
  predicate StartsWith(s: string, p: string)
  {
    |p| <= |s| && s[..|p|] == p
  }

  /** `p in s` for strings: `p` occurs in `s` as a contiguous piece. */
  predicate Contains(s: string, p: string)
    decreases |s|
  {
    StartsWith(s, p) || (|s| > 0 && Contains(s[1..], p))
  }

  /** `sep.join(xs)`. */
  function Join(xs: seq<string>, sep: string): string
  {
    if |xs| == 0 then ""
    else if |xs| == 1 then xs[0]
    else xs[0] + sep + Join(xs[1..], sep)
  }

  /** Index of the first occurrence of `c` in `s`. */
  function FirstIndex(s: string, c: char): (i: nat)
    requires c in s
    ensures i < |s| && s[i] == c && c !in s[..i]
  {
    if s[0] == c then 0 else 1 + FirstIndex(s[1..], c)
  }

  /** `s.split(c)`: the pieces between the occurrences of `c`; never empty. */
  function Split(s: string, c: char): (r: seq<string>)
    ensures |r| >= 1
    decreases |s|
  {
    if c !in s then [s]
    else
      var i := FirstIndex(s, c);
      [s[..i]] + Split(s[i + 1..], c)
  }

  /** Each string of `xs` with `t` in front of it. */
  function Prefixed(t: string, xs: seq<string>): (r: seq<string>)
    ensures |r| == |xs|
    ensures forall i :: 0 <= i < |xs| ==> r[i] == t + xs[i]
  {
    if xs == [] then [] else [t + xs[0]] + Prefixed(t, xs[1..])
  }

  predicate NoneContains(xs: seq<string>, c: char)
  {
    forall i :: 0 <= i < |xs| ==> c !in xs[i]
  }

  lemma NoneContainsTail(xs: seq<string>, c: char)
    requires xs != [] && NoneContains(xs, c)
    ensures c !in xs[0] && NoneContains(xs[1..], c)
  {
    forall i | 0 <= i < |xs| - 1 ensures c !in xs[1..][i] {
      assert xs[1..][i] == xs[i + 1];
    }
  }

  /** Every character of `s` is one of `chars`. */
  predicate AllIn(s: string, chars: set<char>)
  {
    forall i :: 0 <= i < |s| ==> s[i] in chars
  }

  /** `s.lstrip(chars)`. */
  function TrimStartOf(s: string, chars: set<char>): (r: string)
    ensures |r| <= |s| && r == s[|s| - |r|..]
    ensures r == [] || r[0] !in chars
    ensures forall i :: 0 <= i < |s| - |r| ==> s[i] in chars
  {
    if s != [] && s[0] in chars then
      var r := TrimStartOf(s[1..], chars);
      assert forall i :: 1 <= i < |s| - |r| ==> s[i] == s[1..][i - 1];
      r
    else s
  }

  /** `s.rstrip(chars)`. */
  function TrimEndOf(s: string, chars: set<char>): (r: string)
    ensures |r| <= |s| && r == s[..|r|]
    ensures r == [] || r[|r| - 1] !in chars
    ensures forall i :: |r| <= i < |s| ==> s[i] in chars
  {
    if s != [] && s[|s| - 1] in chars then
      var r := TrimEndOf(s[..|s| - 1], chars);
      assert forall i :: |r| <= i < |s| - 1 ==> s[..|s| - 1][i] == s[i];
      r
    else s
  }

  /** `s.strip(chars)`: every character of `chars` is taken off both ends, in any
      order and any number. */
  function StripOf(s: string, chars: set<char>): string
  {
    TrimEndOf(TrimStartOf(s, chars), chars)
  }

  lemma {:induction false} TrimStartOfSkips(a: string, r: string, chars: set<char>)
    requires AllIn(a, chars) && (r == [] || r[0] !in chars)
    ensures TrimStartOf(a + r, chars) == r
    decreases |a|
  {
    if a != [] {
      assert (a + r)[0] == a[0] && (a + r)[1..] == a[1..] + r;
      TrimStartOfSkips(a[1..], r, chars);
    } else {
      assert a + r == r;
    }
  }

  lemma {:induction false} TrimEndOfSkips(r: string, b: string, chars: set<char>)
    requires AllIn(b, chars) && (r == [] || r[|r| - 1] !in chars)
    ensures TrimEndOf(r + b, chars) == r
    decreases |b|
  {
    if b != [] {
      var s := r + b;
      assert s[|s| - 1] == b[|b| - 1] && s[..|s| - 1] == r + b[..|b| - 1];
      TrimEndOfSkips(r, b[..|b| - 1], chars);
    } else {
      assert r + b == r;
    }
  }

  /** `strip(chars)` removes exactly the characters of `chars` around the text and
      nothing inside it. */
  lemma StripSurrounded(a: string, m: string, b: string, chars: set<char>)
    requires AllIn(a, chars) && AllIn(b, chars)
    requires m == [] || (m[0] !in chars && m[|m| - 1] !in chars)
    ensures StripOf(a + m + b, chars) == m
  {
    assert a + m + b == a + (m + b);
    if m == [] {
      assert m + b == b && AllIn(a + b, chars);
      TrimStartOfSkips(a + b, [], chars);
      assert a + b + [] == a + b;
    } else {
      assert (m + b)[0] == m[0];
      TrimStartOfSkips(a, m + b, chars);
      TrimEndOfSkips(m, b, chars);
    }
  }

  /** Splitting at the first separator: the piece before it, then the split of what
      follows it. */
  lemma SplitAfter(head: string, c: char, rest: string)
    requires c !in head
    ensures Split(head + [c] + rest, c) == [head] + Split(rest, c)
  {
    var s := head + [c] + rest;
    assert s[|head|] == c && s[..|head|] == head && s[|head| + 1..] == rest;
    FirstIndexAt(s, c, |head|);
  }

  /** The first occurrence of `c` is at `k` when `s[k]` is `c` and no earlier
      character is. */
  lemma {:induction false} FirstIndexAt(s: string, c: char, k: nat)
    requires k < |s| && s[k] == c && c !in s[..k]
    ensures FirstIndex(s, c) == k
    decreases k
  {
    if k > 0 {
      assert s[..k] == [s[0]] + s[1..k];
      assert s[1..][..k - 1] == s[1..k] && s[1..][k - 1] == s[k];
      FirstIndexAt(s[1..], c, k - 1);
    }
  }

  /** Splitting at `c` undoes a join whose separator starts with `c`, provided `c`
      occurs in no piece and in nothing else of the separator: every piece but the
      first comes back with the rest of the separator in front of it. */
  lemma {:induction false} SplitJoin(p: string, xs: seq<string>, c: char, t: string)
    requires |xs| >= 1 && NoneContains(xs, c) && c !in p && c !in t
    ensures Split(p + Join(xs, [c] + t), c) == [p + xs[0]] + Prefixed(t, xs[1..])
    decreases |xs|
  {
    if |xs| == 1 {
      assert c !in p + xs[0];
      assert xs[1..] == [];
    } else {
      var head := p + xs[0];
      var rest := Join(xs[1..], [c] + t);
      assert p + Join(xs, [c] + t) == head + [c] + (t + rest);
      SplitAfter(head, c, t + rest);
      SplitJoin(t, xs[1..], c, t);
      assert xs[1..][0] == xs[1] && xs[1..][1..] == xs[2..];
      assert Prefixed(t, xs[1..]) == [t + xs[1]] + Prefixed(t, xs[2..]);
    }
  }

  /** The round trip of `','.join` and `.split(',')`. */
  lemma {:induction false} SplitJoinComma(xs: seq<string>)
    requires |xs| >= 1 && NoneContains(xs, ',')
    ensures Split(Join(xs, ","), ',') == xs
    decreases |xs|
  {
    var s := Join(xs, ",");
    if |xs| == 1 {
      assert s == xs[0] && ',' !in s;
    } else {
      var rest := Join(xs[1..], ",");
      assert s == xs[0] + [','] + rest;
      SplitAfter(xs[0], ',', rest);
      NoneContainsTail(xs, ',');
      SplitJoinComma(xs[1..]);
      assert [xs[0]] + xs[1..] == xs;
    }
  }
}
