/** JSON values and the insertion-ordered dictionaries the crawler builds and the savers store. */
module Records {
  import opened Base

  /** A JSON value as `json.load` produces it. */
  datatype Value =
    | Null
    | Bool(b: bool)
    | Int(i: int)
    | Str(s: string)
    | List(items: seq<Value>)
    | Obj(fields: map<string, Value>)

  /** A Python dict: its keys in insertion order, and what each key maps to. */
  datatype Dict = Dict(keys: seq<string>, vals: map<string, Value>)

  /** The records the spiders collect and the savers store are dicts. */
  type Record = Dict

  ghost predicate Distinct(xs: seq<string>)
  {
    forall i, j :: 0 <= i < j < |xs| ==> xs[i] != xs[j]
  }

  /** What a Python dict always is: its key list names each of its keys exactly once.
      The operations below keep it (the lemmas after each say so). */
  ghost predicate WellFormed(d: Dict)
  {
    Distinct(d.keys) && forall k :: k in d.vals <==> k in d.keys
  }

  lemma DistinctTail(xs: seq<string>)
    requires xs != []
    ensures Distinct(xs) ==> Distinct(xs[1..]) && xs[0] !in xs[1..]
  {
    if Distinct(xs) {
      forall i, j | 0 <= i < j < |xs[1..]| ensures xs[1..][i] != xs[1..][j] {
        assert xs[1..][i] == xs[i + 1] && xs[1..][j] == xs[j + 1];
      }
    }
  }

  lemma DistinctAppend(a: seq<string>, b: seq<string>)
    requires Distinct(a) && Distinct(b) && forall x :: x in a ==> x !in b
    ensures Distinct(a + b)
  {
    var s := a + b;
    forall i, j | 0 <= i < j < |s| ensures s[i] != s[j] {
      if j < |a| {
        assert s[i] == a[i] && s[j] == a[j];
      } else if i < |a| {
        assert s[i] == a[i] && a[i] in a && s[j] == b[j - |a|];
      } else {
        assert s[i] == b[i - |a|] && s[j] == b[j - |a|];
      }
    }
  }

  /** `xs` without `k`, order kept. */
  function Without(xs: seq<string>, k: string): (r: seq<string>)
    ensures forall x :: x in r <==> x in xs && x != k
    ensures Distinct(xs) ==> Distinct(r)
    ensures k !in xs ==> r == xs
  {
    if xs == [] then []
    else if xs[0] == k then Without(xs[1..], k)
    else
      var rest := Without(xs[1..], k);
      assert forall x :: x in xs ==> x == xs[0] || x in xs[1..];
      DistinctTail(xs);
      [xs[0]] + rest
  }

  /** The keys of `ks` that `present` does not have, in the order of `ks`. */
  function NewKeys(ks: seq<string>, present: map<string, Value>): seq<string>
  {
    if ks == [] then []
    else if ks[0] in present then NewKeys(ks[1..], present)
    else [ks[0]] + NewKeys(ks[1..], present)
  }

  lemma {:induction false} NewKeysFacts(ks: seq<string>, present: map<string, Value>)
    ensures forall x :: x in NewKeys(ks, present) <==> x in ks && x !in present
    ensures Distinct(ks) ==> Distinct(NewKeys(ks, present))
  {
    if ks != [] {
      var rest := NewKeys(ks[1..], present);
      NewKeysFacts(ks[1..], present);
      DistinctTail(ks);
      assert forall x :: x in ks ==> x == ks[0] || x in ks[1..];
      if ks[0] !in present {
        assert forall i :: 1 <= i < |[ks[0]] + rest| ==> ([ks[0]] + rest)[i] == rest[i - 1];
      }
    }
  }

  /** `d.update(e)`: the keys of `e` are put into `d` one after the other. The dict
      then has the keys of both, with the values of `e` where `e` has the key and
      those of `d` elsewhere; the keys of `d` keep their places, and what is new
      follows in the order of `e`. */
  function Update(d: Record, e: Record): (r: Record)
    ensures forall k :: k in r.vals <==> k in d.vals || k in e.vals
    ensures forall k :: k in e.vals ==> r.vals[k] == e.vals[k]
    ensures forall k :: k in d.vals && k !in e.vals ==> r.vals[k] == d.vals[k]
    ensures |d.keys| <= |r.keys| && r.keys[..|d.keys|] == d.keys
    ensures forall k :: k in r.keys[|d.keys|..] <==> k in e.keys && k !in d.vals
  {
    var r := Dict(d.keys + NewKeys(e.keys, d.vals), d.vals + e.vals);
    NewKeysFacts(e.keys, d.vals);
    assert r.keys[..|d.keys|] == d.keys && r.keys[|d.keys|..] == NewKeys(e.keys, d.vals);
    r
  }

  lemma UpdateWellFormed(d: Record, e: Record)
    requires WellFormed(d) && WellFormed(e)
    ensures WellFormed(Update(d, e))
  {
    NewKeysFacts(e.keys, d.vals);
    DistinctAppend(d.keys, NewKeys(e.keys, d.vals));
  }

  datatype Popped = Popped(value: Value, rest: Record)

  /** `d.pop(k)`: the value of `k`, and the dict without `k`, every other key keeping
      its value; KeyError when `k` is absent. */
  function Pop(d: Record, k: string): (r: Result<Popped>)
    ensures r.Ok? <==> k in d.vals
    ensures r.Err? ==> r.error == KeyError(k)
    ensures r.Ok? ==> r.value.value == d.vals[k]
    ensures r.Ok? ==> forall x :: x in r.value.rest.vals <==> x in d.vals && x != k
    ensures r.Ok? ==> forall x :: x in r.value.rest.vals ==> r.value.rest.vals[x] == d.vals[x]
    ensures r.Ok? ==> forall x :: x in r.value.rest.keys <==> x in d.keys && x != k
  {
    if k in d.vals then Ok(Popped(d.vals[k], Dict(Without(d.keys, k), d.vals - {k})))
    else Err(KeyError(k))
  }

  /** In a list naming `k` once, `k` sits at some place `p`, and taking it out leaves
      the other keys in their order around that place. */
  lemma {:induction false} WithoutPlace(xs: seq<string>, k: string) returns (p: nat)
    requires Distinct(xs) && k in xs
    ensures var r := Without(xs, k); p <= |r| && xs == r[..p] + [k] + r[p..]
  {
    DistinctTail(xs);
    if xs[0] == k {
      p := 0;
      assert xs == [k] + xs[1..];
    } else {
      var q := WithoutPlace(xs[1..], k);
      var rest := Without(xs[1..], k);
      p := q + 1;
      ConsSlices(xs[0], rest, q);
      assert xs == [xs[0]] + xs[1..];
    }
  }

  lemma ConsSlices(a: string, r: seq<string>, q: nat)
    requires q <= |r|
    ensures ([a] + r)[..q + 1] == [a] + r[..q] && ([a] + r)[q + 1..] == r[q..]
  {
  }

  /** `pop` changes the key order of a dict in no other way: putting `k` back at its
      old place gives the old key list. */
  lemma PopKeyOrder(d: Record, k: string) returns (p: nat)
    requires WellFormed(d) && k in d.vals
    ensures var rest := Pop(d, k).value.rest; p <= |rest.keys| && d.keys == rest.keys[..p] + [k] + rest.keys[p..]
  {
    p := WithoutPlace(d.keys, k);
  }

  lemma PopWellFormed(d: Record, k: string)
    requires WellFormed(d) && k in d.vals
    ensures WellFormed(Pop(d, k).value.rest)
  {
  }

  /** A dict built from `keys` (distinct) and the values at the same positions. */
  function FromPairs(keys: seq<string>, vals: seq<Value>): (r: Record)
    requires |keys| == |vals| && Distinct(keys)
    ensures r.keys == keys
    ensures forall i :: 0 <= i < |keys| ==> keys[i] in r.vals && r.vals[keys[i]] == vals[i]
  {
    var m := map i | 0 <= i < |keys| :: keys[i] := vals[i];
    assert forall i :: 0 <= i < |keys| ==> keys[i] in m;
    Dict(keys, m)
  }

  lemma FromPairsWellFormed(keys: seq<string>, vals: seq<Value>)
    requires |keys| == |vals| && Distinct(keys)
    ensures WellFormed(FromPairs(keys, vals))
  {
  }
}
