/** The cross-page failure counter that `get_links`, `MafengwoSpider.run`,
    `CtripSpider.run` and `BaiduPoiSpider.run` each carry as the local pair
    (`num`, `lastPage`), and that raises ValueError('NetWork Unavailable!'). */
module CircuitBreaker {

  /** `num` and `lastPage` (`lastLink` in `MafengwoSpider.run`). `lastPage` is
      unbound in the source until the first failure; it is never read while
      `num == 1`, so the model starts it at 0 (see `FreshIgnoresLastPage`). */
  datatype Breaker = Breaker(num: nat, lastPage: int)

  const Fresh := Breaker(1, 0)
  const Limit := 10

  /** A failure either moves the counter or raises. */
  datatype Step = Moved(next: Breaker) | Tripped

  /** What one failed fetch at position `page` does to the counter. */
  function OnFailure(b: Breaker, page: int): Step
  {
    if b.num == 1 then Moved(Breaker(2, page))
    else if page != b.lastPage + 1 then Moved(Breaker(1, b.lastPage))
    else if b.num <= Limit then Moved(Breaker(b.num + 1, page))
    else Tripped
  }

  /** The failures `fs`, fed in order; stops at the first one that raises. */
  function Feed(b: Breaker, fs: seq<int>): Step
    decreases |fs|
  {
    if fs == [] then Moved(b)
    else match OnFailure(b, fs[0])
      case Tripped => Tripped
      case Moved(b') => Feed(b', fs[1..])
  }

  /** Feeding `fs` raises exactly at its last element. */
  predicate TripsAtLast(b: Breaker, fs: seq<int>)
  {
    fs != [] && Feed(b, fs[..|fs| - 1]).Moved? && OnFailure(Feed(b, fs[..|fs| - 1]).next, fs[|fs| - 1]) == Tripped
  }

  /** `k` consecutive positions starting at `p`. */
  function Consecutive(p: int, k: nat): (r: seq<int>)
    ensures |r| == k && forall i :: 0 <= i < k ==> r[i] == p + i
  {
    if k == 0 then [] else Consecutive(p, k - 1) + [p + k - 1]
  }

  ghost predicate Valid(b: Breaker)
  {
    1 <= b.num <= Limit + 1
  }

  /** The counter never leaves 1..11. */
  lemma OnFailureValid(b: Breaker, page: int)
    requires Valid(b)
    ensures OnFailure(b, page).Moved? ==> Valid(OnFailure(b, page).next)
    ensures OnFailure(b, page) == Tripped ==> b.num == Limit + 1
  {
  }

  /** While `num == 1` the value of `lastPage` makes no difference. */
  lemma FreshIgnoresLastPage(x: int, y: int, fs: seq<int>)
    requires fs != []
    ensures Feed(Breaker(1, x), fs) == Feed(Breaker(1, y), fs)
  {
  }

  lemma FeedAppend(b: Breaker, fs: seq<int>, p: int)
    requires Feed(b, fs).Moved?
    ensures Feed(b, fs + [p]) == OnFailure(Feed(b, fs).next, p)
    decreases |fs|
  {
    if fs == [] {
      assert fs + [p] == [p];
    } else {
      assert (fs + [p])[0] == fs[0] && (fs + [p])[1..] == fs[1..] + [p];
      FeedAppend(OnFailure(b, fs[0]).next, fs[1..], p);
    }
  }

  /** The history behind a counter: when `num >= 2`, the last `num - 1` failures
      were at the consecutive positions ending at `lastPage`. */
  ghost predicate Chained(b: Breaker, fs: seq<int>)
  {
    b.num >= 2 ==> b.num - 1 <= |fs| && Ending(fs, b.num - 1, b.lastPage)
  }

  /** The last `k` entries of `fs` are the consecutive positions ending at `last`. */
  ghost predicate Ending(fs: seq<int>, k: nat, last: int)
    requires k <= |fs|
  {
    forall j :: |fs| - k <= j < |fs| ==> fs[j] == last - (|fs| - 1 - j)
  }

  lemma {:induction false} ChainedStep(b: Breaker, fs: seq<int>, p: int)
    requires Chained(b, fs)
    ensures OnFailure(b, p).Moved? ==> Chained(OnFailure(b, p).next, fs + [p])
    ensures OnFailure(b, p) == Tripped ==>
      b.num - 1 <= |fs| && p == b.lastPage + 1 && Ending(fs, b.num - 1, b.lastPage)
  {
    var g := fs + [p];
    if b.num != 1 && p == b.lastPage + 1 && b.num <= Limit {
      forall j | |g| - b.num <= j < |g| ensures g[j] == p - (|g| - 1 - j) {
        if j < |fs| {
          assert g[j] == fs[j];
        }
      }
    }
  }

  lemma {:induction false} ChainedFeed(b: Breaker, h: seq<int>, fs: seq<int>)
    requires Chained(b, h)
    ensures Feed(b, fs).Moved? ==> Chained(Feed(b, fs).next, h + fs)
    decreases |fs|
  {
    if fs != [] {
      ChainedStep(b, h, fs[0]);
      if OnFailure(b, fs[0]).Moved? {
        ChainedFeed(OnFailure(b, fs[0]).next, h + [fs[0]], fs[1..]);
        assert h + [fs[0]] + fs[1..] == h + fs;
      }
    }
  }

  /** The breaker raises only on the eleventh failure of a run of failures at
      strictly consecutive positions: the failures that raise, fed from a fresh
      counter, end with eleven consecutive positions. */
  lemma TripNeedsElevenAdjacent(fs: seq<int>)
    requires TripsAtLast(Fresh, fs)
    ensures |fs| >= Limit + 1
    ensures Ending(fs, Limit + 1, fs[|fs| - 1])
  {
    var init := fs[..|fs| - 1];
    var p := fs[|fs| - 1];
    assert [] + init == init;
    ChainedFeed(Fresh, [], init);
    var b := Feed(Fresh, init).next;
    ChainedStep(b, init, p);
    assert init + [p] == fs;
    forall j | |fs| - (Limit + 1) <= j < |fs| ensures fs[j] == p - (|fs| - 1 - j) {
      if j < |init| {
        assert fs[j] == init[j];
      }
    }
  }

  /** From a counter at 1, the first ten failures at consecutive positions move it
      to 2, 3, ..., 11, raising nothing. */
  lemma {:induction false} RunBelowLimit(b: Breaker, p: int, k: nat)
    requires b.num == 1 && 1 <= k <= Limit
    ensures Feed(b, Consecutive(p, k)) == Moved(Breaker(k + 1, p + k - 1))
  {
    if k == 1 {
      assert Consecutive(p, 1) == [p];
    } else {
      RunBelowLimit(b, p, k - 1);
      FeedAppend(b, Consecutive(p, k - 1), p + k - 1);
    }
  }

  /** ... and the eleventh raises. */
  lemma RunTripsAtEleventh(b: Breaker, p: int)
    requires b.num == 1
    ensures TripsAtLast(b, Consecutive(p, Limit + 1))
  {
    var r := Consecutive(p, Limit + 1);
    assert r[..Limit] == Consecutive(p, Limit);
    RunBelowLimit(b, p, Limit);
  }

  /** The failure that breaks a run is not counted itself: after it the next
      failure starts a new run, so eleven consecutive failures that begin with
      it raise nothing. */
  lemma BreakingFailureNotCounted(p: int, q: int)
    requires q != p + 1
    ensures Feed(Fresh, [p] + Consecutive(q, Limit + 1)) == Moved(Breaker(Limit + 1, q + Limit))
  {
    var r := Consecutive(q, Limit + 1);
    assert ([p] + r)[0] == p && ([p] + r)[1..] == r;
    assert r[0] == q && r[1..] == Consecutive(q + 1, Limit);
    assert Feed(Fresh, [p] + r) == Feed(Breaker(2, p), r);
    assert Feed(Breaker(2, p), r) == Feed(Breaker(1, p), r[1..]);
    RunBelowLimit(Breaker(1, p), q + 1, Limit);
  }
}
