/** The page walker the spiders share: fetch a target, re-fetch it while the page has
    the wrong shape, hand an accepted page to its handler, and feed every failed fetch
    to the circuit breaker. */
module Walker {
  import opened Base
  import opened Transport
  import opened CircuitBreaker

  /** What a shape-check loop does with a page of the wrong shape: fetch it again, or
      raise before fetching (the source's `self.proxyer` and `'/'.join` lines). */
  datatype Mismatch = Retry | Raise(e: Error)

  /** The outcome of fetching one target with its shape check. */
  datatype Checked<+P> = Accepted(body: P) | NotFetched | Crashed(e: Error) | Stalled

  datatype CheckedFetch<+P> = CheckedFetch(result: Checked<P>, next: nat)

  /** `html.text` on the `None` that a failed re-fetch returns. */
  const NoneText := AttributeError("text")

  /** The shape-check loop `while True: ... if <shape>: break ... html = request_html(...)`
      entered with a fetched page `body`; `cap` bounds the re-fetches. */
  function Recheck<P>(net: nat -> Outcome<P>, at: nat, body: P, accept: P -> bool,
                      onMismatch: Mismatch, cap: nat): (r: CheckedFetch<P>)
    ensures r.next >= at
    ensures r.result.Accepted? ==> accept(r.result.body)
    ensures !r.result.NotFetched?
    ensures r.result.Crashed? ==> r.result.e == (if onMismatch.Raise? then onMismatch.e else NoneText)
    ensures accept(body) ==> r == CheckedFetch(Accepted(body), at)
    decreases cap
  {
    if accept(body) then CheckedFetch(Accepted(body), at)
    else match onMismatch
      case Raise(e) => CheckedFetch(Crashed(e), at)
      case Retry =>
        if cap == 0 then CheckedFetch(Stalled, at)
        else
          var f := Request(net, at);
          match f.response
          case None => CheckedFetch(Crashed(NoneText), f.next)
          case Some(html) => Recheck(net, f.next, html.body, accept, onMismatch, cap - 1)
  }

  /** `html = request_html(...)` followed, when it returned a page, by the shape-check loop. */
  function FetchChecked<P>(net: nat -> Outcome<P>, at: nat, accept: P -> bool,
                           onMismatch: Mismatch, cap: nat): CheckedFetch<P>
  {
    var f := Request(net, at);
    match f.response
    case None => CheckedFetch(NotFetched, f.next)
    case Some(html) => Recheck(net, f.next, html.body, accept, onMismatch, cap)
  }

  /** `fetch` is `FetchChecked` on `net` with this shape check, mismatch handling and
      bound. Callers hold such a `fetch` as an opaque value, so that their proofs do
      not unfold the fetch chain; the trigger makes the link available only where a
      `FetchChecked` term is in sight. */
  ghost predicate FetchesLike<P>(fetch: nat -> CheckedFetch<P>, net: nat -> Outcome<P>, accept: P -> bool,
                                 onMismatch: Mismatch, cap: nat)
  {
    forall at: nat {:trigger FetchChecked(net, at, accept, onMismatch, cap)} ::
      fetch(at) == FetchChecked(net, at, accept, onMismatch, cap)
  }

  /** The `fetch` that is `FetchChecked` itself. */
  function Fetches<P>(net: nat -> Outcome<P>, accept: P -> bool, onMismatch: Mismatch, cap: nat): (fetch: nat -> CheckedFetch<P>)
    ensures FetchesLike(fetch, net, accept, onMismatch, cap)
  {
    (at: nat) => FetchChecked(net, at, accept, onMismatch, cap)
  }

  /** `FetchChecked` as the spiders' loops run it. */
  method FetchCheckedPage<P>(n: Network<P>, accept: P -> bool, onMismatch: Mismatch, cap: nat,
                             ghost fetch: nat -> CheckedFetch<P>)
    returns (r: Checked<P>)
    requires FetchesLike(fetch, n.net, accept, onMismatch, cap)
    modifies n
    ensures CheckedFetch(r, n.sent) == fetch(old(n.sent))
  {
    assert fetch(n.sent) == FetchChecked(n.net, n.sent, accept, onMismatch, cap);
    var html := n.RequestHtml();
    if html.None? {
      return NotFetched;
    }
    var page := html.value;
    var left := cap;
    ghost var goal := FetchChecked(n.net, old(n.sent), accept, onMismatch, cap);
    while true
      invariant goal == Recheck(n.net, n.sent, page.body, accept, onMismatch, left)
      decreases left
    {
      if accept(page.body) {
        return Accepted(page.body);
      }
      if onMismatch.Raise? {
        return Crashed(onMismatch.e);
      }
      if left == 0 {
        return Stalled;
      }
      html := n.RequestHtml();
      left := left - 1;
      if html.None? {
        return Crashed(NoneText);
      }
      page := html.value;
    }
  }

  /** A shape mismatch never reaches the failure counter: after `k` wrong-shaped pages
      and a right one, all fetched at the first try, the page is accepted after exactly
      `k` extra fetches. */
  lemma {:induction false} MismatchesThenAccepted<P>(net: nat -> Outcome<P>, at: nat, bodies: seq<P>,
                                                    accept: P -> bool, cap: nat)
    requires 1 <= |bodies| <= cap + 1
    requires forall i :: 0 <= i < |bodies| ==> net(at + i) == Success(bodies[i])
    requires forall i :: 0 <= i < |bodies| - 1 ==> !accept(bodies[i])
    requires accept(bodies[|bodies| - 1])
    ensures FetchChecked(net, at, accept, Retry, cap) ==
            CheckedFetch(Accepted(bodies[|bodies| - 1]), at + |bodies|)
  {
    assert net(at + 0) == Success(bodies[0]);
    RecheckMismatches(net, at + 1, bodies, accept, cap);
  }

  lemma {:induction false} RecheckMismatches<P>(net: nat -> Outcome<P>, at: nat, bodies: seq<P>,
                                               accept: P -> bool, cap: nat)
    requires 1 <= |bodies| <= cap + 1
    requires forall i :: 1 <= i < |bodies| ==> net(at + i - 1) == Success(bodies[i])
    requires forall i :: 0 <= i < |bodies| - 1 ==> !accept(bodies[i])
    requires accept(bodies[|bodies| - 1])
    ensures Recheck(net, at, bodies[0], accept, Retry, cap) ==
            CheckedFetch(Accepted(bodies[|bodies| - 1]), at + |bodies| - 1)
    decreases |bodies|
  {
    if |bodies| > 1 {
      assert net(at + 1 - 1) == Success(bodies[1]);
      assert Request(net, at) == Fetch(Some(Response(bodies[1], Utf8)), at + 1);
      forall i | 1 <= i < |bodies[1..]| ensures net(at + 1 + i - 1) == Success(bodies[1..][i]) {
        assert net(at + (i + 1) - 1) == Success(bodies[i + 1]);
      }
      RecheckMismatches(net, at + 1, bodies[1..], accept, cap - 1);
    }
  }

  /** How a walk over targets ended: it went through them all, the breaker raised
      ValueError('NetWork Unavailable!'), or something else raised. */
  datatype Halt = Done | Unavailable | Raised(e: Error)

  /** What a page handler did with an accepted page: the items it produced, where the
      network stands afterwards, and what it raised, if anything. */
  datatype Handled<+R> = Handled(items: seq<R>, next: nat, raised: Option<Error>)

  /** The accepted pages the handler went through without raising, the handler's
      items, the positions whose fetch failed (in order), the final counter, the
      network position, and how the walk ended. */
  datatype WalkResult<+P, +R> =
    WalkResult(pages: seq<P>, items: seq<R>, failed: seq<int>, breaker: Breaker, next: nat, halt: Halt)

  /** What visiting one target gives: an accepted page, a failure the counter took,
      or the end of the walk. */
  datatype Visit<+P> = Got(body: P) | Missed(b: Breaker) | Stop(halt: Halt)

  datatype Visited<+P> = Visited(visit: Visit<P>, next: nat)

  /** One iteration of a page loop up to its handler: `html = request_html(...)`, the
      shape-check loop when a page came back, the failure counter when none did. */
  function VisitTarget<P>(net: nat -> Outcome<P>, at: nat, accept: P -> bool, onMismatch: Mismatch, cap: nat,
                          b: Breaker, target: int): (r: Visited<P>)
  {
    var f := FetchChecked(net, at, accept, onMismatch, cap);
    match f.result
    case Accepted(body) => Visited(Got(body), f.next)
    case NotFetched =>
      (match OnFailure(b, target)
       case Tripped => Visited(Stop(Unavailable), f.next)
       case Moved(b') => Visited(Missed(b'), f.next))
    case Crashed(e) => Visited(Stop(Raised(e)), f.next)
    case Stalled => Visited(Stop(Raised(OutOfFuel)), f.next)
  }

  /** `visit(at, b, t)` and `handle(at, body)`, as functions whose results carry
      their types. */
  function Visiting<P>(visit: (nat, Breaker, int) -> Visited<P>, at: nat, b: Breaker, t: int): Visited<P>
  {
    visit(at, b, t)
  }

  function Handling<P, R>(handle: (nat, P) -> Handled<R>, at: nat, body: P): Handled<R>
  {
    handle(at, body)
  }

  /** `visit` is `VisitTarget` on `net` with this shape check and bound (see
      `FetchesLike` for why it is held as an opaque value). */
  ghost predicate VisitsLike<P>(visit: (nat, Breaker, int) -> Visited<P>, net: nat -> Outcome<P>,
                                accept: P -> bool, onMismatch: Mismatch, cap: nat)
  {
    forall at: nat, b: Breaker, t: int {:trigger VisitTarget(net, at, accept, onMismatch, cap, b, t)} ::
      Visiting(visit, at, b, t) == VisitTarget(net, at, accept, onMismatch, cap, b, t)
  }

  /** The `visit` that is `VisitTarget` itself. */
  function Visits<P>(net: nat -> Outcome<P>, accept: P -> bool, onMismatch: Mismatch, cap: nat)
    : (visit: (nat, Breaker, int) -> Visited<P>)
    ensures VisitsLike(visit, net, accept, onMismatch, cap)
  {
    (at: nat, b: Breaker, t: int) => VisitTarget(net, at, accept, onMismatch, cap, b, t)
  }

  /** What a walk needs of a visit: every page it gives passed the shape check, and
      every failure it reports went through the counter `b`: Missed with the counter
      moved on, Unavailable when the counter raised; and a visit that ends the walk
      does so with an error. */
  ghost predicate CountsFailures<P>(visit: (nat, Breaker, int) -> Visited<P>, accept: P -> bool)
  {
    forall at: nat, b: Breaker, t: int {:trigger Visiting(visit, at, b, t)} ::
      var v := Visiting(visit, at, b, t).visit;
      (v.Got? ==> accept(v.body)) &&
      (v.Missed? ==> OnFailure(b, t) == Moved(v.b)) &&
      (v == Stop(Unavailable) ==> OnFailure(b, t) == Tripped) &&
      v != Stop(Done)
  }

  /** A visit that is `VisitTarget` has what a walk needs: a shape mismatch never
      reaches the counter, and only a fetch that gave no page does. */
  lemma VisitTargetCounts<P>(visit: (nat, Breaker, int) -> Visited<P>, net: nat -> Outcome<P>,
                             accept: P -> bool, onMismatch: Mismatch, cap: nat)
    requires VisitsLike(visit, net, accept, onMismatch, cap)
    ensures CountsFailures(visit, accept)
  {
    forall at: nat, b: Breaker, t: int
      ensures var v := Visiting(visit, at, b, t).visit;
        (v.Got? ==> accept(v.body)) &&
        (v.Missed? ==> OnFailure(b, t) == Moved(v.b)) &&
        (v == Stop(Unavailable) ==> OnFailure(b, t) == Tripped) &&
        v != Stop(Done)
    {
      assert Visiting(visit, at, b, t) == VisitTarget(net, at, accept, onMismatch, cap, b, t);
    }
  }

  /** A wrong-shaped page, then a right one: a loop that re-fetches gets the right
      page; one that raises on a mismatch ends the walk on the wrong page. */
  lemma MismatchThenMatch<P>(net: nat -> Outcome<P>, at: nat, accept: P -> bool, onMismatch: Mismatch,
                             cap: nat, b: Breaker, t: int, p: P, q: P)
    requires cap >= 1 && net(at) == Success(p) && !accept(p) && net(at + 1) == Success(q) && accept(q)
    ensures VisitTarget(net, at, accept, onMismatch, cap, b, t) ==
      if onMismatch.Raise? then Visited(Stop(Raised(onMismatch.e)), at + 1) else Visited(Got(q), at + 2)
  {
    assert Request(net, at) == Fetch(Some(Response(p, Utf8)), at + 1);
    assert Request(net, at + 1) == Fetch(Some(Response(q, Utf8)), at + 2);
  }

  /** `VisitTarget` as the spiders' loops run it. */
  method VisitPage<P>(n: Network<P>, accept: P -> bool, onMismatch: Mismatch, cap: nat,
                      ghost visit: (nat, Breaker, int) -> Visited<P>, b: Breaker, target: int) returns (v: Visit<P>)
    requires VisitsLike(visit, n.net, accept, onMismatch, cap)
    modifies n
    ensures Visited(v, n.sent) == Visiting(visit, old(n.sent), b, target)
  {
    assert Visiting(visit, n.sent, b, target) == VisitTarget(n.net, n.sent, accept, onMismatch, cap, b, target);
    var r := FetchCheckedPage(n, accept, onMismatch, cap, Fetches(n.net, accept, onMismatch, cap));
    match r {
      case Accepted(body) =>
        v := Got(body);
      case NotFetched =>
        match OnFailure(b, target) {
          case Tripped => v := Stop(Unavailable);
          case Moved(b') => v := Missed(b');
        }
      case Crashed(e) =>
        v := Stop(Raised(e));
      case Stalled =>
        v := Stop(Raised(OutOfFuel));
    }
  }

  /** The loop `for target in targets: <visit>; <handler on an accepted page>`, with
      the counter starting at `b`. */
  function Walk<P, R>(visit: (nat, Breaker, int) -> Visited<P>, at: nat, targets: seq<int>,
                      handle: (nat, P) -> Handled<R>, b: Breaker): WalkResult<P, R>
    decreases |targets|, 1
  {
    if targets == [] then WalkResult([], [], [], b, at, Done)
    else WalkOn(visit, Visiting(visit, at, b, targets[0]), targets, handle, b)
  }

  /** The walk once its first target was visited with result `v`. */
  function WalkOn<P, R>(visit: (nat, Breaker, int) -> Visited<P>, v: Visited<P>, targets: seq<int>,
                        handle: (nat, P) -> Handled<R>, b: Breaker): WalkResult<P, R>
    requires targets != []
    decreases |targets|, 0
  {
    match v.visit
    case Got(body) =>
      var h := Handling(handle, v.next, body);
      if h.raised.Some? then WalkResult([], h.items, [], b, h.next, Raised(h.raised.value))
      else
        var w := Walk(visit, h.next, targets[1..], handle, b);
        WalkResult([body] + w.pages, h.items + w.items, w.failed, w.breaker, w.next, w.halt)
    case Missed(b') =>
      var w := Walk(visit, v.next, targets[1..], handle, b');
      WalkResult(w.pages, w.items, [targets[0]] + w.failed, w.breaker, w.next, w.halt)
    case Stop(halt) =>
      WalkResult([], [], if halt == Unavailable then [targets[0]] else [], b, v.next, halt)
  }

  /** Every page the walk handled passed the shape check, and every target either
      gave a page or a failure unless the walk stopped early. */
  lemma {:induction false} WalkAccounts<P, R>(visit: (nat, Breaker, int) -> Visited<P>, accept: P -> bool,
      at: nat, targets: seq<int>, handle: (nat, P) -> Handled<R>, b: Breaker)
    requires CountsFailures(visit, accept)
    ensures var w := Walk(visit, at, targets, handle, b);
      forall i :: 0 <= i < |w.pages| ==> accept(w.pages[i])
    ensures var w := Walk(visit, at, targets, handle, b);
      |w.pages| + |w.failed| <= |targets|
    ensures var w := Walk(visit, at, targets, handle, b);
      w.halt == Done ==> |w.pages| + |w.failed| == |targets|
    decreases |targets|
  {
    if targets != [] {
      var v := Visiting(visit, at, b, targets[0]);
      if v.visit.Got? {
        var h := Handling(handle, v.next, v.visit.body);
        if h.raised.None? {
          WalkAccounts(visit, accept, h.next, targets[1..], handle, b);
        }
      } else if v.visit.Missed? {
        WalkAccounts(visit, accept, v.next, targets[1..], handle, v.visit.b);
      }
    }
  }

  /** Accepted pages never touch the counter: it sees exactly the failed positions, in
      order, and the walk stops as Unavailable exactly when feeding them raises. */
  lemma {:induction false} WalkFeedsFailures<P, R>(visit: (nat, Breaker, int) -> Visited<P>, accept: P -> bool,
      at: nat, targets: seq<int>, handle: (nat, P) -> Handled<R>, b: Breaker)
    requires CountsFailures(visit, accept)
    ensures var w := Walk(visit, at, targets, handle, b);
      (w.halt == Unavailable ==> TripsAtLast(b, w.failed)) &&
      (w.halt != Unavailable ==> Feed(b, w.failed) == Moved(w.breaker))
    decreases |targets|
  {
    if targets != [] {
      var v := Visiting(visit, at, b, targets[0]);
      match v.visit
      case Got(body) =>
        var h := Handling(handle, v.next, body);
        if h.raised.None? {
          WalkFeedsFailures(visit, accept, h.next, targets[1..], handle, b);
        }
      case Missed(b') =>
        var w := Walk(visit, v.next, targets[1..], handle, b');
        WalkFeedsFailures(visit, accept, v.next, targets[1..], handle, b');
        var fs := [targets[0]] + w.failed;
        assert fs[0] == targets[0] && fs[1..] == w.failed;
        if w.halt == Unavailable {
          assert fs[..|fs| - 1][0] == targets[0];
          assert fs[..|fs| - 1][1..] == w.failed[..|w.failed| - 1];
          assert fs[|fs| - 1] == w.failed[|w.failed| - 1];
        }
      case Stop(halt) =>
        if halt == Unavailable {
          assert [targets[0]][..0] == [];
        }
    }
  }

  /** The walk stops as Unavailable only after the fetches at eleven consecutive
      positions failed, the last of them being the last failure it saw. */
  lemma UnavailableAfterElevenAdjacent<P, R>(visit: (nat, Breaker, int) -> Visited<P>, accept: P -> bool,
      at: nat, targets: seq<int>, handle: (nat, P) -> Handled<R>)
    requires CountsFailures(visit, accept)
    ensures var w := Walk(visit, at, targets, handle, Fresh);
      w.halt == Unavailable ==>
        |w.failed| >= Limit + 1 && Ending(w.failed, Limit + 1, w.failed[|w.failed| - 1])
  {
    WalkFeedsFailures(visit, accept, at, targets, handle, Fresh);
    var w := Walk(visit, at, targets, handle, Fresh);
    if w.halt == Unavailable {
      TripNeedsElevenAdjacent(w.failed);
    }
  }

  ghost predicate Increasing(xs: seq<int>)
  {
    forall i, j :: 0 <= i < j < |xs| ==> xs[i] < xs[j]
  }

  /** Prepending an element below all of an increasing list keeps it increasing. */
  lemma ConsIncreasing(x: int, xs: seq<int>, within: seq<int>)
    requires Increasing(xs) && forall i :: 0 <= i < |xs| ==> xs[i] in within
    requires forall y :: y in within ==> x < y
    ensures Increasing([x] + xs)
  {
    var fs := [x] + xs;
    forall i, j | 0 <= i < j < |fs| ensures fs[i] < fs[j] {
      assert fs[j] == xs[j - 1] && xs[j - 1] in within;
      if i > 0 { assert fs[i] == xs[i - 1]; }
    }
  }

  lemma TailIncreasing(xs: seq<int>)
    requires xs != [] && Increasing(xs)
    ensures Increasing(xs[1..]) && forall y :: y in xs[1..] ==> xs[0] < y
  {
    forall i, j | 0 <= i < j < |xs[1..]| ensures xs[1..][i] < xs[1..][j] {
      assert xs[1..][i] == xs[i + 1] && xs[1..][j] == xs[j + 1];
    }
  }

  /** Failures are reported in the order of the targets and only for targets. */
  lemma {:induction false} WalkFailedInOrder<P, R>(visit: (nat, Breaker, int) -> Visited<P>, at: nat,
      targets: seq<int>, handle: (nat, P) -> Handled<R>, b: Breaker)
    requires Increasing(targets)
    ensures var w := Walk(visit, at, targets, handle, b);
      Increasing(w.failed) && forall i :: 0 <= i < |w.failed| ==> w.failed[i] in targets
    decreases |targets|
  {
    if targets != [] {
      TailIncreasing(targets);
      var v := Visiting(visit, at, b, targets[0]);
      if v.visit.Got? {
        var h := Handling(handle, v.next, v.visit.body);
        if h.raised.None? {
          WalkFailedInOrder(visit, h.next, targets[1..], handle, b);
        }
      } else if v.visit.Missed? {
        var w := Walk(visit, v.next, targets[1..], handle, v.visit.b);
        WalkFailedInOrder(visit, v.next, targets[1..], handle, v.visit.b);
        ConsIncreasing(targets[0], w.failed, targets[1..]);
      }
    }
  }

  /** `w` is `rest` with `items` in front of its items: the same end and position. */
  ghost predicate Extends<P, R>(w: WalkResult<P, R>, items: seq<R>, rest: WalkResult<P, R>)
  {
    w.items == items + rest.items && w.next == rest.next && w.halt == rest.halt
  }

  lemma ExtendsThen<P, R>(g: WalkResult<P, R>, items: seq<R>, w: WalkResult<P, R>, more: seq<R>, w': WalkResult<P, R>)
    requires Extends(g, items, w) && Extends(w, more, w')
    ensures Extends(g, items + more, w')
  {
    assert items + (more + w'.items) == items + more + w'.items;
  }

  /** The items `f` gives for each page, in page order. */
  function ConcatMap<P, R>(f: P -> seq<R>, pages: seq<P>): (r: seq<R>)
    ensures pages == [] ==> r == []
  {
    if pages == [] then [] else f(pages[0]) + ConcatMap(f, pages[1..])
  }

  lemma {:induction false} ConcatMapAppend<P, R>(f: P -> seq<R>, pages: seq<P>, more: seq<P>)
    ensures ConcatMap(f, pages + more) == ConcatMap(f, pages) + ConcatMap(f, more)
  {
    if pages != [] {
      assert (pages + more)[1..] == pages[1..] + more;
      ConcatMapAppend(f, pages[1..], more);
    } else {
      assert pages + more == more;
    }
  }

  /** When the handler produces `f(body)` for every page it goes through, the walk's
      items are those of its pages, in order; if the handler in addition produces
      nothing when it raises, that holds however the walk ends. */
  lemma {:induction false} WalkItems<P, R>(visit: (nat, Breaker, int) -> Visited<P>, at: nat, targets: seq<int>,
      handle: (nat, P) -> Handled<R>, b: Breaker, f: P -> seq<R>)
    requires forall a: nat, body: P :: Handling(handle, a, body).raised.None? ==> Handling(handle, a, body).items == f(body)
    ensures var w := Walk(visit, at, targets, handle, b);
      !w.halt.Raised? ==> w.items == ConcatMap(f, w.pages)
    ensures var w := Walk(visit, at, targets, handle, b);
      (forall a: nat, body: P :: Handling(handle, a, body).raised.Some? ==> Handling(handle, a, body).items == []) ==>
        w.items == ConcatMap(f, w.pages)
    decreases |targets|
  {
    if targets != [] {
      var v := Visiting(visit, at, b, targets[0]);
      if v.visit.Got? {
        var h := Handling(handle, v.next, v.visit.body);
        if h.raised.None? {
          WalkItems(visit, h.next, targets[1..], handle, b, f);
          var w := Walk(visit, h.next, targets[1..], handle, b);
          assert Walk(visit, at, targets, handle, b) ==
            WalkResult([v.visit.body] + w.pages, h.items + w.items, w.failed, w.breaker, w.next, w.halt);
          assert ([v.visit.body] + w.pages)[1..] == w.pages;
        }
      } else if v.visit.Missed? {
        WalkItems(visit, v.next, targets[1..], handle, v.visit.b, f);
      }
    }
  }

  /** Python's `range(lo, hi)`. */
  function Range(lo: int, hi: int): seq<int>
    decreases hi - lo
  {
    if hi <= lo then [] else [lo] + Range(lo + 1, hi)
  }

  /** `range(lo, hi)` holds the `hi - lo` integers from `lo` on, in order. */
  lemma {:induction false} RangeElements(lo: int, hi: int)
    ensures |Range(lo, hi)| == (if hi <= lo then 0 else hi - lo)
    ensures forall i :: 0 <= i < |Range(lo, hi)| ==> Range(lo, hi)[i] == lo + i
    decreases hi - lo
  {
    if lo < hi {
      RangeElements(lo + 1, hi);
    }
  }

  lemma RangeIncreasing(lo: int, hi: int)
    ensures Increasing(Range(lo, hi))
  {
    RangeElements(lo, hi);
  }

  /** One iteration of a spider's page loop up to its handler, with what it means
      for the walk over the remaining `targets`: an accepted page leaves the rest of
      the walk to the handler, a failure the counter took moves on to the next
      target, and anything else ends the walk. */
  method Advance<P, R>(n: Network<P>, accept: P -> bool, onMismatch: Mismatch, cap: nat,
                       ghost visit: (nat, Breaker, int) -> Visited<P>,
                       ghost handle: (nat, P) -> Handled<R>, target: int, ghost rest: seq<int>, b: Breaker)
    returns (v: Visit<P>)
    requires VisitsLike(visit, n.net, accept, onMismatch, cap)
    modifies n
    ensures var w := Walk(visit, old(n.sent), [target] + rest, handle, b);
      match v
      case Got(body) =>
        var h := Handling(handle, n.sent, body);
        if h.raised.None? then Extends(w, h.items, Walk(visit, h.next, rest, handle, b))
        else w.items == h.items && w.next == h.next && w.halt == Raised(h.raised.value)
      case Missed(b') => Extends(w, [], Walk(visit, n.sent, rest, handle, b'))
      case Stop(halt) => w.items == [] && w.next == n.sent && w.halt == halt
  {
    assert ([target] + rest)[0] == target && ([target] + rest)[1..] == rest;
    v := VisitPage(n, accept, onMismatch, cap, visit, b, target);
  }
}
