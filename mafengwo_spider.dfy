/** `MafengwoSpider`: collect the resort links of the search result pages, then
    fetch every resort page and keep one record per resort. */
module MafengwoSpiders {
  import opened Base
  import opened Records
  import opened Text
  import opened Transport
  import opened CircuitBreaker
  import opened Walker

  /** A result link of a search page: its `href` and its text. */
  datatype Anchor = Anchor(href: string, text: string)

  /** A page of mafengwo.cn as the spider queries it: the result links of a search
      page (`att-list` anchors), the number of `row row-top` / `overview` blocks of a
      resort page, the record `parse_resort` extracts from a resort page, and whether
      a location API reply carries its `data` member. */
  datatype Page = Page(anchors: seq<Anchor>, blocks: nat, resort: Record, located: bool)

  const SceneWord := "景点"
  const LinksPerPage := 15
  const ResortBlocks := 2
  /** The search pages `run` asks `get_links` for. */
  const FirstPage := 1
  const LastPage := 50

  /** The shape check of a search page. */
  predicate IsListing(p: Page)
  {
    |p.anchors| == LinksPerPage
  }

  /** The shape check of a resort page. */
  predicate IsResort(p: Page)
  {
    p.blocks == ResortBlocks
  }

  /** The re-fetch of both shape loops as source lines 230 and 323 write it: the loop
      reads `self.proxyer`, which `BaseSpider.__init__` never sets (line 56 is
      commented out), so a wrong-shaped page raises AttributeError before any request. */
  const ProxyerMismatch := Raise(AttributeError("proxyer"))

  /** On a wrong-shaped search page followed by a right one, the loop of `get_links`
      as written raises and ends the walk; re-fetching, as it intends, gets the right
      page. */
  lemma ProxyerAbandonsListing(net: nat -> Outcome<Page>, at: nat, cap: nat, b: Breaker, t: int, p: Page, q: Page)
    requires cap >= 1 && net(at) == Success(p) && !IsListing(p) && net(at + 1) == Success(q) && IsListing(q)
    ensures VisitTarget(net, at, IsListing, ProxyerMismatch, cap, b, t).visit == Stop(Raised(ProxyerMismatch.e))
    ensures VisitTarget(net, at, IsListing, Retry, cap, b, t) == Visited(Got(q), at + 2)
  {
    MismatchThenMatch(net, at, IsListing, ProxyerMismatch, cap, b, t, p, q);
    MismatchThenMatch(net, at, IsListing, Retry, cap, b, t, p, q);
  }

  /** The same for a resort page and the loop of `run`. */
  lemma ProxyerAbandonsResort(net: nat -> Outcome<Page>, at: nat, cap: nat, b: Breaker, t: int, p: Page, q: Page)
    requires cap >= 1 && net(at) == Success(p) && !IsResort(p) && net(at + 1) == Success(q) && IsResort(q)
    ensures VisitTarget(net, at, IsResort, ProxyerMismatch, cap, b, t).visit == Stop(Raised(ProxyerMismatch.e))
    ensures VisitTarget(net, at, IsResort, Retry, cap, b, t) == Visited(Got(q), at + 2)
  {
    MismatchThenMatch(net, at, IsResort, ProxyerMismatch, cap, b, t, p, q);
    MismatchThenMatch(net, at, IsResort, Retry, cap, b, t, p, q);
  }

  /** The link filter: the hrefs of the anchors whose text contains 景点, in order. */
  function SceneHrefs(anchors: seq<Anchor>): (r: seq<string>)
  {
    if anchors == [] then []
    else
      var rest := SceneHrefs(anchors[1..]);
      if Contains(anchors[0].text, SceneWord) then [anchors[0].href] + rest else rest
  }

  /** The filter keeps no more hrefs than there are anchors, drops none that names
      a scene, and keeps only hrefs of anchors that do. */
  lemma {:induction false} SceneHrefsFilters(anchors: seq<Anchor>)
    ensures |SceneHrefs(anchors)| <= |anchors|
    ensures forall i :: 0 <= i < |anchors| && Contains(anchors[i].text, SceneWord) ==>
      anchors[i].href in SceneHrefs(anchors)
    ensures forall h :: h in SceneHrefs(anchors) ==>
      exists i :: 0 <= i < |anchors| && anchors[i].href == h && Contains(anchors[i].text, SceneWord)
  {
    if anchors != [] {
      SceneHrefsFilters(anchors[1..]);
      assert forall i :: 1 <= i < |anchors| ==> anchors[i] == anchors[1..][i - 1];
    }
  }

  /** The filter keeps element order: filtering two runs of anchors is filtering each. */
  lemma {:induction false} SceneHrefsAppend(xs: seq<Anchor>, ys: seq<Anchor>)
    ensures SceneHrefs(xs + ys) == SceneHrefs(xs) + SceneHrefs(ys)
  {
    if xs == [] {
      assert xs + ys == ys;
    } else {
      assert (xs + ys)[1..] == xs[1..] + ys;
      SceneHrefsAppend(xs[1..], ys);
    }
  }

  /** The filter drops no anchor that names a scene and keeps none that does not. */
  lemma {:induction false} SceneHrefsAll(anchors: seq<Anchor>)
    ensures (forall i :: 0 <= i < |anchors| ==> Contains(anchors[i].text, SceneWord)) ==>
      SceneHrefs(anchors) == seq(|anchors|, i requires 0 <= i < |anchors| => anchors[i].href)
    ensures (forall i :: 0 <= i < |anchors| ==> !Contains(anchors[i].text, SceneWord)) ==>
      SceneHrefs(anchors) == []
  {
    if anchors != [] {
      SceneHrefsAll(anchors[1..]);
      assert forall i :: 1 <= i < |anchors| ==> anchors[i] == anchors[1..][i - 1];
    }
  }

  /** What `get_links` does with an accepted search page. */
  function ListingHandler(at: nat, p: Page): Handled<string>
  {
    Handled(SceneHrefs(p.anchors), at, None)
  }

  datatype Located = Located(next: nat, ok: bool)

  /** The location API loop of `parse_resort`: request until a reply comes back with
      its `data` member (a `None` reply fails at `.json()` and is retried too). The
      source never gives up; the model gives up after `fuel` requests. */
  function Locate(net: nat -> Outcome<Page>, at: nat, fuel: nat): (r: Located)
    ensures r.next >= at
    ensures r.ok ==> r.next > at && net(r.next - 1).Success? && net(r.next - 1).payload.located
    ensures fuel == 0 ==> r == Located(at, false)
    decreases fuel
  {
    if fuel == 0 then Located(at, false)
    else
      var f := Request(net, at);
      ResponseOnlyFromSuccess(net, at);
      if f.response.Some? && f.response.value.body.located then Located(f.next, true)
      else Locate(net, f.next, fuel - 1)
  }

  /** `locate` is `Locate` on `net`, for every start and bound (held as an opaque
      value, as `Walker.FetchesLike` explains). */
  ghost predicate LocatesLike(locate: (nat, nat) -> Located, net: nat -> Outcome<Page>)
  {
    forall at: nat, fuel: nat {:trigger Locate(net, at, fuel)} :: locate(at, fuel) == Locate(net, at, fuel)
  }

  function Locates(net: nat -> Outcome<Page>): (locate: (nat, nat) -> Located)
    ensures LocatesLike(locate, net)
  {
    (at: nat, fuel: nat) => Locate(net, at, fuel)
  }

  /** One round of the location loop: a reply with `data` ends it, anything else
      asks again; with no requests left, it gives up where it is. */
  lemma LocateRound(locate: (nat, nat) -> Located, net: nat -> Outcome<Page>, at: nat, fuel: nat,
                    response: Option<Response<Page>>, next: nat)
    requires LocatesLike(locate, net)
    requires fuel > 0 && Request(net, at) == Fetch(response, next)
    ensures response.Some? && response.value.body.located ==> locate(at, fuel) == Located(next, true)
    ensures !(response.Some? && response.value.body.located) ==> locate(at, fuel) == locate(next, fuel - 1)
  {
    assert locate(at, fuel) == Locate(net, at, fuel);
    assert locate(next, fuel - 1) == Locate(net, next, fuel - 1);
  }

  lemma LocateSpent(locate: (nat, nat) -> Located, net: nat -> Outcome<Page>, at: nat)
    requires LocatesLike(locate, net)
    ensures locate(at, 0) == Located(at, false)
  {
    assert locate(at, 0) == Locate(net, at, 0);
  }

  /** What `run` does with an accepted resort page: `parse_resort` (its location
      request loop included, with at most `fuel` requests), then one record
      appended. */
  function ResortHandler(locate: (nat, nat) -> Located, fuel: nat): (nat, Page) -> Handled<Record>
  {
    (at: nat, p: Page) =>
      var l := locate(at, fuel);
      if l.ok then Handled([p.resort], l.next, None) else Handled([], l.next, Some(OutOfFuel))
  }

  /** The handler keeps the resort record exactly when the location loop succeeds. */
  lemma ResortHandled(locate: (nat, nat) -> Located, fuel: nat, at: nat, p: Page)
    ensures Handling(ResortHandler(locate, fuel), at, p) ==
      if locate(at, fuel).ok then Handled([p.resort], locate(at, fuel).next, None)
      else Handled([], locate(at, fuel).next, Some(OutOfFuel))
  {
  }

  /** `self.links.index(link)`: the first position of `x`. */
  function IndexOf(xs: seq<string>, x: string): (i: nat)
    requires x in xs
    ensures i < |xs| && xs[i] == x && x !in xs[..i]
  {
    if xs[0] == x then 0
    else
      var i := IndexOf(xs[1..], x);
      assert xs[1..][..i] == xs[1..i + 1];
      assert xs[..i + 1] == [xs[0]] + xs[1..i + 1];
      i + 1
  }

  /** The positions `run` feeds the failure counter with, one per link. */
  function Positions(links: seq<string>): (r: seq<int>)
    ensures |r| == |links|
    ensures forall i :: 0 <= i < |links| ==> 0 <= r[i] <= i && links[r[i]] == links[i]
    ensures forall i :: 0 <= i < |links| ==> links[i] !in links[..r[i]]
  {
    seq(|links|, i requires 0 <= i < |links| => IndexOf(links, links[i]))
  }

  /** With no link listed twice, the positions are the list's own indices, so
      adjacency for the counter is adjacency in the link list. */
  lemma PositionsOfDistinct(links: seq<string>)
    requires Distinct(links)
    ensures Positions(links) == Range(0, |links|)
  {
    var p := Positions(links);
    var r := Range(0, |links|);
    RangeElements(0, |links|);
    forall i | 0 <= i < |links| ensures p[i] == r[i] {
      assert p[i] <= i && links[p[i]] == links[i];
    }
    assert p == r;
  }

  /** A link listed twice is reported at its first position both times. */
  lemma RepeatedLinkSharesPosition(links: seq<string>, i: nat, j: nat)
    requires i < j < |links| && links[i] == links[j]
    ensures Positions(links)[j] == Positions(links)[i] <= i
  {
    var k := IndexOf(links, links[i]);
    assert links[..j][i] == links[j];
  }

  /** The spider: its area, the links and records it has collected, and the network.
      `listing`, `resorts` and `locating` stand for the two page visits and the
      location loop on this network; the constructor says what they are. */
  class MafengwoSpider {
    const areaName: string
    const net: Network<Page>
    /** How often a shape check may re-fetch and the location loop may retry: the
        source has no such bound. */
    const fuel: nat
    ghost const listing: (nat, Breaker, int) -> Visited<Page>
    ghost const resorts: (nat, Breaker, int) -> Visited<Page>
    ghost const locating: (nat, nat) -> Located
    var links: seq<string>
    var data: seq<Record>

    ghost predicate Valid()
    {
      VisitsLike(listing, net.net, IsListing, Retry, fuel) &&
      VisitsLike(resorts, net.net, IsResort, Retry, fuel) &&
      LocatesLike(locating, net.net)
    }

    constructor (areaName: string, net: Network<Page>, fuel: nat)
      ensures this.areaName == areaName && this.net == net && this.fuel == fuel
      ensures listing == Visits(net.net, IsListing, Retry, fuel) && resorts == Visits(net.net, IsResort, Retry, fuel)
      ensures locating == Locates(net.net)
      ensures Valid() && links == [] && data == []
    {
      this.areaName := areaName;
      this.net := net;
      this.fuel := fuel;
      listing := Visits(net.net, IsListing, Retry, fuel);
      resorts := Visits(net.net, IsResort, Retry, fuel);
      locating := Locates(net.net);
      links := [];
      data := [];
    }

    /** One round of the page loop of `get_links`: fetch the listing page `page` and
        append the scene links it shows. Either the walk ends here (`stop`) or it
        carries on over `rest` with the counter `b'`. */
    method ListOne(page: int, ghost rest: seq<int>, b: Breaker)
      returns (stop: Option<Halt>, b': Breaker, ghost added: seq<string>)
      requires Valid()
      modifies this, net
      ensures links == old(links) + added && data == old(data)
      ensures var w := Walk(listing, old(net.sent), [page] + rest, ListingHandler, b);
        if stop.Some? then w.items == added && w.next == net.sent && w.halt == stop.value
        else Extends(w, added, Walk(listing, net.sent, rest, ListingHandler, b'))
    {
      var v := Advance(net, IsListing, Retry, fuel, listing, ListingHandler, page, rest, b);
      match v {
        case Got(body) =>
          links := links + SceneHrefs(body.anchors);
          return None, b, SceneHrefs(body.anchors);
        case Missed(next) =>
          assert links + [] == links;
          return None, next, [];
        case Stop(h) =>
          assert links + [] == links;
          return Some(h), b, [];
      }
    }

    /** `get_links(pStart, pEnd)`. */
    method GetLinks(pStart: int, pEnd: int) returns (halt: Halt)
      requires Valid()
      modifies this, net
      ensures var w := Walk(listing, old(net.sent), Range(pStart, pEnd + 1), ListingHandler, Fresh);
        links == old(links) + w.items && net.sent == w.next && halt == w.halt
      ensures data == old(data)
    {
      ghost var goal := Walk(listing, net.sent, Range(pStart, pEnd + 1), ListingHandler, Fresh);
      ghost var items: seq<string> := [];
      var num, lastPage := Fresh.num, Fresh.lastPage;
      var page := pStart;
      while page <= pEnd
        invariant links == old(links) + items && data == old(data)
        invariant Extends(goal, items, Walk(listing, net.sent, Range(page, pEnd + 1), ListingHandler, Breaker(num, lastPage)))
        decreases pEnd - page
      {
        assert Range(page, pEnd + 1) == [page] + Range(page + 1, pEnd + 1);
        ghost var w := Walk(listing, net.sent, Range(page, pEnd + 1), ListingHandler, Breaker(num, lastPage));
        var stop, next, added := ListOne(page, Range(page + 1, pEnd + 1), Breaker(num, lastPage));
        AppendAssoc(old(links), items, added);
        if stop.Some? {
          return stop.value;
        }
        ExtendsThen(goal, items, w, added, Walk(listing, net.sent, Range(page + 1, pEnd + 1), ListingHandler, next));
        items := items + added;
        num, lastPage := next.num, next.lastPage;
        page := page + 1;
      }
      return Done;
    }

    /** The location loop of `parse_resort`. */
    method FetchLocation() returns (ok: bool)
      requires LocatesLike(locating, net.net)
      modifies net
      ensures Located(net.sent, ok) == locating(old(net.sent), fuel)
    {
      ghost var oracle := net.net;
      ghost var goal := locating(net.sent, fuel);
      var left := fuel;
      while left > 0
        invariant goal == locating(net.sent, left)
        decreases left
      {
        ghost var before := net.sent;
        var response := net.RequestHtml();
        LocateRound(locating, oracle, before, left, response, net.sent);
        if response.Some? && response.value.body.located {
          return true;
        }
        left := left - 1;
      }
      LocateSpent(locating, oracle, net.sent);
      return false;
    }

    /** One round of the loop of `run` over `self.links`: fetch the resort page at
        `position`, run its location loop and append its record. Either the walk
        ends here (`stop`) with what was added, or it carries on over `rest` with the
        counter `b'`. */
    method CollectOne(position: int, ghost rest: seq<int>, b: Breaker)
      returns (stop: Option<Halt>, b': Breaker, ghost added: seq<Record>)
      requires Valid()
      modifies this, net
      ensures links == old(links) && data == old(data) + added
      ensures var w := Walk(resorts, old(net.sent), [position] + rest, ResortHandler(locating, fuel), b);
        if stop.Some? then w.items == added && w.next == net.sent && w.halt == stop.value
        else Extends(w, added, Walk(resorts, net.sent, rest, ResortHandler(locating, fuel), b'))
    {
      var v := Advance(net, IsResort, Retry, fuel, resorts, ResortHandler(locating, fuel), position, rest, b);
      match v {
        case Got(body) =>
          ResortHandled(locating, fuel, net.sent, body);
          var ok := FetchLocation();
          if !ok {
            assert data + [] == data;
            return Some(Raised(OutOfFuel)), b, [];
          }
          data := data + [body.resort];
          return None, b, [body.resort];
        case Missed(next) =>
          assert data + [] == data;
          return None, next, [];
        case Stop(h) =>
          assert data + [] == data;
          return Some(h), b, [];
      }
    }

    /** The loop of `run` over `self.links`: fetch every resort page and append its
        record to `self.data`. */
    method CollectResorts() returns (halt: Halt)
      requires Valid()
      modifies this, net
      ensures var w := Walk(resorts, old(net.sent), Positions(links), ResortHandler(locating, fuel), Fresh);
        data == old(data) + w.items && net.sent == w.next && halt == w.halt
      ensures links == old(links)
    {
      var positions := Positions(links);
      ghost var goal := Walk(resorts, net.sent, positions, ResortHandler(locating, fuel), Fresh);
      ghost var items: seq<Record> := [];
      var num, lastLink := Fresh.num, Fresh.lastPage;
      var i := 0;
      while i < |positions|
        invariant 0 <= i <= |positions| && links == old(links)
        invariant data == old(data) + items
        invariant Extends(goal, items, Walk(resorts, net.sent, positions[i..], ResortHandler(locating, fuel), Breaker(num, lastLink)))
        decreases |positions| - i
      {
        assert positions[i..] == [positions[i]] + positions[i + 1..];
        ghost var w := Walk(resorts, net.sent, positions[i..], ResortHandler(locating, fuel), Breaker(num, lastLink));
        var stop, next, added := CollectOne(positions[i], positions[i + 1..], Breaker(num, lastLink));
        AppendAssoc(old(data), items, added);
        if stop.Some? {
          return stop.value;
        }
        ExtendsThen(goal, items, w, added, Walk(resorts, net.sent, positions[i + 1..], ResortHandler(locating, fuel), next));
        items := items + added;
        num, lastLink := next.num, next.lastPage;
        i := i + 1;
      }
      return Done;
    }

    /** `run`: `get_links()` over pages 1 to 50, then every link in `self.links`. */
    method Run() returns (halt: Halt)
      requires Valid()
      modifies this, net
      ensures var g := Walk(listing, old(net.sent), Range(FirstPage, LastPage + 1), ListingHandler, Fresh);
        links == old(links) + g.items &&
        (g.halt != Done ==> halt == g.halt && data == old(data) && net.sent == g.next) &&
        (g.halt == Done ==>
          var w := Walk(resorts, g.next, Positions(links), ResortHandler(locating, fuel), Fresh);
          data == old(data) + w.items && net.sent == w.next && halt == w.halt)
    {
      halt := GetLinks(FirstPage, LastPage);
      if halt == Done {
        halt := CollectResorts();
      }
    }
  }
}
