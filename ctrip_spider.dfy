/** `CtripSpider`: read the number of hotel list pages, then go through the list pages,
    and for every hotel on them fetch its detail page and keep one record per hotel. */
module CtripSpiders {
  import opened Base
  import opened Records
  import opened Paging
  import opened Transport
  import opened CircuitBreaker
  import opened Walker

  /** One `tr` of a detail table: the text of its `th`, and what the spider takes
      from the rest of the row (a list of titles or texts, or the `td` text). */
  datatype Row = Row(key: string, value: Value)

  /** The `htlDes` block of a detail page: the phone text, what the phone pattern
      finds in it once stripped (if anything), and the description text. */
  datatype Intro = Intro(phone: string, phoneMatch: Option<string>, description: string)

  /** What `parse_hotel_detail` reads from the `hotel_info_comment` block: the intro
      block, and the rows of the facilities, policy and surroundings tables, each one
      present only when the page has exactly one such block. */
  datatype Detail = Detail(intro: Option<Intro>, facilities: Option<seq<Row>>, policy: Option<seq<Row>>,
                           surround: Option<seq<Row>>)

  /** A page of hotels.ctrip.com as the spider queries it: the records `parse_hotel`
      makes of the `hotel_new_list` elements of a list page, the number of
      `hotel_info_comment` blocks of a detail page and what is in them, and the
      `page_box` text of the first list page. */
  datatype Page = Page(hotels: seq<Record>, infoBlocks: nat, detail: Detail, pageStr: string)

  const BaseUrl := "https://hotels.ctrip.com/hotel/"

  /** The shape check of a list page: some hotel elements. */
  predicate HasHotels(p: Page)
  {
    |p.hotels| > 0
  }

  /** The shape check of a detail page: exactly one `hotel_info_comment` block. */
  predicate IsDetail(p: Page)
  {
    p.infoBlocks == 1
  }

  /** The list-page re-fetch as source line 492 writes it: `'/'.join` called with two
      arguments raises before any request is made. */
  const JoinMismatch := Raise(TypeError("join() takes exactly one argument (2 given)"))

  /** On a wrong-shaped list page followed by a right one, the list loop as written
      raises TypeError and the walk ends there; re-fetching, as the loop intends and as
      the detail loop does, gets the right page. */
  lemma JoinLineAbandonsPage(net: nat -> Outcome<Page>, at: nat, cap: nat, b: Breaker, t: int, p: Page, q: Page)
    requires cap >= 1 && net(at) == Success(p) && !HasHotels(p) && net(at + 1) == Success(q) && HasHotels(q)
    ensures VisitTarget(net, at, HasHotels, JoinMismatch, cap, b, t).visit == Stop(Raised(JoinMismatch.e))
    ensures VisitTarget(net, at, HasHotels, Retry, cap, b, t) == Visited(Got(q), at + 2)
  {
    MismatchThenMatch(net, at, HasHotels, JoinMismatch, cap, b, t, p, q);
    MismatchThenMatch(net, at, HasHotels, Retry, cap, b, t, p, q);
  }

  /** The `page_box` text `get_page_num` settles on, if its loop ends, and the index
      of the next unused network outcome. */
  datatype PageText = PageText(text: Option<string>, next: nat)

  /** The request loop of `get_page_num`: request until a page comes back with a
      non-empty `page_box` text. (`page_str` keeps its old value across a failed
      request, but that value is always empty, so only the last page decides whether
      the loop ends.) The source never gives up; the model gives up after `fuel`
      requests. */
  function PageStr(net: nat -> Outcome<Page>, at: nat, fuel: nat): (r: PageText)
    ensures r.next >= at
    ensures r.text.Some? ==>
      r.next > at && net(r.next - 1).Success? && r.text.value == net(r.next - 1).payload.pageStr && r.text.value != []
    ensures fuel == 0 ==> r == PageText(None, at)
    decreases fuel
  {
    if fuel == 0 then PageText(None, at)
    else
      var f := Request(net, at);
      ResponseOnlyFromSuccess(net, at);
      if f.response.Some? && f.response.value.body.pageStr != [] then PageText(Some(f.response.value.body.pageStr), f.next)
      else PageStr(net, f.next, fuel - 1)
  }

  /** `int(page_str)` once the loop ended; the model's give-up raises OutOfFuel. */
  function PageNumber(t: PageText): Result<int>
  {
    if t.text.None? then Err(OutOfFuel) else ParseInt(t.text.value)
  }

  /** `count` is `PageStr` on `net` with this bound (held as an opaque value, as
      `Walker.FetchesLike` explains). */
  ghost predicate PageTextsLike(count: nat -> PageText, net: nat -> Outcome<Page>, fuel: nat)
  {
    forall at: nat {:trigger PageStr(net, at, fuel)} :: count(at) == PageStr(net, at, fuel)
  }

  function PageTexts(net: nat -> Outcome<Page>, fuel: nat): (count: nat -> PageText)
    ensures PageTextsLike(count, net, fuel)
  {
    (at: nat) => PageStr(net, at, fuel)
  }

  /** `table.setdefault(key, value)` for the rows in order: the first row with a key
      decides its value. */
  function SetDefaults(table: map<string, Value>, rows: seq<Row>): map<string, Value>
    decreases |rows|
  {
    if rows == [] then table
    else
      var r := rows[0];
      SetDefaults(if r.key in table then table else table[r.key := r.value], rows[1..])
  }

  /** The keys the rows name. */
  ghost function RowKeys(rows: seq<Row>): set<string>
  {
    set i | 0 <= i < |rows| :: rows[i].key
  }

  lemma RowKeysCons(rows: seq<Row>)
    requires rows != []
    ensures RowKeys(rows) == {rows[0].key} + RowKeys(rows[1..])
  {
    forall k | k in RowKeys(rows) ensures k == rows[0].key || k in RowKeys(rows[1..]) {
      var i :| 0 <= i < |rows| && rows[i].key == k;
      if i > 0 {
        assert rows[1..][i - 1].key == k;
      }
    }
    forall k | k in RowKeys(rows[1..]) ensures k in RowKeys(rows) {
      var i :| 0 <= i < |rows[1..]| && rows[1..][i].key == k;
      assert rows[i + 1].key == k;
    }
    assert rows[0].key in RowKeys(rows);
  }

  /** The table ends up with the keys it had and the key of every row. */
  lemma {:induction false} SetDefaultsKeys(table: map<string, Value>, rows: seq<Row>)
    ensures SetDefaults(table, rows).Keys == table.Keys + RowKeys(rows)
    decreases |rows|
  {
    if rows != [] {
      var x := rows[0];
      var t := if x.key in table then table else table[x.key := x.value];
      SetDefaultsKeys(t, rows[1..]);
      RowKeysCons(rows);
    }
  }

  /** A key the table had keeps its value: `setdefault` never overwrites. */
  lemma {:induction false} SetDefaultsKeeps(table: map<string, Value>, rows: seq<Row>)
    ensures var r := SetDefaults(table, rows); forall k :: k in table ==> k in r && r[k] == table[k]
    decreases |rows|
  {
    if rows != [] {
      var x := rows[0];
      var t := if x.key in table then table else table[x.key := x.value];
      SetDefaultsKeeps(t, rows[1..]);
    }
  }

  /** A key new to the table gets the value of the first row that has it. */
  lemma {:induction false} SetDefaultsFirstWins(table: map<string, Value>, rows: seq<Row>, i: nat)
    requires i < |rows| && rows[i].key !in table
    requires forall j :: 0 <= j < i ==> rows[j].key != rows[i].key
    ensures var r := SetDefaults(table, rows); rows[i].key in r && r[rows[i].key] == rows[i].value
    decreases |rows|
  {
    var x := rows[0];
    var t := if x.key in table then table else table[x.key := x.value];
    if i == 0 {
      SetDefaultsKeeps(t, rows[1..]);
    } else {
      assert rows[1..][i - 1] == rows[i];
      assert rows[i].key != x.key;
      forall j | 0 <= j < i - 1 ensures rows[1..][j].key != rows[1..][i - 1].key {
        assert rows[1..][j] == rows[j + 1];
      }
      SetDefaultsFirstWins(t, rows[1..], i - 1);
    }
  }

  /** The rows a loop with `if <skip>: continue` goes on to. */
  function Kept(rows: seq<Row>, skip: string -> bool): (r: seq<Row>)
    ensures |r| <= |rows|
    ensures forall i :: 0 <= i < |r| ==> !skip(r[i].key) && r[i] in rows
  {
    if rows == [] then []
    else
      var rest := Kept(rows[1..], skip);
      if skip(rows[0].key) then rest else [rows[0]] + rest
  }

  /** Kept drops a row only when its key is skipped. */
  lemma {:induction false} KeptKeepsUnskipped(rows: seq<Row>, skip: string -> bool)
    ensures forall i :: 0 <= i < |rows| && !skip(rows[i].key) ==> rows[i] in Kept(rows, skip)
  {
    if rows != [] {
      KeptKeepsUnskipped(rows[1..], skip);
      assert forall i :: 1 <= i < |rows| ==> rows[i] == rows[1..][i - 1];
    }
  }

  /** The loops of the facilities and surroundings tables skip no row. */
  function NoSkip(key: string): bool
  {
    false
  }

  const ChildPolicy := "儿童政策"
  const PaymentMethods := "可用支付方式"

  /** The skip test of the policy loop as source line 754 writes it, `key == "儿童政策"
      or "可用支付方式"`: the second operand is a non-empty string, which Python
      takes as true. */
  function SkipsAsWritten(key: string): bool
  {
    key == ChildPolicy || |PaymentMethods| > 0
  }

  /** The skip test the policy loop evidently intends: the child policy and the
      payment methods rows only. */
  function SkipsPolicy(key: string): bool
  {
    key == ChildPolicy || key == PaymentMethods
  }

  /** As written, the policy loop skips every row, so `hotel_policy` stays empty
      whatever the page holds; with the intended test a policy row of any other
      key is kept. */
  lemma {:induction false} PolicyFilterAsWritten(rows: seq<Row>)
    ensures Kept(rows, SkipsAsWritten) == []
    ensures SetDefaults(map[], Kept(rows, SkipsAsWritten)) == map[]
    ensures forall i :: 0 <= i < |rows| && rows[i].key != ChildPolicy && rows[i].key != PaymentMethods ==>
      rows[i] in Kept(rows, SkipsPolicy)
  {
    if rows != [] {
      PolicyFilterAsWritten(rows[1..]);
    }
    KeptKeepsUnskipped(rows, SkipsPolicy);
  }

  /** The keys of the dict `parse_hotel_detail` returns, in order. */
  const DetailKeys := ["contact", "introduction", "hotel_facilities", "hotel_policy", "surround_facilities"]

  const DetailKeySet: set<string> := set k | k in DetailKeys

  lemma DetailKeysDistinct()
    ensures Distinct(DetailKeys)
  {
  }

  /** `r` is a detail dict: the five detail keys, in order, and nothing else. */
  ghost predicate IsDetailDict(r: Record)
  {
    r.keys == DetailKeys && r.vals.Keys == DetailKeySet &&
    forall i :: 0 <= i < |DetailKeys| ==> DetailKeys[i] in r.vals
  }

  /** The detail dict with these five values, in the order of `DetailKeys`. */
  function DetailDict(vals: seq<Value>): (r: Record)
    requires |vals| == |DetailKeys|
    ensures IsDetailDict(r) && WellFormed(r)
    ensures forall i :: 0 <= i < |DetailKeys| ==> r.vals[DetailKeys[i]] == vals[i]
  {
    DetailKeysDistinct();
    FromPairsWellFormed(DetailKeys, vals);
    FromPairs(DetailKeys, vals)
  }

  /** What `parse_hotel_detail` returns when the detail page was not fetched: no
      contact, no introduction, and three empty tables. */
  function DefaultDetail(): (r: Record)
    ensures IsDetailDict(r)
    ensures r.vals[DetailKeys[0]] == Null && r.vals[DetailKeys[1]] == Null
    ensures r.vals[DetailKeys[2]] == Obj(map[]) && r.vals[DetailKeys[3]] == Obj(map[]) &&
            r.vals[DetailKeys[4]] == Obj(map[])
  {
    DetailDict([Null, Null, Obj(map[]), Obj(map[]), Obj(map[])])
  }

  /** A table of a detail page: empty when the page lacks it. */
  function TableOf(rows: Option<seq<Row>>, skip: string -> bool): map<string, Value>
  {
    if rows.None? then map[] else SetDefaults(map[], Kept(rows.value, skip))
  }

  /** The dict `parse_hotel_detail` makes of an accepted detail page, its policy loop
      skipping the rows `policySkip` names; AttributeError when the phone text is not
      empty but the phone pattern finds nothing in it. */
  function DetailRecord(d: Detail, policySkip: string -> bool): (r: Result<Record>)
    ensures r.Err? <==> d.intro.Some? && |d.intro.value.phone| > 0 && d.intro.value.phoneMatch.None?
    ensures r.Err? ==> r.error == AttributeError("group")
    ensures r.Ok? ==> IsDetailDict(r.value)
    ensures r.Ok? ==> r.value.vals[DetailKeys[3]] == Obj(TableOf(d.policy, policySkip))
  {
    var i := d.intro;
    if i.Some? && |i.value.phone| > 0 && i.value.phoneMatch.None? then Err(AttributeError("group"))
    else
      var contact := if i.Some? && |i.value.phone| > 0 then Str(i.value.phoneMatch.value) else Null;
      var intro := if i.Some? && |i.value.description| > 0 then Str(Strip(i.value.description)) else Null;
      Ok(DetailDict([contact, intro, Obj(TableOf(d.facilities, NoSkip)),
                     Obj(TableOf(d.policy, policySkip)), Obj(TableOf(d.surround, NoSkip))]))
  }

  /** The contact of the detail dict is the phone match and its introduction the
      stripped description, each `None` when its text is empty or the intro block is
      missing. */
  lemma DetailContents(d: Detail, policySkip: string -> bool)
    ensures var r := DetailRecord(d, policySkip); r.Ok? ==>
      (r.value.vals[DetailKeys[0]] == Null <==> d.intro.None? || |d.intro.value.phone| == 0)
    ensures var r := DetailRecord(d, policySkip); r.Ok? && d.intro.Some? && |d.intro.value.phone| > 0 ==>
      r.value.vals[DetailKeys[0]] == Str(d.intro.value.phoneMatch.value)
    ensures var r := DetailRecord(d, policySkip); r.Ok? ==>
      (r.value.vals[DetailKeys[1]] == Null <==> d.intro.None? || |d.intro.value.description| == 0)
    ensures var r := DetailRecord(d, policySkip); r.Ok? && d.intro.Some? && |d.intro.value.description| > 0 ==>
      r.value.vals[DetailKeys[1]] == Str(Strip(d.intro.value.description))
  {
  }

  /** The facilities and surroundings tables of the detail dict keep every row. */
  lemma DetailTables(d: Detail, policySkip: string -> bool)
    ensures var r := DetailRecord(d, policySkip); r.Ok? ==>
      r.value.vals[DetailKeys[2]] == Obj(TableOf(d.facilities, NoSkip)) &&
      r.value.vals[DetailKeys[4]] == Obj(TableOf(d.surround, NoSkip))
  {
  }

  /** The keys of a table are exactly the keys of its rows that the loop does not skip. */
  lemma TableKeys(rows: seq<Row>, skip: string -> bool)
    ensures TableOf(Some(rows), skip).Keys == set i | 0 <= i < |rows| && !skip(rows[i].key) :: rows[i].key
  {
    var kept := Kept(rows, skip);
    SetDefaultsKeys(map[], kept);
    KeptKeepsUnskipped(rows, skip);
    forall k | k in RowKeys(kept) ensures exists i :: 0 <= i < |rows| && !skip(rows[i].key) && rows[i].key == k {
      var j :| 0 <= j < |kept| && kept[j].key == k;
      assert kept[j] in rows;
    }
    forall i | 0 <= i < |rows| && !skip(rows[i].key) ensures rows[i].key in RowKeys(kept) {
      var j :| 0 <= j < |kept| && kept[j] == rows[i];
    }
  }

  /** As the spider runs it, with the policy test of source line 754, the detail dict
      always carries an empty `hotel_policy`. */
  lemma AsWrittenPolicyEmpty(d: Detail)
    ensures var r := DetailRecord(d, SkipsAsWritten); r.Ok? ==> r.value.vals[DetailKeys[3]] == Obj(map[])
  {
    if d.policy.Some? {
      PolicyFilterAsWritten(d.policy.value);
    }
  }

  /** With the intended policy test, the `hotel_policy` table holds exactly the keys
      of the policy rows other than the child policy and the payment methods. */
  lemma IntendedPolicyKept(d: Detail, rows: seq<Row>)
    requires d.policy == Some(rows)
    ensures var r := DetailRecord(d, SkipsPolicy);
      r.Ok? ==>
        r.value.vals[DetailKeys[3]].Obj? &&
        r.value.vals[DetailKeys[3]].fields.Keys ==
          set i | 0 <= i < |rows| && rows[i].key != ChildPolicy && rows[i].key != PaymentMethods :: rows[i].key
  {
    TableKeys(rows, SkipsPolicy);
  }

  /** `parse_hotel_detail` once its detail page was fetched and checked. */
  function DetailOf(c: Checked<Page>): (r: Result<Record>)
    ensures r.Ok? ==> IsDetailDict(r.value)
    ensures r.Ok? ==> r.value.vals[DetailKeys[3]] == Obj(map[])
    ensures c.NotFetched? ==> r == Ok(DefaultDetail())
    ensures c.Accepted? ==> r == DetailRecord(c.body.detail, SkipsAsWritten)
  {
    match c
    case NotFetched => Ok(DefaultDetail())
    case Accepted(p) => AsWrittenPolicyEmpty(p.detail); DetailRecord(p.detail, SkipsAsWritten)
    case Crashed(e) => Err(e)
    case Stalled => Err(OutOfFuel)
  }

  /** What `parse_hotel_detail` returns or raises, and the index of the next unused
      network outcome. */
  datatype Detailed = Detailed(record: Result<Record>, next: nat)

  /** `parse_hotel_detail(url)`: fetch the detail page, re-fetching while it has the
      wrong shape, and read it. */
  function DetailFetch(net: nat -> Outcome<Page>, at: nat, fuel: nat): Detailed
  {
    var f := FetchChecked(net, at, IsDetail, Retry, fuel);
    Detailed(DetailOf(f.result), f.next)
  }

  /** `detailing` is `DetailFetch` on `net` with this bound (held as an opaque value,
      as `Walker.FetchesLike` explains). */
  ghost predicate DetailsLike(detailing: nat -> Detailed, net: nat -> Outcome<Page>, fuel: nat)
  {
    forall at: nat {:trigger DetailFetch(net, at, fuel)} :: detailing(at) == DetailFetch(net, at, fuel)
  }

  function Details(net: nat -> Outcome<Page>, fuel: nat): (detailing: nat -> Detailed)
    ensures DetailsLike(detailing, net, fuel)
  {
    (at: nat) => DetailFetch(net, at, fuel)
  }

  /** Every detail dict `detailing` returns has the five detail keys, and an empty
      `hotel_policy`. */
  ghost predicate GivesDetailKeys(detailing: nat -> Detailed)
  {
    forall at: nat {:trigger detailing(at)} :: detailing(at).record.Ok? ==>
      IsDetailDict(detailing(at).record.value) && detailing(at).record.value.vals[DetailKeys[3]] == Obj(map[])
  }

  lemma DetailFetchKeys(detailing: nat -> Detailed, net: nat -> Outcome<Page>, fuel: nat)
    requires DetailsLike(detailing, net, fuel)
    ensures GivesDetailKeys(detailing)
  {
    forall at: nat ensures detailing(at).record.Ok? ==>
      IsDetailDict(detailing(at).record.value) && detailing(at).record.value.vals[DetailKeys[3]] == Obj(map[])
    {
      assert detailing(at) == DetailFetch(net, at, fuel);
    }
  }

  /** The loop `for elem in elements: self.data.append(self.parse_hotel(elem))` of
      `run` from the `i`-th hotel on: each hotel's brief record takes in its detail
      dict by `merge` (`dict.update` in `run`, see `CtripHandler`); what was appended
      before a detail fetch raised stays appended. */
  function HotelsFrom(detailing: nat -> Detailed, at: nat, hotels: seq<Record>, i: nat,
                      merge: (Record, Record) -> Record): Handled<Record>
    decreases |hotels| - i
  {
    if i >= |hotels| then Handled([], at, None)
    else
      var f := detailing(at);
      match f.record
      case Err(e) => Handled([], f.next, Some(e))
      case Ok(d) =>
        var rest := HotelsFrom(detailing, f.next, hotels, i + 1, merge);
        Handled([merge(hotels[i], d)] + rest.items, rest.next, rest.raised)
  }

  /** One record per hotel, in order, for all hotels unless a detail fetch raised. */
  lemma {:induction false} HotelsFromCount(detailing: nat -> Detailed, at: nat, hotels: seq<Record>, i: nat,
                                           merge: (Record, Record) -> Record)
    requires i <= |hotels|
    ensures var h := HotelsFrom(detailing, at, hotels, i, merge);
      |h.items| <= |hotels| - i && (h.raised.None? ==> |h.items| == |hotels| - i)
    decreases |hotels| - i
  {
    if i < |hotels| && detailing(at).record.Ok? {
      HotelsFromCount(detailing, detailing(at).next, hotels, i + 1, merge);
    }
  }

  /** `item` is `hotel` with the five detail keys put in. */
  ghost predicate WithDetailKeys(item: Record, hotel: Record)
  {
    item.vals.Keys == hotel.vals.Keys + DetailKeySet
  }

  /** `merge` puts the detail keys into a hotel record. */
  ghost predicate AddsDetailKeys(merge: (Record, Record) -> Record)
  {
    forall hotel: Record, d: Record :: IsDetailDict(d) ==> WithDetailKeys(merge(hotel, d), hotel)
  }

  /** Each of `items` is the hotel at the same place from the `i`-th hotel on with
      the detail keys put in. */
  ghost predicate HotelsWithDetailKeys(items: seq<Record>, hotels: seq<Record>, i: nat)
    decreases |items|
  {
    items == [] ||
    (i < |hotels| && WithDetailKeys(items[0], hotels[i]) && HotelsWithDetailKeys(items[1..], hotels, i + 1))
  }

  /** When every detail dict has the five detail keys and `merge` puts them in, every
      record the hotel loop keeps is its brief record with the detail keys put in, in
      the order of the hotels. */
  lemma {:induction false} HotelsFromKeys(detailing: nat -> Detailed, at: nat, hotels: seq<Record>, i: nat,
                                          merge: (Record, Record) -> Record)
    requires GivesDetailKeys(detailing) && AddsDetailKeys(merge) && i <= |hotels|
    ensures HotelsWithDetailKeys(HotelsFrom(detailing, at, hotels, i, merge).items, hotels, i)
    decreases |hotels| - i
  {
    if i < |hotels| {
      var f := detailing(at);
      if f.record.Ok? {
        HotelsFromKeys(detailing, f.next, hotels, i + 1, merge);
        var rest := HotelsFrom(detailing, f.next, hotels, i + 1, merge);
        var item := merge(hotels[i], f.record.value);
        var items := [item] + rest.items;
        assert HotelsFrom(detailing, at, hotels, i, merge).items == items;
        assert IsDetailDict(f.record.value) && WithDetailKeys(item, hotels[i]);
        assert ([item] + rest.items)[1..] == rest.items;
      }
    }
  }

  /** `dict.update` with a detail dict puts its keys in. */
  lemma UpdateAddsDetailKeys()
    ensures AddsDetailKeys(Update)
  {
    forall hotel: Record, d: Record | IsDetailDict(d) ensures WithDetailKeys(Update(hotel, d), hotel) {
      assert Update(hotel, d).vals.Keys == hotel.vals.Keys + d.vals.Keys;
    }
  }

  /** `handle` is the hotel loop with this detail fetch (held as an opaque value, as
      `Walker.FetchesLike` explains). */
  ghost predicate HandlesLike(handle: (nat, Page) -> Handled<Record>, detailing: nat -> Detailed)
  {
    forall at: nat, p: Page {:trigger HotelsFrom(detailing, at, p.hotels, 0, Update)} ::
      Handling(handle, at, p) == HotelsFrom(detailing, at, p.hotels, 0, Update)
  }

  /** What `run` does with an accepted list page. */
  function CtripHandler(detailing: nat -> Detailed): (handle: (nat, Page) -> Handled<Record>)
    ensures HandlesLike(handle, detailing)
  {
    (at: nat, p: Page) => HotelsFrom(detailing, at, p.hotels, 0, Update)
  }

  /** The spider: its area, the list page URL, the records it has collected, and the
      network. `listing`, `detailing` and `counting` stand for the list page visit,
      the detail page fetch and the page-count loop on this network. */
  class CtripSpider {
    const areaName: string
    const pageUrl: string
    const net: Network<Page>
    /** How often a shape check may re-fetch and the page-count loop may retry: the
        source has no such bound. */
    const fuel: nat
    ghost const listing: (nat, Breaker, int) -> Visited<Page>
    ghost const detailing: nat -> Detailed
    ghost const counting: nat -> PageText
    ghost const handling: (nat, Page) -> Handled<Record>
    var data: seq<Record>

    ghost predicate Valid()
    {
      VisitsLike(listing, net.net, HasHotels, Retry, fuel) &&
      DetailsLike(detailing, net.net, fuel) && HandlesLike(handling, detailing) &&
      PageTextsLike(counting, net.net, fuel)
    }

    constructor (areaName: string, net: Network<Page>, fuel: nat)
      ensures this.areaName == areaName && pageUrl == BaseUrl + areaName && this.net == net && this.fuel == fuel
      ensures listing == Visits(net.net, HasHotels, Retry, fuel) && detailing == Details(net.net, fuel)
      ensures counting == PageTexts(net.net, fuel) && handling == CtripHandler(detailing)
      ensures Valid() && data == []
    {
      this.areaName := areaName;
      pageUrl := BaseUrl + areaName;
      this.net := net;
      this.fuel := fuel;
      listing := Visits(net.net, HasHotels, Retry, fuel);
      detailing := Details(net.net, fuel);
      counting := PageTexts(net.net, fuel);
      handling := CtripHandler(Details(net.net, fuel));
      data := [];
    }

    /** `get_page_num()`. */
    method GetPageNum() returns (r: Result<int>)
      requires Valid()
      modifies net
      ensures var t := counting(old(net.sent)); r == PageNumber(t) && net.sent == t.next
    {
      assert counting(net.sent) == PageStr(net.net, net.sent, fuel);
      var left := fuel;
      while left > 0
        invariant PageStr(net.net, old(net.sent), fuel) == PageStr(net.net, net.sent, left)
        decreases left
      {
        var html := net.RequestHtml();
        if html.Some? && html.value.body.pageStr != [] {
          return ParseInt(html.value.body.pageStr);
        }
        left := left - 1;
      }
      return Err(OutOfFuel);
    }

    /** The loop `for tr in ...: <skip>; table.setdefault(key, value)` of one table. */
    static method Tabulate(rows: seq<Row>, skip: string -> bool) returns (table: map<string, Value>)
      ensures table == SetDefaults(map[], Kept(rows, skip))
    {
      table := map[];
      var i := 0;
      while i < |rows|
        invariant 0 <= i <= |rows|
        invariant SetDefaults(map[], Kept(rows, skip)) == SetDefaults(table, Kept(rows[i..], skip))
        decreases |rows| - i
      {
        var row := rows[i];
        assert rows[i..][0] == row && rows[i..][1..] == rows[i + 1..];
        if !skip(row.key) {
          table := if row.key in table then table else table[row.key := row.value];
        }
        i := i + 1;
      }
    }

    /** The reading of an accepted detail page in `parse_hotel_detail`. */
    static method ReadDetail(d: Detail) returns (r: Result<Record>)
      ensures r == DetailRecord(d, SkipsAsWritten)
    {
      var contact, intro := Null, Null;
      if d.intro.Some? {
        if |d.intro.value.phone| > 0 {
          if d.intro.value.phoneMatch.None? {
            return Err(AttributeError("group"));
          }
          contact := Str(d.intro.value.phoneMatch.value);
        }
        if |d.intro.value.description| > 0 {
          intro := Str(Strip(d.intro.value.description));
        }
      }
      var facilities, policy, surround := map[], map[], map[];
      if d.facilities.Some? {
        facilities := Tabulate(d.facilities.value, NoSkip);
      }
      if d.policy.Some? {
        policy := Tabulate(d.policy.value, SkipsAsWritten);
      }
      if d.surround.Some? {
        surround := Tabulate(d.surround.value, NoSkip);
      }
      r := Ok(DetailDict([contact, intro, Obj(facilities), Obj(policy), Obj(surround)]));
    }

    /** `parse_hotel_detail(url)`. */
    method ParseHotelDetail() returns (r: Result<Record>)
      requires Valid()
      modifies net
      ensures Detailed(r, net.sent) == detailing(old(net.sent))
    {
      assert detailing(net.sent) == DetailFetch(net.net, net.sent, fuel);
      var c := FetchCheckedPage(net, IsDetail, Retry, fuel, Fetches(net.net, IsDetail, Retry, fuel));
      match c {
        case NotFetched => r := Ok(DefaultDetail());
        case Crashed(e) => r := Err(e);
        case Stalled => r := Err(OutOfFuel);
        case Accepted(p) => r := ReadDetail(p.detail);
      }
    }

    /** The loop over the hotel elements of an accepted list page. */
    method ParseHotels(page: Page) returns (raised: Option<Error>)
      requires Valid()
      modifies this, net
      ensures var h := Handling(handling, old(net.sent), page);
        data == old(data) + h.items && net.sent == h.next && raised == h.raised
    {
      assert Handling(handling, net.sent, page) == HotelsFrom(detailing, net.sent, page.hotels, 0, Update);
      var hotels := page.hotels;
      ghost var goal := HotelsFrom(detailing, net.sent, hotels, 0, Update);
      ghost var items: seq<Record> := [];
      var i := 0;
      while i < |hotels|
        invariant 0 <= i <= |hotels| && data == old(data) + items
        invariant var h := HotelsFrom(detailing, net.sent, hotels, i, Update);
          goal.items == items + h.items && goal.next == h.next && goal.raised == h.raised
        decreases |hotels| - i
      {
        ghost var h := HotelsFrom(detailing, net.sent, hotels, i, Update);
        var d := ParseHotelDetail();
        if d.Err? {
          return Some(d.error);
        }
        var item := Update(hotels[i], d.value);
        ghost var rest := HotelsFrom(detailing, net.sent, hotels, i + 1, Update);
        assert h.items == [item] + rest.items && h.next == rest.next && h.raised == rest.raised;
        assert items + [item] + rest.items == items + ([item] + rest.items);
        data := data + [item];
        items := items + [item];
        i := i + 1;
      }
      return None;
    }

    /** The page loop of `run` over the list pages `1 .. n-1`. */
    method WalkPages(n: int) returns (halt: Halt)
      requires Valid()
      modifies this, net
      ensures var w := Walk(listing, old(net.sent), Range(1, n), handling, Fresh);
        data == old(data) + w.items && net.sent == w.next && halt == w.halt
    {
      ghost var goal := Walk(listing, net.sent, Range(1, n), handling, Fresh);
      ghost var items: seq<Record> := [];
      var num, lastPage := Fresh.num, Fresh.lastPage;
      var page := 1;
      while page < n
        invariant data == old(data) + items
        invariant Extends(goal, items, Walk(listing, net.sent, Range(page, n), handling, Breaker(num, lastPage)))
        decreases n - page
      {
        ghost var w := Walk(listing, net.sent, Range(page, n), handling, Breaker(num, lastPage));
        var v := Advance(net, HasHotels, Retry, fuel, listing, handling, page, Range(page + 1, n),
                         Breaker(num, lastPage));
        match v {
          case Got(body) =>
            ghost var h := Handling(handling, net.sent, body);
            ghost var rest := Walk(listing, h.next, Range(page + 1, n), handling, Breaker(num, lastPage));
            assert h.raised.Some? ==> w.items == h.items && w.next == h.next && w.halt == Raised(h.raised.value);
            assert h.raised.None? ==> Extends(w, h.items, rest);
            ghost var before := data;
            var raised := ParseHotels(body);
            AppendAssoc(old(data), items, h.items);
            if raised.Some? {
              assert goal.items == items + h.items && goal.next == net.sent && goal.halt == Raised(raised.value);
              return Raised(raised.value);
            }
            ExtendsThen(goal, items, w, h.items, rest);
            items := items + h.items;
          case Missed(b') =>
            ExtendsThen(goal, items, w, [], Walk(listing, net.sent, Range(page + 1, n), handling, b'));
            assert items + [] == items;
            num, lastPage := b'.num, b'.lastPage;
          case Stop(h) =>
            return h;
        }
        page := page + 1;
      }
      assert Range(page, n) == [];
      assert data == old(data) + goal.items && net.sent == goal.next && goal.halt == Done;
      return Done;
    }

    /** `run`: the page count, then the list pages `range(1, get_page_num())`. */
    method Run() returns (halt: Halt)
      requires Valid()
      modifies this, net
      ensures var t := counting(old(net.sent)); var c := PageNumber(t);
        (c.Err? ==> halt == Raised(c.error) && data == old(data) && net.sent == t.next) &&
        (c.Ok? ==>
          var w := Walk(listing, t.next, Range(1, c.value), handling, Fresh);
          data == old(data) + w.items && net.sent == w.next && halt == w.halt)
    {
      var n := GetPageNum();
      if n.Err? {
        return Raised(n.error);
      }
      halt := WalkPages(n.value);
    }
  }
}
