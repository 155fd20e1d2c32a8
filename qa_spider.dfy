/** `MafengwoQASpider`: the area id of its area name and the page count of the
    question ajax API. */
module QaSpiders {
  import opened Base
  import opened Text
  import opened Paging
  import opened Transport

  /** The JSON reply of the question ajax API as `get_page_num` reads it: whether its
      `data` member is there (and not empty), and that member's `total`, if any. */
  datatype Reply = Reply(hasData: bool, total: Option<int>)

  /** `total_num` is truthy: present and not 0. */
  predicate Counts(r: Reply)
  {
    r.hasData && r.total.Some? && r.total.value != 0
  }

  /** The loop `while not (response and total_num)` of `get_page_num`, then
      `total_num // 20 + 1`. Before each round `total_num` is falsy (a truthy one
      ends the loop), and a round without a reply leaves it so; hence only the last
      reply decides. A total of 0 is falsy too, so it never ends the loop. The source
      never gives up; the model gives up after `fuel` requests. */
  function QaPageNum(net: nat -> Outcome<Reply>, at: nat, fuel: nat): (r: Counted)
    ensures r.next >= at
    ensures r.count.Err? ==> r.count.error == OutOfFuel
    decreases fuel
  {
    if fuel == 0 then Counted(Err(OutOfFuel), at)
    else
      var f := Request(net, at);
      if f.response.Some? && Counts(f.response.value.body) then
        Counted(Ok(PageCount(f.response.value.body.total.value)), f.next)
      else QaPageNum(net, f.next, fuel - 1)
  }

  /** The outcome at `i` is a reply with a non-zero total whose page count is `count`. */
  predicate CountedFrom(net: nat -> Outcome<Reply>, i: nat, count: int)
  {
    net(i).Success? && Counts(net(i).payload) && count == PageCount(net(i).payload.total.value)
  }

  /** A count comes only from a reply that carried a non-zero total, the last one
      read, and it is that total's page count. */
  lemma {:induction false} QaCountFromReply(net: nat -> Outcome<Reply>, at: nat, fuel: nat)
    ensures var r := QaPageNum(net, at, fuel);
      r.count.Ok? ==> r.next > at && CountedFrom(net, r.next - 1, r.count.value)
    decreases fuel
  {
    if fuel > 0 {
      var f := Request(net, at);
      if f.response.Some? && Counts(f.response.value.body) {
        ResponseFromLast(net, at);
        assert QaPageNum(net, at, fuel) == Counted(Ok(PageCount(f.response.value.body.total.value)), f.next);
      } else {
        QaCountFromReply(net, f.next, fuel - 1);
        assert QaPageNum(net, at, fuel) == QaPageNum(net, f.next, fuel - 1);
      }
    }
  }

  /** A first reply with a non-zero total settles the count at once. */
  lemma QaFirstReplyCounts(net: nat -> Outcome<Reply>, at: nat, fuel: nat, total: int)
    requires fuel >= 1 && total != 0 && net(at) == Success(Reply(true, Some(total)))
    ensures QaPageNum(net, at, fuel) == Counted(Ok(PageCount(total)), at + 1)
  {
    assert Request(net, at) == Fetch(Some(Response(Reply(true, Some(total)), Utf8)), at + 1);
  }

  /** A reply without a usable total (no `data`, no `total`, or a total of 0) is
      asked again. */
  lemma QaSkipsReply(net: nat -> Outcome<Reply>, at: nat, fuel: nat)
    requires fuel >= 1 && net(at).Success? && !Counts(net(at).payload)
    ensures QaPageNum(net, at, fuel) == QaPageNum(net, at + 1, fuel - 1)
  {
    SuccessWithinBudget(net, at, 0, net(at).payload);
  }

  /** The characters `strip('area-')` removes. */
  const AreaChars: set<char> := {'a', 'r', 'e', '-'}

  /** `int(self.area_name.strip('area-'))` of `__init__`. */
  function AreaId(areaName: string): Result<int>
  {
    ParseInt(StripOf(areaName, AreaChars))
  }

  lemma DigitsKept(d: string)
    requires d != [] && AllDigits(d)
    ensures StripOf(d, AreaChars) == d
  {
    assert d[0] !in AreaChars && d[|d| - 1] !in AreaChars;
  }

  lemma PrefixDropped(a: string, d: string)
    requires AllIn(a, AreaChars) && d != [] && AllDigits(d)
    ensures StripOf(a + d, AreaChars) == d
  {
    assert d[0] !in AreaChars;
    TrimStartOfSkips(a, d, AreaChars);
    DigitsKept(d);
  }

  /** Any run of the stripped characters before the digits of `n` gives the id `n`. */
  lemma AreaIdAfter(a: string, n: nat)
    requires AllIn(a, AreaChars)
    ensures AreaId(a + NatToString(n)) == Ok(n)
  {
    var d := NatToString(n);
    PrefixDropped(a, d);
    ParseIntToString(n, "", "");
    assert "" + IntToString(n) + "" == d;
  }

  /** The area name `area-<n>` gives the id `n`. */
  lemma AreaIdOf(n: nat)
    ensures AreaId("area-" + NatToString(n)) == Ok(n)
  {
    AreaIdAfter("area-", n);
  }

  /** `strip` takes a minus sign for one of the characters to remove, so a negative
      number in the name loses its sign. */
  lemma AreaIdDropsSign(n: nat)
    requires n > 0
    ensures AreaId("area-" + IntToString(-(n as int))) == Ok(n)
  {
    var d := NatToString(n);
    var a := "area-" + "-";
    assert "area-" + IntToString(-(n as int)) == a + d by {
      assert IntToString(-(n as int)) == "-" + d;
      AppendAssoc("area-", "-", d);
    }
    AreaIdAfter(a, n);
  }

  /** The question spider: its area, its area id and the network. */
  class QaSpider {
    const areaName: string
    const areaId: int
    const net: Network<Reply>
    /** How often the page-count loop may ask: the source has no such bound. */
    const fuel: nat

    constructor (areaName: string, net: Network<Reply>, fuel: nat)
      requires AreaId(areaName).Ok?
      ensures this.areaName == areaName && areaId == AreaId(areaName).value
      ensures this.net == net && this.fuel == fuel
    {
      this.areaName := areaName;
      areaId := AreaId(areaName).value;
      this.net := net;
      this.fuel := fuel;
    }

    /** `MafengwoQASpider(area_name)`: ValueError, and no spider, when the name does
        not strip to a number. */
    static method New(areaName: string, net: Network<Reply>, fuel: nat) returns (r: Result<QaSpider>)
      ensures r.Err? <==> AreaId(areaName).Err?
      ensures r.Err? ==> r.error == AreaId(areaName).error
      ensures r.Ok? ==> fresh(r.value) && r.value.areaName == areaName && r.value.areaId == AreaId(areaName).value
      ensures r.Ok? ==> r.value.net == net && r.value.fuel == fuel
    {
      var id := AreaId(areaName);
      if id.Err? {
        return Err(id.error);
      }
      var s := new QaSpider(areaName, net, fuel);
      return Ok(s);
    }

    /** `get_page_num`. */
    method GetPageNum() returns (r: Result<int>)
      modifies net
      ensures var c := QaPageNum(net.net, old(net.sent), fuel); r == c.count && net.sent == c.next
    {
      ghost var oracle := net.net;
      ghost var goal := QaPageNum(oracle, net.sent, fuel);
      var left := fuel;
      while left > 0
        invariant goal == QaPageNum(oracle, net.sent, left)
        decreases left
      {
        ghost var before := net.sent;
        var response := net.RequestHtml();
        assert Request(oracle, before) == Fetch(response, net.sent);
        if response.Some? && Counts(response.value.body) {
          return Ok(PageCount(response.value.body.total.value));
        }
        assert QaPageNum(oracle, before, left) == QaPageNum(oracle, net.sent, left - 1);
        left := left - 1;
      }
      return Err(OutOfFuel);
    }
  }
}
