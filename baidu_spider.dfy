/** `BaiduPoiSpider`: the tag check of its constructor, the page count of one
    rectangle, and the page loop of `run` over the rectangles. */
module BaiduSpiders {
  import opened Base
  import opened Records
  import opened Paging
  import opened Transport
  import opened CircuitBreaker
  import opened Walker

  /** `LEGAL_TAGS`: the place types the search API knows. */
  const LegalTags: seq<string> :=
    ["美食", "中餐厅", "外国餐厅", "小吃快餐店", "蛋糕甜品店", "咖啡厅", "茶座", "酒吧", "酒店", "星级酒店", "快捷酒店", "公寓式酒店", "购物",
     "购物中心", "百货商场", "超市", "便利店", "家居建材", "家电数码", "商铺", "集市", "生活服务", "通讯营业厅", "邮局", "物流公司", "售票处",
     "洗衣店", "图文快印店", "照相馆", "房产中介机构", "公用事业", "维修点", "家政服务", "殡葬服务", "彩票销售点", "宠物服务", "报刊亭",
     "公共厕所", "丽人", "美容", "美发", "美甲", "美体", "旅游景点", "公园", "动物园", "植物园", "游乐园", "博物馆", "水族馆", "海滨浴场",
     "文物古迹", "教堂", "风景区", "休闲娱乐", "度假村", "农家院", "电影院", "KTV", "剧院", "歌舞厅", "网吧", "游戏场所", "洗浴按摩",
     "休闲广场", "运动健身", "体育场馆", "极限运动场所", "健身中心", "教育培训", "高等院校", "中学", "小学", "幼儿园", "成人教育", "亲子教育",
     "特殊教育学校", "留学中介机构", "科研机构", "培训机构", "图书馆", "科技馆", "文化传媒", "新闻出版", "广播电视", "艺术团体", "美术馆",
     "展览馆", "文化宫", "医疗", "综合医院", "专科医院", "诊所", "药店", "体检机构", "疗养院", "急救中心", "疾控中心", "汽车服务", "汽车销售",
     "汽车维修", "汽车美容", "汽车配件", "汽车租赁", "汽车检测场", "交通设施", "飞机场", "火车站", "地铁站", "地铁线路", "长途汽车站", "公交车站",
     "公交线路", "港口", "停车场", "加油加气站", "服务区", "收费站", "桥", "充电站", "路侧停车位", "金融", "银行", "ATM", "信用社",
     "投资理财", "典当行", "房地产", "写字楼", "住宅区", "宿舍", "公司企业", "公司", "园区", "农林园艺", "厂矿", "政府机构", "中央机构",
     "各级政府", "行政单位", "公检法机构", "涉外机构", "党派团体", "福利机构", "政治教育机构", "出入口", "高速公路出口", "高速公路入口", "机场出口",
     "机场入口", "车站出口", "车站入口", "门", "停车场出入口", "自然地物", "岛屿", "山峰", "水系"]

  /** The tag `__init__` takes when none is given. */
  const DefaultTag := "交通设施"

  const TagError := RuntimeError("请求类型TAG指定有误，请输入合法类型TAG")
  const RequestError := RuntimeError("Request Error!")

  /** `__init__`'s check: RuntimeError for a tag outside `LEGAL_TAGS`. */
  function CheckTag(tag: string): (r: Option<Error>)
    ensures r.None? <==> tag in LegalTags
    ensures r.Some? ==> r.value == TagError
  {
    if tag in LegalTags then None else Some(TagError)
  }

  /** The JSON reply of the place-search API: `status`, `message`, `total` and the
      `results` of the page. */
  datatype Reply = Reply(status: int, message: string, total: int, results: seq<Value>)

  /** The page loop checks no shape: every reply that came back is used. */
  predicate AnyReply(r: Reply)
  {
    true
  }

  /** `get_page_num(bound)`: one request; RuntimeError("Request Error!") when it gave
      nothing, RuntimeError(message) when the API refused, else `total // 20 + 1`. */
  function PageNum(net: nat -> Outcome<Reply>, at: nat): (c: Counted)
    ensures var f := Request(net, at); c.next == f.next
    ensures c.count.Ok? <==> Request(net, at).response.Some? && Request(net, at).response.value.body.status == 0
    ensures c.count.Ok? ==> c.count.value == PageCount(Request(net, at).response.value.body.total)
    ensures Request(net, at).response.None? ==> c.count == Err(RequestError)
    ensures Request(net, at).response.Some? && Request(net, at).response.value.body.status != 0 ==>
      c.count == Err(RuntimeError(Request(net, at).response.value.body.message))
  {
    var f := Request(net, at);
    match f.response
    case None => Counted(Err(RequestError), f.next)
    case Some(html) =>
      if html.body.status != 0 then Counted(Err(RuntimeError(html.body.message)), f.next)
      else Counted(Ok(PageCount(html.body.total)), f.next)
  }

  /** What `run` does with a reply: RuntimeError(message) when the API refused, else
      the page's results appended. */
  function ReplyHandler(at: nat, p: Reply): Handled<Value>
  {
    if p.status != 0 then Handled([], at, Some(RuntimeError(p.message)))
    else Handled(p.results, at, None)
  }

  /** A reply the API refused ends the walk with its message; an accepted one adds
      exactly its results. */
  lemma ReplyHandled(at: nat, p: Reply)
    ensures var h := Handling(ReplyHandler, at, p);
      h.next == at &&
      (p.status != 0 ==> h.items == [] && h.raised == Some(RuntimeError(p.message))) &&
      (p.status == 0 ==> h.items == p.results && h.raised.None?)
  {
  }

  /** What one rectangle of `run` gives: the items appended, where the network
      stands, and how it ended. */
  datatype Collected = Collected(items: seq<Value>, next: nat, halt: Halt)

  /** One round of the outer loop of `run` from network position `at`: the page
      count, then the pages `range(0, count)` with a counter that starts at `num = 1`.
      (`lastPage` carries over from the previous rectangle in the source, but is
      never read while `num == 1`; see `FreshIgnoresLastPage`.) */
  function Round(visit: (nat, Breaker, int) -> Visited<Reply>, net: nat -> Outcome<Reply>, at: nat): Collected
  {
    var c := PageNum(net, at);
    if c.count.Err? then Collected([], c.next, Raised(c.count.error))
    else
      var w := Walk(visit, c.next, Range(0, c.count.value), ReplyHandler, Fresh);
      Collected(w.items, w.next, w.halt)
  }

  /** `round` is `Round` with this visit on `net` (held as an opaque value, as
      `Walker.FetchesLike` explains). */
  ghost predicate RoundsLike(round: nat -> Collected, visit: (nat, Breaker, int) -> Visited<Reply>,
                             net: nat -> Outcome<Reply>)
  {
    forall at: nat {:trigger Round(visit, net, at)} :: round(at) == Round(visit, net, at)
  }

  function Rounds(visit: (nat, Breaker, int) -> Visited<Reply>, net: nat -> Outcome<Reply>)
    : (round: nat -> Collected)
    ensures RoundsLike(round, visit, net)
  {
    (at: nat) => Round(visit, net, at)
  }

  /** What `run` collects over `k` rectangles from network position `at`: the rounds
      in order, up to the first that does not end normally. */
  function Rectangles(round: nat -> Collected, at: nat, k: nat): (r: Collected)
    decreases k
  {
    if k == 0 then Collected([], at, Done)
    else
      var c := round(at);
      if c.halt != Done then c
      else
        var rest := Rectangles(round, c.next, k - 1);
        Collected(c.items + rest.items, rest.next, rest.halt)
  }

  /** `r` is what is left of `g` once `items` were collected. */
  ghost predicate Continues(g: Collected, items: seq<Value>, r: Collected)
  {
    g.items == items + r.items && g.next == r.next && g.halt == r.halt
  }

  /** The spider: the API key, the area, the tag, the records collected, and the
      network. `listing` stands for a visit of a search page on this network. */
  class BaiduSpider {
    const ak: string
    const areaName: string
    const tag: string
    const net: Network<Reply>
    ghost const listing: (nat, Breaker, int) -> Visited<Reply>
    ghost const rounds: nat -> Collected
    var data: seq<Value>

    ghost predicate Valid()
    {
      VisitsLike(listing, net.net, AnyReply, Retry, 0) && RoundsLike(rounds, listing, net.net)
    }

    constructor (ak: string, areaName: string, tag: string, net: Network<Reply>)
      requires tag in LegalTags
      ensures this.ak == ak && this.areaName == areaName && this.tag == tag && this.net == net
      ensures listing == Visits(net.net, AnyReply, Retry, 0) && rounds == Rounds(listing, net.net)
      ensures Valid() && data == []
    {
      this.ak := ak;
      this.areaName := areaName;
      this.tag := tag;
      this.net := net;
      listing := Visits(net.net, AnyReply, Retry, 0);
      rounds := Rounds(Visits(net.net, AnyReply, Retry, 0), net.net);
      data := [];
    }

    /** `BaiduPoiSpider(ak, area_name, tag)`: RuntimeError, and no spider, for a tag
        outside `LEGAL_TAGS`. */
    static method New(ak: string, areaName: string, tag: string, net: Network<Reply>) returns (r: Result<BaiduSpider>)
      ensures r.Err? <==> tag !in LegalTags
      ensures r.Err? ==> r.error == TagError
      ensures r.Ok? ==> fresh(r.value) && r.value.tag == tag && r.value.net == net && r.value.Valid()
      ensures r.Ok? ==> r.value.data == []
    {
      var e := CheckTag(tag);
      if e.Some? {
        return Err(e.value);
      }
      var s := new BaiduSpider(ak, areaName, tag, net);
      return Ok(s);
    }

    /** `get_page_num(bound)`. */
    method GetPageNum() returns (r: Result<int>)
      modifies net
      ensures var c := PageNum(net.net, old(net.sent)); r == c.count && net.sent == c.next
    {
      var response := net.RequestHtml();
      if response.None? {
        return Err(RequestError);
      }
      if response.value.body.status != 0 {
        return Err(RuntimeError(response.value.body.message));
      }
      return Ok(PageCount(response.value.body.total));
    }

    /** The inner loop of `run` over the pages `range(0, n)` of one rectangle. */
    method WalkRectangle(n: int) returns (halt: Halt)
      requires Valid()
      modifies this, net
      ensures var w := Walk(listing, old(net.sent), Range(0, n), ReplyHandler, Fresh);
        data == old(data) + w.items && net.sent == w.next && halt == w.halt
    {
      ghost var goal := Walk(listing, net.sent, Range(0, n), ReplyHandler, Fresh);
      ghost var items: seq<Value> := [];
      var num, lastPage := Fresh.num, Fresh.lastPage;
      var page := 0;
      while page < n
        invariant data == old(data) + items
        invariant Extends(goal, items, Walk(listing, net.sent, Range(page, n), ReplyHandler, Breaker(num, lastPage)))
        decreases n - page
      {
        ghost var w := Walk(listing, net.sent, Range(page, n), ReplyHandler, Breaker(num, lastPage));
        var v := Advance(net, AnyReply, Retry, 0, listing, ReplyHandler, page, Range(page + 1, n),
                         Breaker(num, lastPage));
        match v {
          case Got(body) =>
            ghost var rest := Walk(listing, net.sent, Range(page + 1, n), ReplyHandler, Breaker(num, lastPage));
            ReplyHandled(net.sent, body);
            if body.status != 0 {
              assert goal.items == items + [] && goal.halt == Raised(RuntimeError(body.message));
              return Raised(RuntimeError(body.message));
            }
            ExtendsThen(goal, items, w, body.results, rest);
            AppendAssoc(old(data), items, body.results);
            data := data + body.results;
            items := items + body.results;
          case Missed(b') =>
            ExtendsThen(goal, items, w, [], Walk(listing, net.sent, Range(page + 1, n), ReplyHandler, b'));
            assert items + [] == items;
            num, lastPage := b'.num, b'.lastPage;
          case Stop(h) =>
            return h;
        }
        page := page + 1;
      }
      assert Range(page, n) == [];
      return Done;
    }

    /** One round of the outer loop of `run`: the page count of a rectangle, then
        its pages. */
    method CollectRectangle() returns (halt: Halt)
      requires Valid()
      modifies this, net
      ensures var c := Round(listing, net.net, old(net.sent));
        data == old(data) + c.items && net.sent == c.next && halt == c.halt
    {
      var n := GetPageNum();
      if n.Err? {
        assert data == old(data) + [];
        return Raised(n.error);
      }
      halt := WalkRectangle(n.value);
    }

    /** `run` over the rectangles `bounds` that `coord_div` made. */
    method Run(bounds: seq<string>) returns (halt: Halt)
      requires Valid()
      modifies this, net
      ensures var r := Rectangles(rounds, old(net.sent), |bounds|);
        data == old(data) + r.items && net.sent == r.next && halt == r.halt
    {
      ghost var goal := Rectangles(rounds, net.sent, |bounds|);
      ghost var items: seq<Value> := [];
      var i := 0;
      while i < |bounds|
        invariant 0 <= i <= |bounds| && data == old(data) + items
        invariant Continues(goal, items, Rectangles(rounds, net.sent, |bounds| - i))
        decreases |bounds| - i
      {
        ghost var start := net.sent;
        halt := CollectRectangle();
        ghost var c := Round(listing, net.net, start);
        assert rounds(start) == c;
        AppendAssoc(old(data), items, c.items);
        if halt != Done {
          return;
        }
        ghost var rest := Rectangles(rounds, net.sent, |bounds| - i - 1);
        AppendAssoc(items, c.items, rest.items);
        items := items + c.items;
        i := i + 1;
      }
      return Done;
    }
  }
}
