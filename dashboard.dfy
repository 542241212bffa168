/**
 * The dashboard's state (App.jsx): the four chart/KPI sections fetched from the API, and the
 * live feed of sale messages pushed over the WebSocket. A SALE message prepends its text to a
 * feed of at most 10 entries and bumps the revenue, profit and orders KPIs; a successful
 * fetch replaces all four sections at once.
 *
 * JavaScript numbers that may be missing are `JsNum`: `undefined`, a number, or `NaN`. The
 * backend's SALE payload has no `total_price`, so the arithmetic on it yields NaN.
 */
module Dashboard {
  import opened Common
  import Api
  import WS = WebsocketManager

  datatype JsNum = Undefined | Num(x: real) | NaN

  /** `v || 0`: undefined and NaN are falsy and read as 0; a number reads as itself. */
  function Or0(v: JsNum): real {
    match v
    case Num(x) => x
    case _ => 0.0
  }

  /** `a + b` for a number `a`: adding undefined or NaN gives NaN. */
  function Add(a: real, b: JsNum): JsNum {
    match b
    case Num(y) => Num(a + y)
    case _ => NaN
  }

  /** `b * 0.25`: undefined times a number is NaN. */
  function Quarter(b: JsNum): JsNum {
    match b
    case Num(y) => Num(y * 0.25)
    case _ => NaN
  }

  /** The `kpis` object; fields absent from the initial state are `Undefined`. */
  datatype Kpis = Kpis(
    revenue: JsNum, profit: JsNum, aov: JsNum, orders: JsNum, lowStockCount: JsNum,
    margin: JsNum, avgUnits: JsNum, topCategory: Option<string>)

  /** One point of `/profit_distribution`. */
  datatype DayProfit = DayProfit(date: string, min: real, max: real, avg: real)

  /** One bar of `/time_of_day_sales`. */
  datatype PeriodSales = PeriodSales(name: string, value: real)

  datatype Data = Data(
    hourly: seq<Api.HourPoint>, distribution: seq<DayProfit>, timeOfDay: seq<PeriodSales>, kpis: Kpis)

  /** Both pieces of component state: `data` and `liveFeed` (a missing message is `None`). */
  datatype View = View(data: Data, liveFeed: seq<Option<string>>)

  const FEED_LIMIT := 10

  /** The state on mount: empty charts, zero KPIs, an empty feed. */
  const INITIAL := View(
    Data([], [], [], Kpis(Num(0.0), Num(0.0), Num(0.0), Num(0.0), Num(0.0), Undefined, Undefined, None)),
    [])

  /** `JSON.parse(event.data)`: its `type`, `message` and `total_price` (each possibly absent). */
  datatype Incoming = Incoming(kind: Option<string>, message: Option<string>, totalPrice: JsNum)

  /** What the backend actually sends: `{"type": ..., "message": ...}`, no `total_price`. */
  function FromWire(m: WS.Message): Incoming {
    Incoming(Some(m.kind), Some(m.text), Undefined)
  }

  /** `.slice(0, 10)` */
  function Take10<T>(s: seq<T>): (r: seq<T>)
    ensures |r| <= |s| && |r| <= FEED_LIMIT && r == s[..|r|]
    ensures |s| <= FEED_LIMIT ==> r == s
    ensures |s| > FEED_LIMIT ==> |r| == FEED_LIMIT
  {
    if |s| <= FEED_LIMIT then s else s[..FEED_LIMIT]
  }

  /** The `onmessage` handler: both functional updates a SALE triggers; anything else is ignored. */
  function OnMessage(v: View, m: Incoming): (w: View)
    ensures !IsSale(m) ==> w == v
    ensures IsSale(m) ==> |w.liveFeed| == if |v.liveFeed| < FEED_LIMIT then |v.liveFeed| + 1 else FEED_LIMIT
    ensures IsSale(m) ==> w.liveFeed[0] == m.message && w.liveFeed[1..] == v.liveFeed[..|w.liveFeed| - 1]
    ensures |v.liveFeed| <= FEED_LIMIT ==> |w.liveFeed| <= FEED_LIMIT
    ensures IsSale(m) ==> w.data.kpis.orders == Num(Or0(v.data.kpis.orders) + 1.0)
  {
    if !IsSale(m) then v
    else
      var k := v.data.kpis;
      var kpis := k.(
        revenue := Add(Or0(k.revenue), m.totalPrice),
        profit := Add(Or0(k.profit), Quarter(m.totalPrice)),
        orders := Num(Or0(k.orders) + 1.0));
      View(v.data.(kpis := kpis), Take10([m.message] + v.liveFeed))
  }

  /** The state after handling `msgs` in arrival order. */
  function Replay(v: View, msgs: seq<Incoming>): View {
    if msgs == [] then v else OnMessage(Replay(v, msgs[..|msgs| - 1]), msgs[|msgs| - 1])
  }

  function IsSale(m: Incoming): bool {
    m.kind == Some("SALE")
  }

  /** Reference: the messages of the SALE events, newest first. */
  function NewestFirst(msgs: seq<Incoming>): seq<Option<string>> {
    if msgs == [] then []
    else
      var m := msgs[|msgs| - 1];
      (if IsSale(m) then [m.message] else []) + NewestFirst(msgs[..|msgs| - 1])
  }

  function SaleCount(msgs: seq<Incoming>): nat {
    if msgs == [] then 0 else SaleCount(msgs[..|msgs| - 1]) + (if IsSale(msgs[|msgs| - 1]) then 1 else 0)
  }

  /** Sum of the SALE totals, when every SALE carries a number. */
  function SaleTotal(msgs: seq<Incoming>): real
    requires forall i :: 0 <= i < |msgs| && IsSale(msgs[i]) ==> msgs[i].totalPrice.Num?
  {
    if msgs == [] then 0.0
    else
      var m := msgs[|msgs| - 1];
      SaleTotal(msgs[..|msgs| - 1]) + (if IsSale(m) then m.totalPrice.x else 0.0)
  }

  lemma {:induction false} NoSaleNoTotal(msgs: seq<Incoming>)
    requires forall i :: 0 <= i < |msgs| && IsSale(msgs[i]) ==> msgs[i].totalPrice.Num?
    requires SaleCount(msgs) == 0
    ensures SaleTotal(msgs) == 0.0
  {
    if msgs != [] {
      NoSaleNoTotal(msgs[..|msgs| - 1]);
    }
  }

  /**
   * The first SALE after mount: it is the whole feed, orders becomes 1, and revenue becomes
   * its total, or NaN when the message carries none.
   */
  lemma FirstSaleAfterMount(m: Incoming)
    requires IsSale(m)
    ensures var w := OnMessage(INITIAL, m);
      && w.liveFeed == [m.message]
      && w.data.kpis.orders == Num(1.0)
      && (m.totalPrice.Num? ==> w.data.kpis.revenue == m.totalPrice && w.data.kpis.profit == Num(m.totalPrice.x * 0.25))
      && (!m.totalPrice.Num? ==> w.data.kpis.revenue == NaN && w.data.kpis.profit == NaN)
  {
  }

  lemma TakeOfTake<T>(x: T, s: seq<T>)
    ensures Take10([x] + Take10(s)) == Take10([x] + s)
  {
  }

  /**
   * The live feed holds the newest SALE messages, newest first, followed by what was there,
   * cut to 10 entries; it never grows beyond 10.
   */
  lemma {:induction false} FeedIsNewestSales(v: View, msgs: seq<Incoming>)
    requires |v.liveFeed| <= FEED_LIMIT
    ensures Replay(v, msgs).liveFeed == Take10(NewestFirst(msgs) + v.liveFeed)
    ensures |Replay(v, msgs).liveFeed| <= FEED_LIMIT
  {
    if msgs != [] {
      var init, m := msgs[..|msgs| - 1], msgs[|msgs| - 1];
      FeedIsNewestSales(v, init);
      if IsSale(m) {
        TakeOfTake(m.message, NewestFirst(init) + v.liveFeed);
        assert [m.message] + (NewestFirst(init) + v.liveFeed) == NewestFirst(msgs) + v.liveFeed;
      }
    }
  }

  /** Only SALE messages change anything; every SALE adds exactly one order. */
  lemma {:induction false} OrdersCountSales(v: View, msgs: seq<Incoming>)
    ensures SaleCount(msgs) == 0 ==> Replay(v, msgs) == v
    ensures SaleCount(msgs) > 0 ==>
      Replay(v, msgs).data.kpis.orders == Num(Or0(v.data.kpis.orders) + SaleCount(msgs) as real)
  {
    if msgs != [] {
      OrdersCountSales(v, msgs[..|msgs| - 1]);
    }
  }

  /**
   * With a `total_price` on every SALE, revenue and profit grow by the totals and a quarter
   * of them, starting from 0 when the previous value was missing or NaN.
   */
  lemma {:induction false} RevenueAddsTotals(v: View, msgs: seq<Incoming>)
    requires forall i :: 0 <= i < |msgs| && IsSale(msgs[i]) ==> msgs[i].totalPrice.Num?
    ensures SaleCount(msgs) > 0 ==>
      && Replay(v, msgs).data.kpis.revenue == Num(Or0(v.data.kpis.revenue) + SaleTotal(msgs))
      && Replay(v, msgs).data.kpis.profit == Num(Or0(v.data.kpis.profit) + SaleTotal(msgs) * 0.25)
  {
    if msgs != [] {
      var init := msgs[..|msgs| - 1];
      assert forall i :: 0 <= i < |init| ==> init[i] == msgs[i];
      RevenueAddsTotals(v, init);
      OrdersCountSales(v, init);
      if SaleCount(init) == 0 {
        NoSaleNoTotal(init);
      }
    }
  }

  /**
   * The backend's own payload: the message is shown and counted, but revenue and profit
   * become NaN because `total_price` is undefined.
   */
  lemma BackendSaleBreaksRevenue(v: View, m: WS.Message)
    requires m.kind == "SALE"
    ensures var w := OnMessage(v, FromWire(m));
      && w.data.kpis.revenue == NaN && w.data.kpis.profit == NaN
      && w.data.kpis.orders == Num(Or0(v.data.kpis.orders) + 1.0)
      && w.liveFeed[0] == Some(m.text)
  {
  }

  /** The payload the handler expects: the backend's message with the visit total, in rupees. */
  function FromWireWithTotal(m: WS.Message, totalPaise: nat): Incoming {
    Incoming(Some(m.kind), Some(m.text), Num(totalPaise as real / 100.0))
  }

  /**
   * With the total on the wire, each broadcast SALE adds the visit total to revenue and a
   * quarter of it to profit, and adds one order.
   */
  lemma CorrectedSaleAddsTotal(v: View, m: WS.Message, totalPaise: nat)
    requires m.kind == "SALE"
    ensures var w := OnMessage(v, FromWireWithTotal(m, totalPaise));
      && w.data.kpis.revenue == Num(Or0(v.data.kpis.revenue) + totalPaise as real / 100.0)
      && w.data.kpis.profit == Num(Or0(v.data.kpis.profit) + totalPaise as real / 400.0)
      && w.data.kpis.orders == Num(Or0(v.data.kpis.orders) + 1.0)
      && w.liveFeed[0] == Some(m.text)
  {
  }

  /** A NaN revenue is not sticky: the next SALE that does carry a total restarts from that total. */
  lemma NaNRevenueRestarts(v: View, t: real, text: string)
    requires v.data.kpis.revenue == NaN
    ensures OnMessage(v, Incoming(Some("SALE"), Some(text), Num(t))).data.kpis.revenue == Num(t)
  {
  }

  /** A SALE touches only revenue, profit, orders and the feed. */
  lemma SaleKeepsOtherFields(v: View, m: Incoming)
    ensures var w := OnMessage(v, m);
      && w.data.hourly == v.data.hourly && w.data.distribution == v.data.distribution
      && w.data.timeOfDay == v.data.timeOfDay
      && w.data.kpis.(revenue := v.data.kpis.revenue, profit := v.data.kpis.profit,
                      orders := v.data.kpis.orders) == v.data.kpis
  {
  }

  /** The JSON of `get_kpis` as the dashboard stores it. */
  function FromResponse(k: Api.KpiResponse): Kpis {
    Kpis(Num(k.revenue), Num(k.profit), Num(k.aov), Num(k.orders as real), Num(k.lowStockCount as real),
         Num(k.margin), Num(k.avgUnits), Some(k.topCategory))
  }

  /**
   * `fetchData`: `Promise.all` of the four requests. All or nothing: if all succeed, the four
   * sections are replaced together and hold exactly the responses; if any fails, the error
   * is logged and the state stays as it was. The live feed is never touched.
   */
  function FetchData(
    v: View, hourly: Option<seq<Api.HourPoint>>, distribution: Option<seq<DayProfit>>,
    timeOfDay: Option<seq<PeriodSales>>, kpi: Option<Api.KpiResponse>): (w: View)
    ensures w.liveFeed == v.liveFeed
    ensures hourly.None? || distribution.None? || timeOfDay.None? || kpi.None? ==> w == v
    ensures hourly.Some? && distribution.Some? && timeOfDay.Some? && kpi.Some? ==>
      && w.data.hourly == hourly.value && w.data.distribution == distribution.value
      && w.data.timeOfDay == timeOfDay.value && w.data.kpis == FromResponse(kpi.value)
  {
    if hourly.Some? && distribution.Some? && timeOfDay.Some? && kpi.Some? then
      v.(data := Data(hourly.value, distribution.value, timeOfDay.value, FromResponse(kpi.value)))
    else v
  }

  /**
   * End to end: after a successful fetch, one broadcast SALE turns the fetched revenue and
   * profit into NaN and takes the order count one past the server's; every other fetched
   * value stays, and the message heads the feed.
   */
  lemma FetchThenBackendSale(
    v: View, hourly: seq<Api.HourPoint>, distribution: seq<DayProfit>, timeOfDay: seq<PeriodSales>,
    kpi: Api.KpiResponse, m: WS.Message)
    requires m.kind == "SALE"
    ensures var w := OnMessage(FetchData(v, Some(hourly), Some(distribution), Some(timeOfDay), Some(kpi)), FromWire(m));
      && w.data.hourly == hourly && w.data.distribution == distribution && w.data.timeOfDay == timeOfDay
      && w.data.kpis == FromResponse(kpi).(revenue := NaN, profit := NaN, orders := Num(kpi.orders as real + 1.0))
      && w.liveFeed == Take10([Some(m.text)] + v.liveFeed)
  {
  }
}
