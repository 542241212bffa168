/**
 * The rules of the HTTP layer (main.py) that are not SQL: how `hourly_sales` fills the day
 * from 9:00 to 21:00, how `time_of_day_sales` buckets an hour, how `get_kpis` shapes its
 * response from the aggregate row, and the lifecycle of the `/ws` endpoint on the shared
 * connection manager. Query results are inputs.
 */
module Api {
  import opened Common
  import opened Text
  import WS = WebsocketManager

  // ----- hourly_sales -----

  /** One row of the hourly query: the hour and the revenue summed for it. */
  datatype HourRow = HourRow(hour: int, revenue: real)

  /** A JSON number as Python produces it: the int default `0`, or a float. */
  datatype Number = Int(i: int) | Float(r: real)

  /** One chart point: `{"hour": "<h>:00", "revenue": ...}`. */
  datatype HourPoint = HourPoint(hour: string, revenue: Number)

  const FIRST_HOUR := 9
  const HOUR_COUNT := 13

  /** `{int(r[0]): float(r[1]) for r in rows}`: a later row for the same hour wins. */
  function HourMap(rows: seq<HourRow>): (db: map<int, real>)
    ensures forall h :: h in db <==> exists k :: 0 <= k < |rows| && rows[k].hour == h
  {
    if rows == [] then map[]
    else HourMap(rows[..|rows| - 1])[rows[|rows| - 1].hour := rows[|rows| - 1].revenue]
  }

  /** `f"{h}:00"` */
  function HourLabel(h: nat): string {
    NatToString(h) + ":00"
  }

  /** `db_data.get(h, 0)` */
  function RevenueAt(db: map<int, real>, h: int): Number {
    if h in db then Float(db[h]) else Int(0)
  }

  /** The response of `hourly_sales`: one point per hour of `range(9, 22)`. */
  function HourlySales(rows: seq<HourRow>): (points: seq<HourPoint>)
    ensures |points| == HOUR_COUNT
  {
    var db := HourMap(rows);
    seq(HOUR_COUNT, i requires 0 <= i < HOUR_COUNT => HourPoint(HourLabel(FIRST_HOUR + i), RevenueAt(db, FIRST_HOUR + i)))
  }

  /** The hour a label was printed from. */
  function LabelHour(s: string): Option<nat> {
    if |s| >= 4 && s[|s| - 3..] == ":00" && AllDigits(s[..|s| - 3])
    then Some(DigitsValue(s[..|s| - 3]))
    else None
  }

  lemma PointAt(rows: seq<HourRow>, i: nat)
    requires i < HOUR_COUNT
    ensures HourlySales(rows)[i] == HourPoint(HourLabel(FIRST_HOUR + i), RevenueAt(HourMap(rows), FIRST_HOUR + i))
  {
  }

  /**
   * The chart's x-axis: point i is labelled with hour 9 + i, without zero padding, so the
   * labels run 9:00, 10:00, ..., 21:00 in increasing order and read back to their hour.
   */
  lemma {:induction false} HourLabelsInOrder(rows: seq<HourRow>, i: nat)
    requires i < HOUR_COUNT
    ensures HourlySales(rows)[i].hour == HourLabel(FIRST_HOUR + i)
    ensures HourlySales(rows)[i].hour[0] != '0'
    ensures LabelHour(HourlySales(rows)[i].hour) == Some(FIRST_HOUR + i)
    ensures 9 <= FIRST_HOUR + i <= 21
  {
    PointAt(rows, i);
    var s := HourLabel(FIRST_HOUR + i);
    assert s[..|s| - 3] == NatToString(FIRST_HOUR + i);
    assert s[|s| - 3..] == ":00";
    NatToStringRoundTrip(FIRST_HOUR + i);
  }

  /** The hour a row contributes to is in the map, with the revenue of its last row. */
  lemma {:induction false} HourMapLast(rows: seq<HourRow>, j: nat)
    requires j < |rows|
    requires forall k :: j < k < |rows| ==> rows[k].hour != rows[j].hour
    ensures rows[j].hour in HourMap(rows) && HourMap(rows)[rows[j].hour] == rows[j].revenue
  {
    if j < |rows| - 1 {
      HourMapLast(rows[..|rows| - 1], j);
    }
  }

  /**
   * Gap-fill: the point for hour h carries the revenue of the (last) row for h when there is
   * one, and the int 0 when no row mentions h.
   */
  lemma HourlyRevenue(rows: seq<HourRow>, i: nat)
    requires i < HOUR_COUNT
    ensures (forall k :: 0 <= k < |rows| ==> rows[k].hour != FIRST_HOUR + i)
      ==> HourlySales(rows)[i].revenue == Int(0)
    ensures forall j :: (0 <= j < |rows| && rows[j].hour == FIRST_HOUR + i
                          && (forall k :: j < k < |rows| ==> rows[k].hour != FIRST_HOUR + i))
                         ==> HourlySales(rows)[i].revenue == Float(rows[j].revenue)
  {
    PointAt(rows, i);
    forall j | 0 <= j < |rows| && rows[j].hour == FIRST_HOUR + i
      && (forall k :: j < k < |rows| ==> rows[k].hour != FIRST_HOUR + i)
      ensures HourlySales(rows)[i].revenue == Float(rows[j].revenue)
    {
      HourMapLast(rows, j);
    }
  }

  /** Hours before 9:00 or from 22:00 on are dropped: adding such a row changes no point. */
  lemma HoursOutsideDayIgnored(rows: seq<HourRow>, extra: HourRow)
    requires extra.hour < FIRST_HOUR || extra.hour >= FIRST_HOUR + HOUR_COUNT
    ensures HourlySales(rows + [extra]) == HourlySales(rows)
  {
    assert (rows + [extra])[..|rows|] == rows;
    assert HourMap(rows + [extra]) == HourMap(rows)[extra.hour := extra.revenue];
    var a, b := HourlySales(rows + [extra]), HourlySales(rows);
    forall i | 0 <= i < HOUR_COUNT
      ensures a[i] == b[i]
    {
      PointAt(rows + [extra], i);
      PointAt(rows, i);
      assert FIRST_HOUR + i != extra.hour;
    }
  }

  // ----- time_of_day_sales -----

  datatype Period = Morning | Afternoon | Evening

  /** The CASE expression: BETWEEN is inclusive at both ends; everything else is Evening. */
  function PeriodOf(hour: int): (p: Period)
    ensures p == Morning <==> 6 <= hour <= 11
    ensures p == Afternoon <==> 12 <= hour <= 17
    ensures p == Evening <==> hour < 6 || hour > 17
  {
    if 6 <= hour <= 11 then Morning
    else if 12 <= hour <= 17 then Afternoon
    else Evening
  }

  /** The name the query returns for a period. */
  function PeriodName(p: Period): string {
    match p
    case Morning => "Morning"
    case Afternoon => "Afternoon"
    case Evening => "Evening"
  }

  /** The three buckets come back under three different names, so each is a bar of its own. */
  lemma PeriodNamesDistinct(p: Period, q: Period)
    ensures PeriodName(p) in {"Morning", "Afternoon", "Evening"}
    ensures PeriodName(p) == PeriodName(q) ==> p == q
  {
  }

  function Rank(p: Period): nat {
    match p
    case Morning => 0
    case Afternoon => 1
    case Evening => 2
  }

  /**
   * Over the clock hours 0..23: from 6:00 on the periods follow one another in clock order,
   * and the hours before 6:00 fall in Evening with the late hours.
   */
  lemma PeriodsInClockOrder(h1: int, h2: int)
    requires 0 <= h1 <= h2 <= 23
    ensures 6 <= h1 ==> Rank(PeriodOf(h1)) <= Rank(PeriodOf(h2))
    ensures h1 < 6 ==> PeriodOf(h1) == PeriodOf(23) == Evening
  {
  }

  // ----- get_kpis -----

  /**
   * The aggregate row: SUM and AVG of total_price (None on an empty table, before
   * COALESCE), COUNT(*), the best category (None when there is none), and the low-stock
   * count (`scalar()` may give None).
   */
  datatype KpiQuery = KpiQuery(
    sumTotal: Option<real>, orders: nat, avgTotal: Option<real>, topCategory: Option<string>,
    lowStock: Option<nat>)

  /** The JSON object `get_kpis` returns. */
  datatype KpiResponse = KpiResponse(
    revenue: real, profit: real, orders: nat, margin: real, aov: real, avgUnits: real,
    topCategory: string, lowStockCount: nat)

  /** `round(x, 2)`: to the nearest whole number of paise, exact ties upward. */
  function RoundCents(x: real): (r: real)
    ensures x >= 0.0 ==> r >= 0.0
    ensures (r * 100.0).Floor as real == r * 100.0
    ensures -0.005 < r - x <= 0.005
  {
    var n := (x * 100.0 + 0.5).Floor;
    assert n as real <= x * 100.0 + 0.5 < n as real + 1.0;
    n as real / 100.0
  }

  /**
   * The KPI rules: profit is a quarter of revenue and margin the constant 25.0 that goes with
   * it; avg_units is the constant 1.2; revenue is the COALESCEd sum; aov is the mean rounded
   * to a whole number of paise; a missing or empty category reads "N/A"; a missing low-stock
   * count reads 0.
   */
  function GetKpis(q: KpiQuery): (k: KpiResponse)
    ensures k.profit * 4.0 == k.revenue
    ensures k.margin == 25.0
    ensures k.profit == k.revenue * k.margin / 100.0
    ensures k.avgUnits == 1.2
    ensures k.orders == q.orders
    ensures q.sumTotal.None? ==> k.revenue == 0.0 && k.profit == 0.0
    ensures q.sumTotal.Some? ==> k.revenue == q.sumTotal.value
    ensures (k.aov * 100.0).Floor as real == k.aov * 100.0
    ensures q.avgTotal.Some? ==> -0.005 < k.aov - q.avgTotal.value <= 0.005
    ensures q.avgTotal.None? ==> k.aov == 0.0
    ensures k.topCategory == "N/A" <==> q.topCategory.None? || q.topCategory.value in {"", "N/A"}
    ensures q.topCategory.Some? && q.topCategory.value != "" ==> k.topCategory == q.topCategory.value
    ensures k.lowStockCount == q.lowStock.GetOr(0)
  {
    var revenue := q.sumTotal.GetOr(0.0);
    KpiResponse(
      revenue,
      revenue * 0.25,
      q.orders,
      25.0,
      RoundCents(q.avgTotal.GetOr(0.0)),
      1.2,
      if q.topCategory.None? || q.topCategory.value == "" then "N/A" else q.topCategory.value,
      q.lowStock.GetOr(0))
  }

  /** Before any sale, the dashboard reads all zeros and "N/A". */
  lemma EmptyTableKpis()
    ensures GetKpis(KpiQuery(None, 0, None, None, Some(0)))
      == KpiResponse(0.0, 0.0, 0, 25.0, 0.0, 1.2, "N/A", 0)
  {
  }

  // ----- websocket_endpoint -----

  /** How the endpoint ends: `accept()` raised inside `connect`, or a receive raised after n frames. */
  datatype EndpointExit = AcceptRaised | Closed(framesReceived: nat)

  /**
   * `/ws`: register the socket, drain text frames until a receive raises (the client closed
   * after `framesBeforeClose` frames), then call `disconnect` exactly once. An `accept` that
   * raises escapes before the `try`, so nothing is registered and nothing is disconnected.
   */
  method WebsocketEndpoint(manager: WS.ConnectionManager, ws: WS.Handle, acceptOk: bool, framesBeforeClose: nat)
    returns (exit: EndpointExit)
    modifies manager
    ensures exit == (if acceptOk then Closed(framesBeforeClose) else AcceptRaised)
    ensures !acceptOk ==> manager.activeConnections == old(manager.activeConnections) && manager.log == old(manager.log)
    ensures acceptOk ==> manager.log == old(manager.log) + [WS.Accepted(ws), WS.DisconnectCalled(ws)]
    ensures acceptOk ==> manager.activeConnections == WS.RemoveFirst(old(manager.activeConnections) + [ws], ws)
    ensures ws !in old(manager.activeConnections) ==> manager.activeConnections == old(manager.activeConnections)
  {
    var accepted := manager.Connect(ws, acceptOk);
    if !accepted {
      return AcceptRaised;
    }
    var received := 0;
    while received < framesBeforeClose
      invariant received <= framesBeforeClose
      invariant manager.activeConnections == old(manager.activeConnections) + [ws]
      invariant manager.log == old(manager.log) + [WS.Accepted(ws)]
    {
      received := received + 1;
    }
    manager.Disconnect(ws);
    if ws !in old(manager.activeConnections) {
      WS.DisconnectUndoesConnect(old(manager.activeConnections), ws);
    }
    exit := Closed(received);
  }
}
