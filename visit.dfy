/**
 * One synthesised customer visit, as both producer loops run it: pick a basket size, read at
 * most that many catalog rows, and for each row draw units and a jittered sell price, add the
 * line total to the basket, append "<units>x <name>" and INSERT the line; then COMMIT once and
 * broadcast one SALE summary. Any exception ends the iteration without commit or broadcast
 * (the open transaction is rolled back) and costs a cooldown sleep; otherwise the loop sleeps
 * a random wait.
 *
 * Randomness, the database and the clock are inputs (`Env`); money is in integer paise. The
 * run_all.py visit and the simulator.py visit without its premature INSERT differ only in the
 * constants gathered in `Variant` (and in basket-size weights, which are not modelled).
 */
module Visit {
  import opened Common
  import opened Text
  import WS = WebsocketManager

  /** One row of `SELECT sku_id, product_name, base_price ... LIMIT n`. */
  datatype CatalogRow = CatalogRow(skuId: nat, productName: string, basePrice: nat)

  /** The per-row random draws: `units_sold` and the rounded, jittered `sell_price`. */
  datatype Draw = Draw(units: nat, sellPrice: nat)

  /** `NOW()` (full timestamp) or `datetime.now().date()` (date only). */
  datatype SalesDate = Timestamp | DateOnly

  /** One INSERT INTO sales_transactions. */
  datatype SaleLine = SaleLine(
    salesDate: SalesDate, skuId: nat, storeId: string, unitsSold: nat,
    unitPrice: nat, totalPrice: nat, discount: nat, channel: string)

  /** Python's basket accumulator: the int 0 until the first `+=` of a float line total. */
  datatype Accumulator = IntZero | FloatPaise(paise: nat)

  datatype SummaryStyle = PipeTotal | ParenTotal

  datatype Variant = Variant(
    salesDate: SalesDate, style: SummaryStyle, cooldown: nat, minWait: nat, maxWait: nat)

  /**
   * Everything the outside world decides for one iteration: the drawn basket size, the rows
   * the catalog query returns (None when connecting or querying raises), the per-row draws,
   * whether each INSERT and the COMMIT succeed, the `%H:%M:%S` clock text, the drawn wait,
   * and the sockets whose send raises during the broadcast.
   */
  datatype Env = Env(
    basketSize: nat, catalog: Option<seq<CatalogRow>>, draws: seq<Draw>,
    insertOk: seq<bool>, commitOk: bool, clock: string, wait: nat, broken: set<WS.Handle>)

  /**
   * What one iteration did: the lines it inserted (in order), whether it committed, the
   * payload it broadcast, and how long it then slept.
   */
  datatype IterationResult = IterationResult(
    issued: seq<SaleLine>, committed: bool, payload: Option<WS.Message>, sleep: nat)

  const STORE_ID := "STORE_MAIN"
  const CHANNEL := "Retail"
  const RUPEE := "\U{20B9}"

  /** `units_sold` from {1, 2}; `round(base * uniform(0.99, 1.01), 2)` within half a paisa of the jitter band. */
  predicate DrawInRange(row: CatalogRow, d: Draw) {
    && (d.units == 1 || d.units == 2)
    && 99 * row.basePrice <= 100 * d.sellPrice + 50
    && 100 * d.sellPrice <= 101 * row.basePrice + 50
  }

  /** The ranges the random draws and the `LIMIT` query guarantee. */
  predicate Drawn(v: Variant, env: Env) {
    && 1 <= env.basketSize <= 3
    && v.minWait <= env.wait <= v.maxWait
    && (env.catalog.Some? ==>
          var rows := env.catalog.value;
          && |rows| <= env.basketSize
          && |env.draws| == |rows|
          && |env.insertOk| == |rows|
          && forall i :: 0 <= i < |rows| ==> DrawInRange(rows[i], env.draws[i]))
  }

  /** `round(units_sold * sell_price, 2)`, exact in paise. */
  function LineTotal(d: Draw): nat {
    d.units * d.sellPrice
  }

  function Line(v: Variant, row: CatalogRow, d: Draw): SaleLine {
    SaleLine(v.salesDate, row.skuId, STORE_ID, d.units, d.sellPrice, LineTotal(d), 0, CHANNEL)
  }

  /** `f"{units_sold}x {product_name}"` */
  function Describe(row: CatalogRow, d: Draw): string {
    NatToString(d.units) + "x " + row.productName
  }

  /** The line each row yields, one per row, in row order. */
  function Lines(v: Variant, rows: seq<CatalogRow>, draws: seq<Draw>): (ls: seq<SaleLine>)
    requires |draws| == |rows|
    ensures |ls| == |rows|
    ensures forall i :: 0 <= i < |rows| ==> ls[i] == Line(v, rows[i], draws[i])
  {
    if rows == [] then []
    else Lines(v, rows[..|rows| - 1], draws[..|draws| - 1]) + [Line(v, rows[|rows| - 1], draws[|draws| - 1])]
  }

  /** The item descriptions, one per row, in row order. */
  function Descriptions(rows: seq<CatalogRow>, draws: seq<Draw>): (ds: seq<string>)
    requires |draws| == |rows|
    ensures |ds| == |rows|
    ensures forall i :: 0 <= i < |rows| ==> ds[i] == Describe(rows[i], draws[i])
  {
    if rows == [] then []
    else Descriptions(rows[..|rows| - 1], draws[..|draws| - 1]) + [Describe(rows[|rows| - 1], draws[|draws| - 1])]
  }

  /** Sum of the line totals. */
  function Total(lines: seq<SaleLine>): nat {
    if lines == [] then 0 else Total(lines[..|lines| - 1]) + lines[|lines| - 1].totalPrice
  }

  /** The accumulator after adding the line totals of `lines` one by one. */
  function Basket(lines: seq<SaleLine>): Accumulator {
    if lines == [] then IntZero else FloatPaise(Total(lines))
  }

  function Paise(acc: Accumulator): nat {
    match acc
    case IntZero => 0
    case FloatPaise(p) => p
  }

  lemma BasketStep(lines: seq<SaleLine>, l: SaleLine)
    ensures Basket(lines + [l]) == FloatPaise(Paise(Basket(lines)) + l.totalPrice)
  {
  }

  /** `str(round(basket_total, 2))`: "0" while still the int 0, else the float's repr. */
  function RenderTotal(acc: Accumulator): string {
    match acc
    case IntZero => "0"
    case FloatPaise(p) => FloatRepr(p)
  }

  function TotalSuffix(style: SummaryStyle, acc: Accumulator): string {
    match style
    case PipeTotal => " | Total: " + RUPEE + RenderTotal(acc)
    case ParenTotal => " (Total: " + RUPEE + RenderTotal(acc) + ")"
  }

  /** The broadcast `message` text. */
  function Summary(style: SummaryStyle, clock: string, descriptions: seq<string>, acc: Accumulator): (text: string)
    ensures var head := "[" + clock + "] Customer bought: ";
      |text| >= |head| && text[..|head|] == head
    ensures var t := RenderTotal(acc);
      && (style == PipeTotal ==> |text| >= |t| && text[|text| - |t|..] == t)
      && (style == ParenTotal ==> |text| > |t| && text[|text| - |t| - 1..] == t + ")")
  {
    "[" + clock + "] Customer bought: " + Join(descriptions, ", ") + TotalSuffix(style, acc)
  }

  /** The first `n` INSERTs all succeed. */
  predicate Accepted(insertOk: seq<bool>, n: nat)
    requires n <= |insertOk|
  {
    forall j :: 0 <= j < n ==> insertOk[j]
  }

  /** Index of the first INSERT that raises among the first `n`, or `n` when none does. */
  function FirstRejected(insertOk: seq<bool>, n: nat): (k: nat)
    requires n <= |insertOk|
    ensures k <= n
    ensures k < n ==> !insertOk[k]
    ensures forall j :: 0 <= j < k ==> insertOk[j]
  {
    if n == 0 then 0
    else if FirstRejected(insertOk, n - 1) < n - 1 then FirstRejected(insertOk, n - 1)
    else if insertOk[n - 1] then n
    else n - 1
  }

  /** The specification of one producer iteration. */
  function Iteration(v: Variant, env: Env): (r: IterationResult)
    requires Drawn(v, env)
    ensures r.payload.Some? <==> r.committed
    ensures r.payload.Some? ==> r.payload.value.kind == "SALE"
    ensures r.sleep == if r.committed then env.wait else v.cooldown
    ensures env.catalog.Some? ==> |r.issued| <= |env.catalog.value|
    ensures env.catalog.None? ==> r.issued == []
  {
    match env.catalog
    case None => IterationResult([], false, None, v.cooldown)
    case Some(rows) =>
      var lines := Lines(v, rows, env.draws);
      var k := FirstRejected(env.insertOk, |rows|);
      if k < |rows| then IterationResult(lines[..k], false, None, v.cooldown)
      else if !env.commitOk then IterationResult(lines, false, None, v.cooldown)
      else
        var text := Summary(v.style, env.clock, Descriptions(rows, env.draws), Basket(lines));
        IterationResult(lines, true, Some(WS.Message("SALE", text)), env.wait)
  }

  /** The rows the database keeps from one iteration: its lines if it committed, else none. */
  function Persisted(r: IterationResult): seq<SaleLine> {
    if r.committed then r.issued else []
  }

  lemma LinesStep(v: Variant, rows: seq<CatalogRow>, draws: seq<Draw>, i: nat)
    requires |draws| == |rows| && i < |rows|
    ensures Lines(v, rows, draws)[..i + 1] == Lines(v, rows, draws)[..i] + [Line(v, rows[i], draws[i])]
  {
  }

  lemma DescriptionsStep(rows: seq<CatalogRow>, draws: seq<Draw>, i: nat)
    requires |draws| == |rows| && i < |rows|
    ensures Descriptions(rows, draws)[..i + 1] == Descriptions(rows, draws)[..i] + [Describe(rows[i], draws[i])]
  {
  }

  /**
   * The row loop: for each returned row, add its line total to `basket_total`, append its
   * description and INSERT its line, stopping at the first INSERT that raises. `inserted`
   * counts the rows whose INSERT went through.
   */
  method InsertRows(v: Variant, rows: seq<CatalogRow>, draws: seq<Draw>, insertOk: seq<bool>)
    returns (issued: seq<SaleLine>, itemSummaries: seq<string>, basketTotal: Accumulator, inserted: nat)
    requires |draws| == |rows| && |insertOk| == |rows|
    ensures inserted == FirstRejected(insertOk, |rows|)
    ensures issued == Lines(v, rows, draws)[..inserted]
    ensures inserted == |rows| ==> itemSummaries == Descriptions(rows, draws)
    ensures inserted == |rows| ==> basketTotal == Basket(issued)
  {
    ghost var lines := Lines(v, rows, draws);
    ghost var descriptions := Descriptions(rows, draws);
    basketTotal := IntZero;
    itemSummaries := [];
    issued := [];
    inserted := 0;
    while inserted < |rows|
      invariant 0 <= inserted <= |rows|
      invariant issued == lines[..inserted]
      invariant itemSummaries == descriptions[..inserted]
      invariant basketTotal == Basket(issued)
      invariant Accepted(insertOk, inserted)
    {
      var row, d := rows[inserted], draws[inserted];
      var lineTotal := LineTotal(d);
      basketTotal := FloatPaise(Paise(basketTotal) + lineTotal);
      itemSummaries := itemSummaries + [Describe(row, d)];
      if !insertOk[inserted] {
        assert FirstRejected(insertOk, |rows|) == inserted;
        return;
      }
      LinesStep(v, rows, draws, inserted);
      DescriptionsStep(rows, draws, inserted);
      BasketStep(issued, Line(v, row, d));
      issued := issued + [Line(v, row, d)];
      inserted := inserted + 1;
    }
    assert FirstRejected(insertOk, |rows|) == |rows|;
    assert descriptions[..inserted] == descriptions;
  }

  /**
   * The body of the producer loop: the catalog query, the row loop, then the COMMIT, then
   * the summary for the broadcast and the wait.
   */
  method RunIteration(v: Variant, env: Env) returns (r: IterationResult)
    requires Drawn(v, env)
    ensures r == Iteration(v, env)
  {
    if env.catalog.None? {
      return IterationResult([], false, None, v.cooldown);
    }
    var rows := env.catalog.value;
    var issued, itemSummaries, basketTotal, inserted := InsertRows(v, rows, env.draws, env.insertOk);
    if inserted < |rows| || !env.commitOk {
      return IterationResult(issued, false, None, v.cooldown);
    }
    assert issued == Lines(v, rows, env.draws);
    var message := Summary(v.style, env.clock, itemSummaries, basketTotal);
    r := IterationResult(issued, true, Some(WS.Message("SALE", message)), env.wait);
  }

  /**
   * Persist before publish: an iteration broadcasts exactly when it committed, and it commits
   * exactly when the catalog query, every INSERT and the COMMIT succeeded. A failed
   * iteration sleeps the cooldown; a committed one sleeps the drawn wait.
   */
  lemma IterationOutcome(v: Variant, env: Env)
    requires Drawn(v, env)
    ensures var r := Iteration(v, env);
      && (r.payload.Some? <==> r.committed)
      && (r.committed <==>
            env.catalog.Some? && env.commitOk
            && forall j :: 0 <= j < |env.catalog.value| ==> env.insertOk[j])
      && (!r.committed ==> r.sleep == v.cooldown)
      && (r.committed ==> v.minWait <= r.sleep <= v.maxWait)
  {
  }

  /**
   * No line is inserted twice and none out of order: the inserted lines are always a prefix
   * of the lines the returned rows yield, and a committed visit has one line per row, at
   * most the basket size, each with 1 or 2 units and total = units * unit price.
   */
  lemma IterationLines(v: Variant, env: Env)
    requires Drawn(v, env)
    ensures var r := Iteration(v, env);
      && (env.catalog.None? ==> r.issued == [])
      && (env.catalog.Some? ==>
            var rows := env.catalog.value;
            && |r.issued| <= |rows| <= env.basketSize <= 3
            && r.issued == Lines(v, rows, env.draws)[..|r.issued|]
            && (r.committed ==> |r.issued| == |rows|))
      && forall i :: 0 <= i < |r.issued| ==>
            var l := r.issued[i];
            && (l.unitsSold == 1 || l.unitsSold == 2)
            && l.totalPrice == l.unitsSold * l.unitPrice
            && l.salesDate == v.salesDate && l.storeId == STORE_ID && l.channel == CHANNEL
  {
  }

  /** The basket total is the sum of units * sell price over the returned rows. */
  function PriceSum(draws: seq<Draw>): nat {
    if draws == [] then 0 else PriceSum(draws[..|draws| - 1]) + LineTotal(draws[|draws| - 1])
  }

  lemma {:induction false} TotalIsPriceSum(v: Variant, rows: seq<CatalogRow>, draws: seq<Draw>)
    requires |draws| == |rows|
    ensures Total(Lines(v, rows, draws)) == PriceSum(draws)
  {
    if rows != [] {
      var ls := Lines(v, rows, draws);
      assert ls[..|ls| - 1] == Lines(v, rows[..|rows| - 1], draws[..|draws| - 1]);
      TotalIsPriceSum(v, rows[..|rows| - 1], draws[..|draws| - 1]);
    }
  }

  /**
   * A committed visit broadcasts "[<clock>] Customer bought: <d1>, <d2>, ..." followed by its
   * total, and the total text reads back as exactly the sum of units * sell price.
   */
  lemma SaleMessage(v: Variant, env: Env)
    requires Drawn(v, env) && Iteration(v, env).committed
    ensures var rows := env.catalog.value;
      var r := Iteration(v, env);
      var head := "[" + env.clock + "] Customer bought: " + Join(Descriptions(rows, env.draws), ", ");
      && r.payload.value.kind == "SALE"
      && (rows != [] ==>
            var amount := FloatRepr(PriceSum(env.draws));
            && ParseRupees(amount) == Some(PriceSum(env.draws))
            && r.payload.value.text == head + TotalSuffix(v.style, FloatPaise(PriceSum(env.draws))))
      && (rows == [] ==> r.payload.value.text == head + TotalSuffix(v.style, IntZero))
  {
    TotalIsPriceSum(v, env.catalog.value, env.draws);
    FloatReprRoundTrip(PriceSum(env.draws));
  }
}
