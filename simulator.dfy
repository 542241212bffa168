/**
 * The alternative producer, `run_simulation` in simulator.py. Its visit differs from
 * run_all.py in its constants (date-only `sales_date`, a "(Total: ₹<T>)" suffix, a 20 s
 * cooldown, waits of 120..300 s, basket-size weights 70/20/10 instead of 70/25/5) and in one
 * statement: an INSERT placed before the row loop.
 * That INSERT reads the loop variables `sku_id`, `units_sold` and `sell_price` before anything
 * has bound them, and its parameter dict has no `total_price` although the statement names
 * that placeholder. It therefore raises on every iteration, so as written this producer never
 * commits and never broadcasts; the corrected visit is `Visit.Iteration(SIMULATOR, _)`.
 */
module Simulator {
  import opened Common
  import opened Visit
  import WS = WebsocketManager

  const SIMULATOR := Variant(DateOnly, ParenTotal, 20, 120, 300)

  /**
   * The function-scoped variables the premature INSERT reads; `None` while a variable is
   * unbound. They are bound only inside the row loop, which comes after that INSERT.
   */
  datatype Locals = Locals(skuId: Option<nat>, unitsSold: Option<nat>, sellPrice: Option<nat>)

  const UNBOUND := Locals(None, None, None)

  /**
   * What raised in an as-written iteration: connecting or the catalog query, an
   * `UnboundLocalError` while building the premature INSERT's dict, or a missing value for
   * one of its bind parameters.
   */
  datatype Fault = QueryFailed | UnboundLocal(name: string) | MissingBind(name: string)

  /** The placeholders of the INSERT statement, in VALUES order. */
  const INSERT_PLACEHOLDERS: seq<string> :=
    ["sales_date", "sku_id", "store_id", "units_sold", "unit_price", "total_price", "discount", "channel"]

  /** The keys of the dict the premature INSERT passes. */
  const PREMATURE_KEYS: set<string> :=
    {"sales_date", "sku_id", "store_id", "units_sold", "unit_price", "discount", "channel"}

  /** The first placeholder that no supplied key binds, if any. */
  function FirstMissing(placeholders: seq<string>, supplied: set<string>): (m: Option<string>)
    ensures m.None? <==> forall i :: 0 <= i < |placeholders| ==> placeholders[i] in supplied
    ensures m.Some? ==> m.value in placeholders && m.value !in supplied
    ensures m.Some? ==> exists i :: (0 <= i < |placeholders| && placeholders[i] == m.value
      && forall j :: 0 <= j < i ==> placeholders[j] in supplied)
  {
    if placeholders == [] then None
    else if placeholders[0] !in supplied then Some(placeholders[0])
    else
      var rest := FirstMissing(placeholders[1..], supplied);
      assert forall i :: 1 <= i < |placeholders| ==> placeholders[i] == placeholders[1..][i - 1];
      if rest.Some? then
        var i :| 0 <= i < |placeholders[1..]| && placeholders[1..][i] == rest.value
          && forall j :: 0 <= j < i ==> placeholders[1..][j] in supplied;
        assert placeholders[i + 1] == rest.value;
        assert forall j :: 0 <= j < i + 1 ==> placeholders[j] in supplied;
        rest
      else rest
  }

  /**
   * Executing the premature INSERT: the dict is built value by value, so the first unbound
   * variable raises; with every variable bound, the statement itself fails on the first
   * placeholder the dict leaves unbound. `None` would mean the statement ran.
   */
  function PrematureInsert(locals: Locals): (f: Option<Fault>)
    ensures (locals.skuId.None? || locals.unitsSold.None? || locals.sellPrice.None?)
      <==> f.Some? && f.value.UnboundLocal?
    ensures f.Some? && f.value.MissingBind? ==>
      f.value.name in INSERT_PLACEHOLDERS && f.value.name !in PREMATURE_KEYS
    ensures f.None? ==> forall p :: p in INSERT_PLACEHOLDERS ==> p in PREMATURE_KEYS
    ensures f != Some(QueryFailed)
  {
    if locals.skuId.None? then Some(UnboundLocal("sku_id"))
    else if locals.unitsSold.None? then Some(UnboundLocal("units_sold"))
    else if locals.sellPrice.None? then Some(UnboundLocal("sell_price"))
    else
      match FirstMissing(INSERT_PLACEHOLDERS, PREMATURE_KEYS)
      case Some(name) => Some(MissingBind(name))
      case None => None
  }

  /**
   * The statement can never succeed: even with every variable bound, `total_price` has no
   * value. On a fresh process it fails on `sku_id`, the first variable the dict reads.
   */
  lemma PrematureInsertAlwaysRaises(locals: Locals)
    ensures PrematureInsert(locals).Some?
    ensures locals == UNBOUND ==> PrematureInsert(locals) == Some(UnboundLocal("sku_id"))
    ensures locals.skuId.Some? && locals.unitsSold.Some? && locals.sellPrice.Some?
      ==> PrematureInsert(locals) == Some(MissingBind("total_price"))
  {
  }

  /**
   * The exception that ends an as-written iteration, raised by the query or by the premature
   * INSERT; `None` only if both went through.
   */
  function FaultOf(locals: Locals, env: Env): Option<Fault> {
    if env.catalog.None? then Some(QueryFailed) else PrematureInsert(locals)
  }

  /**
   * The corrected visit (the premature INSERT removed, the loop's INSERT kept) commits and
   * publishes exactly as run_all.py's does, with date-only rows, the parenthesised total and
   * a wait of 120..300 s.
   */
  lemma CorrectedVisitPublishes(env: Env)
    requires Drawn(SIMULATOR, env) && env.catalog.Some? && env.commitOk
    requires forall j :: 0 <= j < |env.insertOk| ==> env.insertOk[j]
    ensures var r := Iteration(SIMULATOR, env);
      var rows := env.catalog.value;
      && r.committed
      && r.issued == Lines(SIMULATOR, rows, env.draws)
      && (forall i :: 0 <= i < |r.issued| ==> r.issued[i].salesDate == DateOnly)
      && r.payload == Some(WS.Message("SALE",
           Summary(ParenTotal, env.clock, Descriptions(rows, env.draws), Basket(r.issued))))
      && 120 <= r.sleep <= 300
  {
  }

  class Process {
    /** The shared manager the producer would broadcast through. */
    const manager: WS.ConnectionManager
    /** The loop variables, which persist across iterations of `while True`. */
    var locals: Locals
    /** Rows this producer has committed. */
    var sales: seq<SaleLine>
    /** Every `asyncio.sleep` duration, in order. */
    var sleeps: seq<nat>

    constructor (manager: WS.ConnectionManager)
      ensures this.manager == manager
      ensures locals == UNBOUND && sales == [] && sleeps == []
    {
      this.manager := manager;
      locals := UNBOUND;
      sales := [];
      sleeps := [];
    }

    /**
     * One turn of `while True` as written: the catalog query, then the premature INSERT;
     * only if that INSERT went through would the row loop (which binds the loop variables),
     * the commit and the broadcast follow. Any exception costs the 20 s cooldown. Because the
     * premature INSERT always raises once the query succeeds, nothing is committed, nothing is
     * broadcast and no loop variable gets bound.
     */
    method Step(env: Env) returns (r: IterationResult, fault: Option<Fault>)
      requires Drawn(SIMULATOR, env)
      modifies this, manager
      ensures fault == FaultOf(old(locals), env)
      ensures fault.Some?
      ensures env.catalog.None? <==> fault == Some(QueryFailed)
      ensures r == IterationResult([], false, None, SIMULATOR.cooldown)
      ensures locals == old(locals) && sales == old(sales)
      ensures sleeps == old(sleeps) + [SIMULATOR.cooldown]
      ensures manager.activeConnections == old(manager.activeConnections)
      ensures manager.log == old(manager.log)
    {
      ghost var locals0 := locals;
      fault := FaultOf(locals, env);
      if fault.Some? {
        r := IterationResult([], false, None, SIMULATOR.cooldown);
      } else {
        r := AfterPrematureInsert(env);
      }
      sleeps := sleeps + [r.sleep];
      PrematureInsertAlwaysRaises(locals0);
    }

    /**
     * What would follow a premature INSERT that went through: the row loop, which binds the
     * loop variables to the last row it reaches, the commit and the broadcast.
     */
    method AfterPrematureInsert(env: Env) returns (r: IterationResult)
      requires Drawn(SIMULATOR, env)
      modifies this, manager
      ensures r == Iteration(SIMULATOR, env)
      ensures env.catalog.None? ==> locals == old(locals)
      ensures env.catalog.Some? && |env.catalog.value| > 0 ==>
        locals.skuId.Some? && locals.unitsSold.Some? && locals.sellPrice.Some?
      ensures sales == old(sales) + Persisted(r) && sleeps == old(sleeps)
      ensures manager.activeConnections == old(manager.activeConnections)
      ensures r.payload.None? ==> manager.log == old(manager.log)
      ensures r.payload.Some? ==>
        manager.log == old(manager.log) + WS.Attempts(manager.activeConnections, r.payload.value, env.broken)
    {
      r := RunIteration(SIMULATOR, env);
      if env.catalog.Some? && |env.catalog.value| > 0 {
        // the loop variables keep the values of the last row the loop reached
        var rows := env.catalog.value;
        var j := if |r.issued| < |rows| then |r.issued| else |rows| - 1;
        locals := Locals(Some(rows[j].skuId), Some(env.draws[j].units), Some(env.draws[j].sellPrice));
      }
      sales := sales + Persisted(r);
      if r.payload.Some? {
        manager.Broadcast(r.payload.value, env.broken);
      }
    }

    /** `while True` as written, for as many iterations as `envs` describes. */
    method Run(envs: seq<Env>) returns (faults: seq<Option<Fault>>)
      requires forall k :: 0 <= k < |envs| ==> Drawn(SIMULATOR, envs[k])
      modifies this, manager
      ensures |faults| == |envs|
      ensures forall k :: 0 <= k < |envs| ==> faults[k] == FaultOf(old(locals), envs[k])
      ensures locals == old(locals) && sales == old(sales)
      ensures |sleeps| == |old(sleeps)| + |envs| && sleeps[..|old(sleeps)|] == old(sleeps)
      ensures forall k :: |old(sleeps)| <= k < |sleeps| ==> sleeps[k] == SIMULATOR.cooldown
      ensures manager.activeConnections == old(manager.activeConnections)
      ensures manager.log == old(manager.log)
    {
      ghost var sleeps0 := sleeps;
      faults := [];
      var i := 0;
      while i < |envs|
        invariant 0 <= i <= |envs| && |faults| == i
        invariant forall k :: 0 <= k < i ==> faults[k] == FaultOf(locals, envs[k])
        invariant locals == old(locals) && sales == old(sales)
        invariant |sleeps| == |sleeps0| + i && sleeps[..|sleeps0|] == sleeps0
        invariant forall k :: |sleeps0| <= k < |sleeps| ==> sleeps[k] == SIMULATOR.cooldown
        invariant manager.activeConnections == old(manager.activeConnections)
        invariant manager.log == old(manager.log)
      {
        var r, fault := Step(envs[i]);
        faults := faults + [fault];
        i := i + 1;
      }
    }
  }

  /**
   * As written, a fresh process fails every iteration: each one whose query succeeds raises
   * on `sku_id`, and none commits, whatever the environments.
   */
  lemma FreshProcessFailsOnSkuId(envs: seq<Env>, faults: seq<Option<Fault>>)
    requires |faults| == |envs|
    requires forall k :: 0 <= k < |envs| ==> faults[k] == FaultOf(UNBOUND, envs[k])
    ensures forall k :: 0 <= k < |envs| && envs[k].catalog.Some? ==> faults[k] == Some(UnboundLocal("sku_id"))
  {
  }
}
