/**
 * The producer that actually runs beside the web server: `run_simulation` in run_all.py, an
 * endless loop of visits that inserts with `NOW()`, commits, broadcasts
 * "... | Total: ₹<T>" through the shared connection manager, and sleeps `randint(90, 240)`
 * seconds, or 10 seconds after any exception.
 *
 * `Process` is the running process: the one shared `ConnectionManager`, the sales rows the
 * producer has committed, and the sleeps it has taken. The endless loop is modelled by
 * `Run` over any finite sequence of iteration environments.
 */
module RunAll {
  import opened Common
  import opened Visit
  import WS = WebsocketManager

  const RUN_ALL := Variant(Timestamp, PipeTotal, 10, 90, 240)

  predicate AllDrawn(envs: seq<Env>) {
    forall i :: 0 <= i < |envs| ==> Drawn(RUN_ALL, envs[i])
  }

  /** The results of consecutive iterations, one per environment, in order. */
  function Iterations(envs: seq<Env>): (rs: seq<IterationResult>)
    requires AllDrawn(envs)
    ensures |rs| == |envs|
  {
    if envs == [] then []
    else Iterations(envs[..|envs| - 1]) + [Iteration(RUN_ALL, envs[|envs| - 1])]
  }

  lemma {:induction false} IterationsAt(envs: seq<Env>, k: nat)
    requires AllDrawn(envs) && k < |envs|
    ensures Iterations(envs)[k] == Iteration(RUN_ALL, envs[k])
  {
    if k < |envs| - 1 {
      IterationsAt(envs[..|envs| - 1], k);
    }
  }

  /** The send attempts an iteration causes: one broadcast of its payload, if it has one. */
  function Published(conns: seq<WS.Handle>, r: IterationResult, broken: set<WS.Handle>): seq<WS.Event> {
    match r.payload
    case None => []
    case Some(m) => WS.Attempts(conns, m, broken)
  }

  /** The rows a sequence of iterations leaves committed, in commit order. */
  function PersistedAll(results: seq<IterationResult>): seq<SaleLine> {
    if results == [] then []
    else PersistedAll(results[..|results| - 1]) + Persisted(results[|results| - 1])
  }

  /** The sleeps a sequence of iterations takes, one per iteration. */
  function Sleeps(results: seq<IterationResult>): seq<nat> {
    if results == [] then []
    else Sleeps(results[..|results| - 1]) + [results[|results| - 1].sleep]
  }

  /** The send attempts of a sequence of iterations against a fixed registry. */
  function PublishedAll(conns: seq<WS.Handle>, results: seq<IterationResult>, envs: seq<Env>): seq<WS.Event>
    requires |results| == |envs|
  {
    if results == [] then []
    else
      PublishedAll(conns, results[..|results| - 1], envs[..|envs| - 1])
        + Published(conns, results[|results| - 1], envs[|envs| - 1].broken)
  }

  lemma {:induction false} SleepsAt(rs: seq<IterationResult>, i: nat)
    requires i < |rs|
    ensures |Sleeps(rs)| == |rs| && Sleeps(rs)[i] == rs[i].sleep
  {
    var init := rs[..|rs| - 1];
    if i < |rs| - 1 {
      SleepsAt(init, i);
    } else if init != [] {
      SleepsAt(init, 0);
    }
  }

  /**
   * The loop never stops: each iteration ends in exactly one sleep, the 10 s cooldown when
   * it failed and a wait of 90..240 s when it committed, and the next iteration follows.
   */
  lemma {:induction false} SleepAfterEveryIteration(envs: seq<Env>, i: nat)
    requires AllDrawn(envs) && i < |envs|
    ensures |Sleeps(Iterations(envs))| == |envs|
    ensures !Iterations(envs)[i].committed ==> Sleeps(Iterations(envs))[i] == 10
    ensures Iterations(envs)[i].committed ==> 90 <= Sleeps(Iterations(envs))[i] <= 240
  {
    SleepsAt(Iterations(envs), i);
    IterationsAt(envs, i);
  }

  /** Only committed visits reach the table, at most three lines per visit. */
  lemma {:induction false} PersistedOnlyCommitted(envs: seq<Env>)
    requires AllDrawn(envs)
    ensures |PersistedAll(Iterations(envs))| <= 3 * |envs|
    ensures (forall k :: 0 <= k < |envs| ==> !Iterations(envs)[k].committed) ==> PersistedAll(Iterations(envs)) == []
  {
    if envs != [] {
      var init := envs[..|envs| - 1];
      var rs := Iterations(envs);
      assert rs[..|rs| - 1] == Iterations(init);
      PersistedOnlyCommitted(init);
      IterationLines(RUN_ALL, envs[|envs| - 1]);
    }
  }

  const MILK_ROWS := [CatalogRow(1, "Milk", 5000)]
  const MILK_DRAWS := [Draw(1, 5000)]

  lemma MilkLines()
    ensures Lines(RUN_ALL, MILK_ROWS, MILK_DRAWS) == [SaleLine(Timestamp, 1, "STORE_MAIN", 1, 5000, 5000, 0, "Retail")]
    ensures Basket(Lines(RUN_ALL, MILK_ROWS, MILK_DRAWS)) == FloatPaise(5000)
  {
    var lines := Lines(RUN_ALL, MILK_ROWS, MILK_DRAWS);
    assert lines[..0] == [];
    assert Total(lines) == 5000;
  }

  lemma MilkSummary(clock: string)
    ensures Summary(PipeTotal, clock, Descriptions(MILK_ROWS, MILK_DRAWS), FloatPaise(5000))
      == "[" + clock + "] Customer bought: " + "1x Milk" + (" | Total: " + RUPEE + "50.0")
  {
    assert Text.DigitChar(1) == '1';
    assert Describe(MILK_ROWS[0], MILK_DRAWS[0]) == "1x Milk";
    assert Text.Join(Descriptions(MILK_ROWS, MILK_DRAWS), ", ") == "1x Milk";
    assert Text.DigitChar(0) == '0' && Text.DigitChar(5) == '5';
    assert Text.NatToString(50) == "50";
    assert RenderTotal(FloatPaise(5000)) == "50.0";
  }

  /**
   * The worked example: one catalog row "Milk" at ₹50.00, one unit, no jitter. One line is
   * inserted and committed, and the broadcast reads "1x Milk" with total ₹50.0.
   */
  lemma MilkVisit(clock: string, wait: nat, broken: set<WS.Handle>)
    requires 90 <= wait <= 240
    ensures var env := Env(1, Some(MILK_ROWS), MILK_DRAWS, [true], true, clock, wait, broken);
      Iteration(RUN_ALL, env)
        == IterationResult(
             [SaleLine(Timestamp, 1, "STORE_MAIN", 1, 5000, 5000, 0, "Retail")], true,
             Some(WS.Message("SALE", "[" + clock + "] Customer bought: " + "1x Milk" + (" | Total: " + RUPEE + "50.0"))),
             wait)
  {
    var env := Env(1, Some(MILK_ROWS), MILK_DRAWS, [true], true, clock, wait, broken);
    assert DrawInRange(MILK_ROWS[0], MILK_DRAWS[0]);
    assert Drawn(RUN_ALL, env);
    MilkLines();
    MilkSummary(clock);
    assert FirstRejected([true], 1) == 1;
  }

  /** An empty catalog result still commits (nothing) and broadcasts an empty basket with total 0. */
  lemma EmptyBasketStillBroadcast(env: Env)
    requires Drawn(RUN_ALL, env) && env.catalog == Some([]) && env.commitOk
    ensures Iteration(RUN_ALL, env)
      == IterationResult([], true,
           Some(WS.Message("SALE", "[" + env.clock + "] Customer bought:  | Total: " + RUPEE + "0")),
           env.wait)
  {
    assert Lines(RUN_ALL, [], env.draws) == [];
    assert Descriptions([], env.draws) == [];
    assert FirstRejected(env.insertOk, 0) == 0;
    assert Basket([]) == IntZero;
    assert Summary(PipeTotal, env.clock, [], IntZero)
      == "[" + env.clock + "] Customer bought:  | Total: " + RUPEE + "0";
  }

  lemma AppendAssoc<T>(a: seq<T>, b: seq<T>, c: seq<T>)
    ensures a + b + c == a + (b + c)
  {
  }

  /** How every record of a run grows by one iteration. */
  lemma RunStep(envs: seq<Env>, i: nat, r: IterationResult, conns: seq<WS.Handle>)
    requires AllDrawn(envs) && i < |envs| && r == Iteration(RUN_ALL, envs[i])
    ensures Iterations(envs[..i + 1]) == Iterations(envs[..i]) + [r]
    ensures PersistedAll(Iterations(envs[..i + 1])) == PersistedAll(Iterations(envs[..i])) + Persisted(r)
    ensures Sleeps(Iterations(envs[..i + 1])) == Sleeps(Iterations(envs[..i])) + [r.sleep]
    ensures PublishedAll(conns, Iterations(envs[..i + 1]), envs[..i + 1])
      == PublishedAll(conns, Iterations(envs[..i]), envs[..i]) + Published(conns, r, envs[i].broken)
  {
    var rs := Iterations(envs[..i]);
    assert envs[..i + 1][..i] == envs[..i];
    assert (rs + [r])[..i] == rs;
  }

  class Process {
    /** The module-level `manager` of websocket_manager.py, shared with the web endpoint. */
    const manager: WS.ConnectionManager
    /** Rows this producer has committed to sales_transactions, in commit order. */
    var sales: seq<SaleLine>
    /** Every `asyncio.sleep` duration, in order. */
    var sleeps: seq<nat>

    /** Process start: an empty registry and nothing produced yet. */
    constructor ()
      ensures fresh(manager)
      ensures manager.activeConnections == [] && manager.log == []
      ensures sales == [] && sleeps == []
    {
      manager := new WS.ConnectionManager();
      sales := [];
      sleeps := [];
    }

    /**
     * One turn of `while True`: the visit, the broadcast after a commit, then the sleep.
     * Registrations are left alone, so broken sockets stay registered.
     */
    method Step(env: Env) returns (r: IterationResult)
      requires Drawn(RUN_ALL, env)
      modifies this, manager
      ensures r == Iteration(RUN_ALL, env)
      ensures sales == old(sales) + Persisted(r)
      ensures sleeps == old(sleeps) + [r.sleep]
      ensures manager.activeConnections == old(manager.activeConnections)
      ensures manager.log == old(manager.log) + Published(manager.activeConnections, r, env.broken)
    {
      r := RunIteration(RUN_ALL, env);
      sales := sales + Persisted(r);
      if r.payload.Some? {
        manager.Broadcast(r.payload.value, env.broken);
      }
      sleeps := sleeps + [r.sleep];
    }

    /** `while True`, for as many iterations as `envs` describes; no iteration stops the loop. */
    method Run(envs: seq<Env>) returns (results: seq<IterationResult>)
      requires AllDrawn(envs)
      modifies this, manager
      ensures results == Iterations(envs)
      ensures sales == old(sales) + PersistedAll(results)
      ensures sleeps == old(sleeps) + Sleeps(results)
      ensures manager.activeConnections == old(manager.activeConnections)
      ensures manager.log == old(manager.log) + PublishedAll(manager.activeConnections, results, envs)
    {
      ghost var conns, log0, sales0, sleeps0 := manager.activeConnections, manager.log, sales, sleeps;
      results := [];
      var i := 0;
      while i < |envs|
        invariant 0 <= i <= |envs|
        invariant results == Iterations(envs[..i])
        invariant sales == sales0 + PersistedAll(results)
        invariant sleeps == sleeps0 + Sleeps(results)
        invariant manager.activeConnections == conns
        invariant manager.log == log0 + PublishedAll(conns, results, envs[..i])
      {
        var r := Step(envs[i]);
        RunStep(envs, i, r, conns);
        AppendAssoc(sales0, PersistedAll(results), Persisted(r));
        AppendAssoc(sleeps0, Sleeps(results), [r.sleep]);
        AppendAssoc(log0, PublishedAll(conns, results, envs[..i]), Published(conns, r, envs[i].broken));
        results := results + [r];
        i := i + 1;
      }
      assert envs[..i] == envs;
    }
  }
}
