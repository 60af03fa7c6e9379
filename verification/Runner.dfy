/** eval/runner.py: a run between its refusal in advance and its entry in the ledger. */
module Runner {
  import opened Wrappers
  import opened Gateway
  import opened Metrics
  import opened Gate
  import opened Rounding
  import opened Budget
  import opened EvalRun

  /** Refused in advance, or run; a run's cost is committed to the ledger even if the run died. */
  method RunBudgeted(
      examples: seq<Example>, setup: Setup, gateway: Service, sink: PostgresSink, ledger: Ledger,
      name: string, estimate: real, cap: real, up: nat -> bool, others: nat -> real)
    returns (r: Option<RunResult>)
    requires gateway.stats.Valid() && sink.Valid()
    modifies gateway`served, gateway.stats, sink`next, sink`rows, sink`finished, ledger
    ensures gateway.stats.Valid() && sink.Valid()
    ensures r.None? <==> old(ledger.Spent()) + estimate > cap
    ensures r.None? ==>
              && ledger.entries == old(ledger.entries) && sink.rows == old(sink.rows)
              && gateway.served == old(gateway.served) && gateway.stats.cost == old(gateway.stats.cost)
    ensures r.Some? ==>
              var w := World(
                examples, setup, gateway.replies, old(gateway.served), old(gateway.stats.cost), up, others);
              var n := |r.value.outcomes|;
              && n <= |examples|
              && AsSpecified(w, Some((old(ledger.Spent()), cap)), sink.golden, r.value, RowsOf(sink.rows, r.value.run))
              && ledger.entries == old(ledger.entries) + [Entry(name, ToMicros(LatestAt(w, n)))]
              && ledger.Spent() == old(ledger.Spent()) + ToMicros(LatestAt(w, n))
  {
    hide AsSpecified, LatestAt, GatewayStats.Valid, PostgresSink.Valid, Ledger.Spent;
    var guard := new BudgetGuard(ledger, name, estimate, cap);
    var refused := guard.Preflight();
    if refused {
      return None;
    }
    var result := RunEval(examples, setup, gateway, sink, guard, up, others);
    guard.Commit();
    r := Some(result);
  }

  /** Run after run, the ledger passes the cap by no more than was billed around one example, and half
      a millionth: a run is only begun within the cap, and only its last poll can find it past. */
  lemma LedgerStaysNearTheCap(w: World, spent: real, estimate: real, cap: real, golden: map<string, nat>, r: RunResult,
      rows: map<nat, Row>)
    requires Reliable(w) && 0.0 <= estimate && spent + estimate <= cap
    requires AsSpecified(w, Some((spent, cap)), golden, r, rows)
    ensures var n := |r.outcomes|;
            && n <= |w.examples|
            && spent + ToMicros(LatestAt(w, n))
               <= cap + 0.0000005 + if r.Finished? && r.aborted then BilledBetween(w, r.outcomes, n) else 0.0
  {
    hide BilledBetween, ToMicros, TotalAt, Processed, NeverStopsBefore, Survives, Reliable;
    var n := |r.outcomes|;
    RunDiesAtTheFirstRaise(w, Some((spent, cap)), golden, r, rows);
    ToMicrosIsNear(LatestAt(w, n));
    if r.Finished? {
      CapIsOvershotByOneExample(w, spent, cap, golden, r, rows);
      RunIsCutWithin(w, Some((spent, cap)), golden, r, rows);
    } else if n == 0 {
      assert LatestAt(w, 0) == 0.0;
    }
  }

  lemma RunIsCutWithin(w: World, limit: Option<(real, real)>, golden: map<string, nat>, r: RunResult,
      rows: map<nat, Row>)
    requires AsSpecified(w, limit, golden, r, rows) && r.Finished? && limit.Some?
    ensures |r.outcomes| <= |w.examples| && r.totalCost == LatestAt(w, |r.outcomes|)
    ensures r.aborted ==> |r.outcomes| > 0
  {
    hide LatestAt, Stored, Survives, NeverStopsBefore, OutcomesOf;
  }
}
