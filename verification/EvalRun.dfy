/** eval/harness.py: an evaluation run, from its model calls to its stored rows and its budget. */
module EvalRun {
  import opened Wrappers
  import opened Aggregates
  import opened Gateway
  import opened Metrics
  import opened Gate
  import opened OrderFree
  import opened Budget
  import L = AgentLoop

  datatype Example = Example(key: string, question: string, answerable: bool, expected: seq<string>)

  type Parse = string -> Option<int>

  /** What the tools, the clock and the citation check return, by example and attempt; and the
      parser of judge replies, if there is a judge. */
  datatype Setup = Setup(
    tools: (nat, nat) -> L.Tools, latency: nat -> real, citation: (string, seq<L.RetrievedRef>) -> bool,
    judge: Option<Parse>, maxSteps: int, k: nat)

  const MAX_RETRIES := 3
  const AGENT := "fast"
  const JUDGE := "judge"

  // ----- one graded dimension (score_once) -----

  datatype Grade = Graded(score: Option<int>, cost: real, end: nat) | GradeRaised(end: nat)

  /** The judge's reply to call `start`, and to one repair call if that could not be parsed. */
  function GradeOf(parse: Parse, replies: Script, start: nat): Grade {
    var first := replies(start);
    if !first.Response? then GradeRaised(start + 1)
    else
      var score := parse(L.Joined(first.content));
      if score.Some? then Graded(score, first.cost, start + 1)
      else
        var second := replies(start + 1);
        if !second.Response? then GradeRaised(start + 2)
        else Graded(parse(L.Joined(second.content)), first.cost + second.cost, start + 2)
  }

  method ScoreOnce(parse: Parse, gateway: Service) returns (grade: Grade)
    requires gateway.stats.Valid()
    modifies gateway`served, gateway.stats
    ensures gateway.stats.Valid() && grade == GradeOf(parse, gateway.replies, old(gateway.served))
    ensures gateway.served == grade.end
    ensures gateway.stats.cost == old(gateway.stats.cost) + Spend(gateway.replies, old(gateway.served), gateway.served)
  {
    hide Spend, L.Joined, GatewayStats.Valid;
    ghost var start := gateway.served;
    SpendOfTwo(gateway.replies, start);
    var cost := 0.0;
    for attempt := 1 to 3
      invariant gateway.stats.Valid() && gateway.served == start + attempt - 1
      invariant cost == Spend(gateway.replies, start, gateway.served)
      invariant gateway.stats.cost == old(gateway.stats.cost) + cost
      invariant attempt == 2 ==>
        gateway.replies(start).Response? && parse(L.Joined(gateway.replies(start).content)).None?
      invariant attempt <= 2
    {
      var reply := gateway.Chat(JUDGE);
      if !reply.Response? {
        return GradeRaised(gateway.served);
      }
      cost := cost + reply.cost;
      var score := parse(L.Joined(reply.content));
      if score.Some? || attempt == 2 {
        return Graded(score, cost, gateway.served);
      }
    }
    assert false;
  }

  lemma SpendOfTwo(replies: Script, start: nat)
    ensures Spend(replies, start, start) == 0.0
    ensures Spend(replies, start, start + 1) == Billed(replies(start))
    ensures Spend(replies, start, start + 2) == Billed(replies(start)) + Billed(replies(start + 1))
  {
  }

  /** A grade costs what its calls were billed, and takes at most two. */
  lemma GradeIsBilled(parse: Parse, replies: Script, start: nat)
    ensures var g := GradeOf(parse, replies, start);
            start < g.end <= start + 2 && (g.Graded? ==> g.cost == Spend(replies, start, g.end))
  {
    SpendOfTwo(replies, start);
  }

  // ----- one turn, with retries -----

  predicate Retryable(turn: L.Turn) {
    turn.Raised? && turn.reply.Refused? && (turn.reply.status == 429 || turn.reply.status >= 500)
  }

  /** `lost` is what the attempts that raised were billed. */
  datatype Attempted = Attempted(turn: L.Turn, end: nat, lost: real)

  function TurnWithRetries(x: Example, s: Setup, i: nat, replies: Script, start: nat, attempt: nat): Attempted
    requires attempt <= MAX_RETRIES
    decreases MAX_RETRIES - attempt
  {
    var turn := L.TurnOf(x.question, replies, s.tools(i, attempt), start, s.maxSteps);
    var end := start + turn.calls;
    if turn.Returned? then Attempted(turn, end, 0.0)
    else if Retryable(turn) && attempt < MAX_RETRIES then
      var rest := TurnWithRetries(x, s, i, replies, end, attempt + 1);
      Attempted(rest.turn, rest.end, Spend(replies, start, end) + rest.lost)
    else Attempted(turn, end, Spend(replies, start, end))
  }

  lemma RetryStep(x: Example, s: Setup, i: nat, replies: Script, start: nat, attempt: nat, turn: L.Turn)
    requires attempt <= MAX_RETRIES && turn == L.TurnOf(x.question, replies, s.tools(i, attempt), start, s.maxSteps)
    ensures TurnWithRetries(x, s, i, replies, start, attempt)
         == var end := start + turn.calls;
            if turn.Returned? then Attempted(turn, end, 0.0)
            else if Retryable(turn) && attempt < MAX_RETRIES then
              var rest := TurnWithRetries(x, s, i, replies, end, attempt + 1);
              Attempted(rest.turn, rest.end, Spend(replies, start, end) + rest.lost)
            else Attempted(turn, end, Spend(replies, start, end))
  {
    hide L.TurnOf, Spend, Retryable;
  }

  method RunWithRetries(x: Example, s: Setup, i: nat, gateway: Service) returns (turn: L.Turn)
    requires gateway.stats.Valid()
    modifies gateway`served, gateway.stats
    ensures gateway.stats.Valid()
    ensures var a := TurnWithRetries(x, s, i, gateway.replies, old(gateway.served), 1);
            turn == a.turn && gateway.served == a.end
    ensures gateway.served >= old(gateway.served)
    ensures gateway.stats.cost == old(gateway.stats.cost) + Spend(gateway.replies, old(gateway.served), gateway.served)
  {
    hide L.TurnOf, Spend, TurnWithRetries;
    ghost var start := gateway.served;
    SpendOfTwo(gateway.replies, start);
    for attempt := 1 to MAX_RETRIES + 1
      invariant attempt <= MAX_RETRIES && gateway.stats.Valid() && gateway.served >= start
      invariant gateway.stats.cost == old(gateway.stats.cost) + Spend(gateway.replies, start, gateway.served)
      invariant var a, b := TurnWithRetries(x, s, i, gateway.replies, start, 1),
                TurnWithRetries(x, s, i, gateway.replies, gateway.served, attempt);
                a.turn == b.turn && a.end == b.end
    {
      ghost var before := gateway.served;
      turn := L.RunTurn(x.question, gateway, s.tools(i, attempt), AGENT, s.maxSteps);
      RetryStep(x, s, i, gateway.replies, before, attempt, turn);
      SpendJoins(gateway.replies, start, before, gateway.served);
      if !Retryable(turn) || attempt == MAX_RETRIES {
        return;
      }
    }
    assert false;
  }

  // ----- one example -----

  function ErrorOf(r: Reply): string {
    match r
    case Lost(_, _, _) => "ReadTimeout"
    case Refused(_) => "HTTPStatusError"
    case Unreachable => "GatewayUnavailableError"
    case Response(_, _, _, _) => "AssertionError"
  }

  function ToRetrieved(): L.RetrievedRef -> Retrieved { (r: L.RetrievedRef) => Retrieved(r.sourcePath, r.callIndex) }

  function Blank(key: string): Outcome {
    Outcome(key, None, None, None, None, 0, 0.0, 0.0, OBSERVED, None, None, false, false, false)
  }

  /** The outcome of a turn, before any judge. */
  function TurnOutcome(x: Example, s: Setup, i: nat, turn: L.Turn): Outcome {
    if turn.Raised? then Blank(x.key).(latency := s.latency(i), error := Some(ErrorOf(turn.reply)))
    else
      var r := turn.result;
      var retrieved := Mapped(ToRetrieved(), r.retrieved);
      var searched := r.retrievalCalls != [];
      Blank(x.key).(
        latency := s.latency(i), cost := r.totalCost, lenTokens := r.finalTokens, truncated := r.truncated,
          searched := searched,
        citation := Some(s.citation(r.answer, r.retrieved)),
        hit := if x.answerable then HitAtK(x.expected, retrieved, s.k, searched) else None,
        anyCallHit := x.answerable && AnyCallHit(x.expected, retrieved),
        hitSource := if x.answerable then OBSERVED else NOT_APPLICABLE)
  }

  /** `lost` is what was billed and is in no outcome. */
  datatype Scoring = Scored(outcome: Outcome, end: nat, lost: real) | JudgeRaised(end: nat)

  function WithVerdict(o: Outcome, faithfulness: Grade, quality: Grade): Outcome
    requires faithfulness.Graded? && quality.Graded?
  {
    o.(faithfulness := faithfulness.score, quality := quality.score,
       judgeParseOk := Some(faithfulness.score.Some? && quality.score.Some?),
       cost := o.cost + (faithfulness.cost + quality.cost))
  }

  function ScoringOf(x: Example, s: Setup, i: nat, replies: Script, start: nat): Scoring {
    var a := TurnWithRetries(x, s, i, replies, start, 1);
    var o := TurnOutcome(x, s, i, a.turn);
    if a.turn.Raised? || s.judge.None? then Scored(o, a.end, a.lost)
    else
      var f := GradeOf(s.judge.value, replies, a.end);
      if f.GradeRaised? then JudgeRaised(f.end)
      else
        var q := GradeOf(s.judge.value, replies, f.end);
        if q.GradeRaised? then JudgeRaised(q.end) else Scored(WithVerdict(o, f, q), q.end, a.lost)
  }

  /** The judge is called outside the `try`: when it raises, so does this. */
  method ScoreExample(x: Example, s: Setup, i: nat, gateway: Service) returns (outcome: Option<Outcome>)
    requires gateway.stats.Valid()
    modifies gateway`served, gateway.stats
    ensures gateway.stats.Valid()
    ensures var r := ScoringOf(x, s, i, gateway.replies, old(gateway.served));
            gateway.served == r.end && outcome == if r.Scored? then Some(r.outcome) else None
    ensures gateway.served >= old(gateway.served)
    ensures gateway.stats.cost == old(gateway.stats.cost) + Spend(gateway.replies, old(gateway.served), gateway.served)
  {
    ghost var start := gateway.served;
    var turn := RunWithRetries(x, s, i, gateway);
    var o := TurnOutcome(x, s, i, turn);
    if turn.Raised? || s.judge.None? {
      return Some(o);
    }
    ghost var end := gateway.served;
    var f := ScoreOnce(s.judge.value, gateway);
    GradeIsBilled(s.judge.value, gateway.replies, end);
    SpendJoins(gateway.replies, start, end, gateway.served);
    if f.GradeRaised? {
      return None;
    }
    end := gateway.served;
    var q := ScoreOnce(s.judge.value, gateway);
    GradeIsBilled(s.judge.value, gateway.replies, end);
    SpendJoins(gateway.replies, start, end, gateway.served);
    if q.GradeRaised? {
      return None;
    }
    return Some(WithVerdict(o, f, q));
  }

  /** Nothing that succeeds goes missing: what an example was billed is what its outcome says it
      cost, plus what its attempts that raised were billed. */
  lemma {:induction false} RetriesAreBilled(x: Example, s: Setup, i: nat, replies: Script, start: nat, attempt: nat)
    requires attempt <= MAX_RETRIES
    ensures var a := TurnWithRetries(x, s, i, replies, start, attempt);
            && start < a.end
            && Spend(replies, start, a.end) == a.lost + (if a.turn.Returned? then a.turn.result.totalCost else 0.0)
            && (Priced(replies) ==> a.lost >= 0.0)
    decreases MAX_RETRIES - attempt
  {
    hide L.TurnOf, Spend, TurnWithRetries;
    var turn := L.TurnOf(x.question, replies, s.tools(i, attempt), start, s.maxSteps);
    RetryStep(x, s, i, replies, start, attempt, turn);
    L.TurnIsBounded(x.question, replies, s.tools(i, attempt), start, s.maxSteps);
    var end := start + turn.calls;
    if Priced(replies) {
      SpendNonNegative(replies, start, end);
    }
    if Retryable(turn) && attempt < MAX_RETRIES {
      RetriesAreBilled(x, s, i, replies, end, attempt + 1);
      SpendJoins(replies, start, end, TurnWithRetries(x, s, i, replies, end, attempt + 1).end);
    }
  }

  lemma ExampleIsBilled(x: Example, s: Setup, i: nat, replies: Script, start: nat)
    ensures var r := ScoringOf(x, s, i, replies, start);
            && start < r.end
            && (r.Scored? ==> Spend(replies, start, r.end) == r.outcome.cost + r.lost)
            && (r.Scored? && Priced(replies) ==> r.lost >= 0.0)
  {
    hide TurnWithRetries, GradeOf, Spend;
    var a := TurnWithRetries(x, s, i, replies, start, 1);
    RetriesAreBilled(x, s, i, replies, start, 1);
    if a.turn.Returned? && s.judge.Some? {
      var f := GradeOf(s.judge.value, replies, a.end);
      GradeIsBilled(s.judge.value, replies, a.end);
      SpendJoins(replies, start, a.end, f.end);
      var q := GradeOf(s.judge.value, replies, f.end);
      GradeIsBilled(s.judge.value, replies, f.end);
      SpendJoins(replies, start, f.end, q.end);
    }
  }

  lemma {:induction false} RetriedTurnSearched(x: Example, s: Setup, i: nat, replies: Script, start: nat, attempt: nat)
    requires attempt <= MAX_RETRIES
    ensures var turn := TurnWithRetries(x, s, i, replies, start, attempt).turn;
            turn.Returned? && turn.result.retrieved != [] ==> turn.result.retrievalCalls != []
    decreases MAX_RETRIES - attempt
  {
    hide L.TurnOf;
    var turn := L.TurnOf(x.question, replies, s.tools(i, attempt), start, s.maxSteps);
    if turn.Returned? {
      L.RetrievalIsAccounted(x.question, replies, s.tools(i, attempt), start, s.maxSteps);
    } else if Retryable(turn) && attempt < MAX_RETRIES {
      RetriedTurnSearched(x, s, i, replies, start + turn.calls, attempt + 1);
    }
  }

  /** Every outcome of an answerable example is one the hit rate family may rely on. */
  lemma ScoredOutcomesAreHonest(x: Example, s: Setup, i: nat, replies: Script, start: nat)
    requires ScoringOf(x, s, i, replies, start).Scored?
    ensures var o := ScoringOf(x, s, i, replies, start).outcome;
            && o.key == x.key
            && (o.error.None? && o.hitSource != NOT_APPLICABLE ==> Honest(o))
  {
    hide TurnWithRetries, GradeOf, HitAtK, AnyCallHit;
    RetriedTurnSearched(x, s, i, replies, start, 1);
    var turn := TurnWithRetries(x, s, i, replies, start, 1).turn;
    if turn.Returned? {
      HitIsUndefinedIffUnsearched(x.expected, Mapped(ToRetrieved(), turn.result.retrieved), s.k,
        turn.result.retrievalCalls != []);
    }
  }

  // ----- a run -----

  /** A run as a whole: its examples, what the gateway will answer from call `start` on, and, poll by
      poll, whether the poll succeeds and what other clients have been billed by then. */
  datatype World = World(
    examples: seq<Example>, setup: Setup, replies: Script, start: nat, base: real, up: nat -> bool, others: nat -> real)

  /** The gateway call example `i` starts with. */
  function Pos(w: World, i: nat): nat
    requires i <= |w.examples|
    decreases i, 0
  {
    if i == 0 then w.start else ResultAt(w, i - 1).end
  }

  function ResultAt(w: World, i: nat): Scoring
    requires i < |w.examples|
    decreases i, 1
  {
    ScoringOf(w.examples[i], w.setup, i, w.replies, Pos(w, i))
  }

  function OutcomesOf(w: World, n: nat): seq<Outcome>
    requires n <= |w.examples|
  {
    if n == 0 then []
    else OutcomesOf(w, n - 1) + if ResultAt(w, n - 1).Scored? then [ResultAt(w, n - 1).outcome] else []
  }

  /** What the gateway has truly billed in all by poll `j`, which follows example `j - 1`. */
  function TotalAt(w: World, j: nat): real
    requires j <= |w.examples|
  {
    w.base + Spend(w.replies, w.start, Pos(w, j)) + w.others(j)
  }

  /** What the poll says: a failed poll says nothing was ever billed. */
  function SeenAt(w: World, j: nat): real
    requires j <= |w.examples|
  {
    if w.up(j) then TotalAt(w, j) else 0.0
  }

  function LatestAt(w: World, j: nat): real
    requires j <= |w.examples|
  {
    Larger(0.0, SeenAt(w, j) - SeenAt(w, 0))
  }

  /** Example `i` ends in a stored row: its judge did not raise, and its key is known. */
  ghost predicate Survives(w: World, golden: map<string, nat>, i: nat)
    requires i < |w.examples|
  {
    ResultAt(w, i).Scored? && w.examples[i].key in golden
  }

  /** The budget stops the run after poll `j`. */
  predicate Crossed(w: World, spent: real, cap: real, j: nat)
    requires j <= |w.examples|
  {
    spent + LatestAt(w, j) > cap
  }

  /** `gateway_total_cost`. */
  method PollCost(gateway: Service, others: real, up: bool) returns (total: real)
    ensures total == if up then gateway.stats.cost + others else 0.0
  {
    total := if up then gateway.stats.cost + others else 0.0;
  }

  datatype RunResult =
    | Finished(run: nat, outcomes: seq<Outcome>, failures: nat, totalCost: real, aborted: bool)
    | Died(run: nat, outcomes: seq<Outcome>)

  function Failures(outcomes: seq<Outcome>): nat {
    if outcomes == [] then 0
    else Failures(outcomes[..|outcomes| - 1]) + if outcomes[|outcomes| - 1].error.Some? then 1 else 0
  }

  function CostsOf(outcomes: seq<Outcome>): seq<real> {
    seq(|outcomes|, i requires 0 <= i < |outcomes| => outcomes[i].cost)
  }

  /** `n` examples were processed, stored and counted, and the budget let each of them be followed
      by another. */
  ghost predicate Processed(w: World, golden: map<string, nat>, outcomes: seq<Outcome>, rows: map<nat, Row>, n: nat)
  {
    && n <= |w.examples|
    && (forall i :: 0 <= i < n ==> Survives(w, golden, i))
    && outcomes == OutcomesOf(w, n) && |outcomes| == n
    && rows == Stored(golden, outcomes)
  }

  lemma ProcessedOneMore(w: World, golden: map<string, nat>, outcomes: seq<Outcome>, rows: map<nat, Row>, n: nat)
    requires Processed(w, golden, outcomes, rows, n) && n < |w.examples| && Survives(w, golden, n)
    ensures var o := ResultAt(w, n).outcome;
            && o.key in golden
            && Processed(w, golden, outcomes + [o], rows[golden[o.key] := Project()(o)], n + 1)
            && Failures(outcomes + [o]) == Failures(outcomes) + if o.error.Some? then 1 else 0
  {
    hide ScoringOf, Project;
    var o := ResultAt(w, n).outcome;
    ScoredOutcomesAreHonest(w.examples[n], w.setup, n, w.replies, Pos(w, n));
    assert (outcomes + [o])[..n] == outcomes;
  }

  lemma NothingProcessed(w: World, golden: map<string, nat>)
    ensures Processed(w, golden, [], map[], 0) && Failures([]) == 0 && Pos(w, 0) == w.start
            && Spend(w.replies, w.start, w.start) == 0.0
  {
  }

  lemma OutcomeKey(w: World, i: nat)
    requires i < |w.examples| && ResultAt(w, i).Scored?
    ensures ResultAt(w, i).outcome.key == w.examples[i].key
  {
    ScoredOutcomesAreHonest(w.examples[i], w.setup, i, w.replies, Pos(w, i));
  }

  /** The first poll, before the first example, sets the baseline. */
  method TakeBaseline(ghost w: World, gateway: Service, budget: BudgetGuard, others: real, up: bool)
    requires budget.baseline == None && others == w.others(0) && up == w.up(0) && gateway.served == w.start
             && gateway.stats.cost == w.base
    modifies budget
    ensures budget.baseline == Some(SeenAt(w, 0)) && budget.latest == LatestAt(w, 0)
  {
    var total := PollCost(gateway, others, up);
    NothingProcessed(w, map[]);
    budget.Observe(total);
  }

  method PollBudget(ghost w: World, index: nat, gateway: Service, budget: BudgetGuard, others: real, up: bool)
      returns (exceeded: bool)
    requires index <= |w.examples| && others == w.others(index) && up == w.up(index)
    requires gateway.stats.cost == w.base + Spend(w.replies, w.start, Pos(w, index))
    requires budget.baseline == Some(SeenAt(w, 0))
    modifies budget
    ensures budget.baseline == Some(SeenAt(w, 0)) && budget.latest == LatestAt(w, index)
    ensures exceeded <==> Crossed(w, budget.ledger.Spent(), budget.cap, index)
  {
    hide Spend, Pos;
    var total := PollCost(gateway, others, up);
    budget.Observe(total);
    exceeded := budget.Check();
  }

  /** Scores one example and commits its row at once. */
  method ProcessExample(ghost w: World, index: nat, examples: seq<Example>, setup: Setup, gateway: Service,
      sink: PostgresSink, run: nat, ghost outcomes: seq<Outcome>)
    returns (outcome: Option<Outcome>)
    requires w.examples == examples && w.setup == setup && w.replies == gateway.replies && index < |examples|
    requires gateway.stats.Valid() && gateway.served == Pos(w, index) && gateway.served >= w.start
    requires gateway.stats.cost == w.base + Spend(w.replies, w.start, gateway.served)
    requires sink.Valid() && run < sink.next && Processed(w, sink.golden, outcomes, RowsOf(sink.rows, run), index)
    modifies gateway`served, gateway.stats, sink`rows
    ensures gateway.stats.Valid() && sink.Valid() && gateway.served >= w.start
    ensures gateway.stats.cost == w.base + Spend(w.replies, w.start, gateway.served)
    ensures forall other :: other != run ==> RowsOf(sink.rows, other) == RowsOf(old(sink.rows), other)
    ensures outcome.Some? <==> Survives(w, sink.golden, index)
    ensures outcome.None? ==> sink.rows == old(sink.rows)
    ensures outcome.Some? ==>
      && gateway.served == Pos(w, index + 1)
      && Processed(w, sink.golden, outcomes + [outcome.value], RowsOf(sink.rows, run), index + 1)
      && Failures(outcomes + [outcome.value]) == Failures(outcomes) + if outcome.value.error.Some? then 1 else 0
  {
    hide ScoringOf, Spend, Processed, Stored, Project, Failures;
    ghost var before := gateway.served;
    outcome := ScoreExample(examples[index], setup, index, gateway);
    SpendJoins(w.replies, w.start, before, gateway.served);
    if outcome.None? {
      return;
    }
    OutcomeKey(w, index);
    var known := sink.WriteResult(run, outcome.value);
    if !known {
      return None;
    }
    ProcessedOneMore(w, sink.golden, outcomes, RowsOf(old(sink.rows), run), index);
  }

  /** What is already spent, and the cap; None without a budget. */
  ghost function LimitOf(budget: BudgetGuard?): Option<(real, real)>
    reads if budget == null then {} else {budget.ledger}
  {
    if budget == null then None else Some((budget.ledger.Spent(), budget.cap))
  }

  /** The budget stops the run after example number `n`, counted from 1. */
  ghost predicate StopsAt(w: World, limit: Option<(real, real)>, n: nat)
    requires n <= |w.examples|
  {
    n > 0 && limit.Some? && Crossed(w, limit.value.0, limit.value.1, n)
  }

  ghost predicate NeverStopsBefore(w: World, limit: Option<(real, real)>, n: nat)
    requires n <= |w.examples|
  {
    forall j :: 0 < j < n ==> !StopsAt(w, limit, j)
  }

  /** What a run must come to: the examples before its end processed and stored in order; the end
      the first at which the budget stops it, or a raise, or the last example; the cost reported
      what the last poll saw. */
  ghost predicate AsSpecified(w: World, limit: Option<(real, real)>, golden: map<string, nat>, r: RunResult,
      rows: map<nat, Row>) {
    var n := |r.outcomes|;
    && Processed(w, golden, r.outcomes, rows, n)
    && NeverStopsBefore(w, limit, n)
    && match r
       case Finished(_, outcomes, failures, totalCost, aborted) =>
         && (aborted <==> StopsAt(w, limit, n))
         && (aborted || n == |w.examples|)
         && totalCost == (if limit.Some? then LatestAt(w, n) else Sum(CostsOf(outcomes)))
         && failures == Failures(outcomes)
       case Died(_, _) => n < |w.examples| && !StopsAt(w, limit, n) && !Survives(w, golden, n)
  }

  lemma RunFinished(w: World, limit: Option<(real, real)>, golden: map<string, nat>, r: RunResult, rows: map<nat, Row>)
    requires r.Finished? && Processed(w, golden, r.outcomes, rows, |r.outcomes|)
             && NeverStopsBefore(w, limit, |r.outcomes|)
    requires (r.aborted <==> StopsAt(w, limit, |r.outcomes|)) && (r.aborted || |r.outcomes| == |w.examples|)
    requires r.totalCost == (if limit.Some? then LatestAt(w, |r.outcomes|) else Sum(CostsOf(r.outcomes)))
             && r.failures == Failures(r.outcomes)
    ensures AsSpecified(w, limit, golden, r, rows)
  {
    hide Processed, NeverStopsBefore, StopsAt, LatestAt, Failures, Sum;
  }

  lemma RunDied(w: World, limit: Option<(real, real)>, golden: map<string, nat>, r: RunResult, rows: map<nat, Row>)
    requires r.Died? && Processed(w, golden, r.outcomes, rows, |r.outcomes|) && NeverStopsBefore(w, limit, |r.outcomes|)
    requires |r.outcomes| < |w.examples| && !StopsAt(w, limit, |r.outcomes|) && !Survives(w, golden, |r.outcomes|)
    ensures AsSpecified(w, limit, golden, r, rows)
  {
    hide Processed, NeverStopsBefore, StopsAt, Survives;
  }

  lemma NotStopped(w: World, limit: Option<(real, real)>, n: nat)
    requires n < |w.examples| && NeverStopsBefore(w, limit, n) && !StopsAt(w, limit, n)
    ensures NeverStopsBefore(w, limit, n + 1)
  {
    hide StopsAt;
  }

  /** With no poll taken yet, nothing stops the run. */
  lemma NothingStops(w: World, limit: Option<(real, real)>)
    ensures NeverStopsBefore(w, limit, 0) && !StopsAt(w, limit, 0)
  {
  }

  /** The loop over the examples: `died` when a judge or the store raised. */
  method RunExamples(
      ghost w: World, examples: seq<Example>, setup: Setup, gateway: Service, sink: PostgresSink, run: nat,
      budget: BudgetGuard?,
      up: nat -> bool, others: nat -> real)
    returns (outcomes: seq<Outcome>, failures: nat, aborted: bool, died: bool)
    requires w == World(examples, setup, gateway.replies, gateway.served, gateway.stats.cost, up, others)
    requires gateway.stats.Valid() && sink.Valid() && run < sink.next && RowsOf(sink.rows, run) == map[]
    requires budget != null ==> budget.baseline == Some(SeenAt(w, 0)) && budget.latest == LatestAt(w, 0)
    modifies gateway`served, gateway.stats, sink`rows, budget
    ensures gateway.stats.Valid() && sink.Valid()
    ensures forall other :: other != run ==> RowsOf(sink.rows, other) == RowsOf(old(sink.rows), other)
    ensures var n := |outcomes|;
            && Processed(w, sink.golden, outcomes, RowsOf(sink.rows, run), n)
            && NeverStopsBefore(w, LimitOf(budget), n) && (aborted <==> StopsAt(w, LimitOf(budget), n))
            && failures == Failures(outcomes)
            && (budget != null ==> budget.latest == LatestAt(w, n))
            && (if died then n < |examples| && !aborted && !Survives(w, sink.golden, n) else aborted || n == |examples|)
  {
    ghost var limit := LimitOf(budget);
    hide ScoringOf, Spend, Processed, Stored, LatestAt, SeenAt, Crossed, Failures, Survives, AsSpecified,
         NeverStopsBefore, StopsAt, Sum, LimitOf, Pos, RowsOf, PostgresSink.Valid, GatewayStats.Valid, Ledger.Spent;
    outcomes, failures, aborted, died := [], 0, false, false;
    NothingProcessed(w, sink.golden);
    NothingStops(w, limit);
    var index := 0;
    while index < |examples| && !aborted
      invariant 0 <= index <= |examples| && |outcomes| == index
      invariant gateway.stats.Valid() && sink.Valid()
      invariant gateway.served == Pos(w, index) && gateway.served >= w.start
      invariant gateway.stats.cost == w.base + Spend(w.replies, w.start, gateway.served)
      invariant forall other :: other != run ==> RowsOf(sink.rows, other) == RowsOf(old(sink.rows), other)
      invariant Processed(w, sink.golden, outcomes, RowsOf(sink.rows, run), index) && failures == Failures(outcomes)
      invariant budget != null ==> budget.baseline == Some(SeenAt(w, 0)) && budget.latest == LatestAt(w, index)
      invariant NeverStopsBefore(w, limit, index) && (aborted <==> StopsAt(w, limit, index))
      decreases |examples| - index, !aborted
    {
      var outcome := ProcessExample(w, index, examples, setup, gateway, sink, run, outcomes);
      if outcome.None? {
        died := true;
        return;
      }
      NotStopped(w, limit, index);
      outcomes := outcomes + [outcome.value];
      failures := failures + if outcome.value.error.Some? then 1 else 0;
      index := index + 1;
      if budget != null {
        aborted := PollBudget(w, index, gateway, budget, others(index), up(index));
      }
      StopRead(w, budget, index);
    }
  }

  method RunEval(
      examples: seq<Example>, setup: Setup, gateway: Service, sink: PostgresSink, budget: BudgetGuard?,
      up: nat -> bool, others: nat -> real)
    returns (r: RunResult)
    requires gateway.stats.Valid() && sink.Valid()
    requires budget != null ==> budget.baseline == None
    modifies gateway`served, gateway.stats, sink`next, sink`rows, sink`finished, budget
    ensures gateway.stats.Valid() && sink.Valid() && r.run !in old(sink.rows)
    ensures forall run :: run != r.run ==> RowsOf(sink.rows, run) == RowsOf(old(sink.rows), run)
    ensures sink.finished == if r.Finished? then old(sink.finished)[r.run := r.totalCost] else old(sink.finished)
    ensures var w := World(examples, setup, gateway.replies, old(gateway.served), old(gateway.stats.cost), up, others);
            |r.outcomes| <= |examples| && (budget != null ==> budget.latest == LatestAt(w, |r.outcomes|))
    ensures AsSpecified(World(examples, setup, gateway.replies, old(gateway.served), old(gateway.stats.cost), up,
            others),
                        LimitOf(budget), sink.golden, r, RowsOf(sink.rows, r.run))
  {
    ghost var w := World(examples, setup, gateway.replies, gateway.served, gateway.stats.cost, up, others);
    hide ScoringOf, Spend, Processed, Stored, LatestAt, SeenAt, Crossed, Failures, Survives, AsSpecified,
         NeverStopsBefore, StopsAt, Sum, LimitOf, Pos, GatewayStats.Valid, Ledger.Spent;
    var run := sink.CreateRun();
    if budget != null {
      TakeBaseline(w, gateway, budget, others(0), up(0));
    }
    var outcomes, failures, aborted, died := RunExamples(w, examples, setup, gateway, sink, run, budget, up, others);
    StopRead(w, budget, |outcomes|);
    if died {
      r := Died(run, outcomes);
      RunDied(w, LimitOf(budget), sink.golden, r, RowsOf(sink.rows, run));
      return;
    }
    var totalCost := if budget != null then budget.latest else Sum(CostsOf(outcomes));
    sink.FinishRun(run, totalCost);
    r := Finished(run, outcomes, failures, totalCost, aborted);
    RunFinished(w, LimitOf(budget), sink.golden, r, RowsOf(sink.rows, run));
  }

  lemma StopRead(w: World, budget: BudgetGuard?, n: nat)
    requires n <= |w.examples|
    ensures StopsAt(w, LimitOf(budget), n)
       <==> n > 0 && budget != null && Crossed(w, budget.ledger.Spent(), budget.cap, n)
    ensures LimitOf(budget).Some? <==> budget != null
  {
  }

  // ----- money -----

  /** What the first `n` examples were billed that is in no outcome. */
  function LostBy(w: World, n: nat): real
    requires n <= |w.examples|
  {
    if n == 0 then 0.0 else LostBy(w, n - 1) + if ResultAt(w, n - 1).Scored? then ResultAt(w, n - 1).lost else 0.0
  }

  lemma CostsGrow(outcomes: seq<Outcome>, o: Outcome)
    ensures Sum(CostsOf(outcomes + [o])) == Sum(CostsOf(outcomes)) + o.cost
  {
    SumConcat(CostsOf(outcomes), [o.cost]);
    assert CostsOf(outcomes + [o]) == CostsOf(outcomes) + [o.cost];
    assert Sum([o.cost]) == o.cost;
  }

  lemma PositionStep(w: World, i: nat)
    requires i < |w.examples|
    ensures Pos(w, i) < Pos(w, i + 1) == ResultAt(w, i).end
    ensures ResultAt(w, i) == ScoringOf(w.examples[i], w.setup, i, w.replies, Pos(w, i))
  {
    hide ScoringOf;
    ExampleIsBilled(w.examples[i], w.setup, i, w.replies, Pos(w, i));
  }

  lemma {:induction false} ExamplesAreBilled(w: World, n: nat)
    requires n <= |w.examples| && forall i :: 0 <= i < n ==> ResultAt(w, i).Scored?
    ensures w.start <= Pos(w, n)
    ensures Spend(w.replies, w.start, Pos(w, n)) == Sum(CostsOf(OutcomesOf(w, n))) + LostBy(w, n)
    ensures Priced(w.replies) ==> LostBy(w, n) >= 0.0
  {
    hide Spend, Sum, CostsOf, ScoringOf, Priced;
    if n == 0 {
      NothingBilled(w);
    } else {
      ExamplesAreBilled(w, n - 1);
      ExampleIsBilled(w.examples[n - 1], w.setup, n - 1, w.replies, Pos(w, n - 1));
      PositionStep(w, n - 1);
      SpendJoins(w.replies, w.start, Pos(w, n - 1), Pos(w, n));
      CostsGrow(OutcomesOf(w, n - 1), ResultAt(w, n - 1).outcome);
    }
  }

  lemma NothingBilled(w: World)
    ensures Spend(w.replies, w.start, w.start) == 0.0 && Sum(CostsOf([])) == 0.0
  {
  }

  /** The first attempt at example `i` returned. */
  ghost predicate FirstTurnReturned(w: World, i: nat)
    requires i < |w.examples|
  {
    L.TurnOf(w.examples[i].question, w.replies, w.setup.tools(i, 1), Pos(w, i), w.setup.maxSteps).Returned?
  }

  /** Where no turn failed or was retried, nothing was lost. */
  lemma {:induction false} UntroubledRunsLoseNothing(w: World, n: nat)
    requires n <= |w.examples| && forall i :: 0 <= i < n ==> FirstTurnReturned(w, i)
    ensures LostBy(w, n) == 0.0
  {
    hide ScoringOf, FirstTurnReturned;
    if n > 0 {
      UntroubledRunsLoseNothing(w, n - 1);
      assert FirstTurnReturned(w, n - 1);
      UntroubledStep(w, n - 1);
    }
  }

  lemma UntroubledStep(w: World, i: nat)
    requires i < |w.examples| && FirstTurnReturned(w, i)
    ensures ResultAt(w, i).Scored? ==> ResultAt(w, i).lost == 0.0
  {
    hide L.TurnOf, ScoringOf, LostBy;
    UntroubledExample(w.examples[i], w.setup, i, w.replies, Pos(w, i));
    PositionStep(w, i);
  }

  lemma UntroubledExample(x: Example, s: Setup, i: nat, replies: Script, start: nat)
    requires L.TurnOf(x.question, replies, s.tools(i, 1), start, s.maxSteps).Returned?
    ensures ScoringOf(x, s, i, replies, start).Scored? ==> ScoringOf(x, s, i, replies, start).lost == 0.0
  {
    hide L.TurnOf, GradeOf;
  }

  /** No client is ever billed less than before. */
  ghost predicate Climbing(w: World) {
    Priced(w.replies) && forall i, j :: 0 <= i <= j ==> w.others(i) <= w.others(j)
  }

  /** Every poll succeeds, too. */
  ghost predicate Reliable(w: World) {
    Climbing(w) && forall j :: w.up(j)
  }

  lemma {:induction false} TotalsClimb(w: World, i: nat, j: nat)
    requires Climbing(w) && i <= j <= |w.examples| && forall k :: 0 <= k < j ==> ResultAt(w, k).Scored?
    ensures TotalAt(w, i) <= TotalAt(w, j)
  {
    hide ScoringOf;
    ExamplesAreBilled(w, i);
    PositionsClimb(w, i, j);
    SpendJoins(w.replies, w.start, Pos(w, i), Pos(w, j));
    SpendNonNegative(w.replies, Pos(w, i), Pos(w, j));
    assert w.others(i) <= w.others(j);
  }

  lemma {:induction false} PositionsClimb(w: World, i: nat, j: nat)
    requires i <= j <= |w.examples|
    ensures Pos(w, i) <= Pos(w, j)
    decreases j
  {
    hide ScoringOf;
    if i < j {
      PositionsClimb(w, i, j - 1);
      PositionStep(w, j - 1);
    }
  }

  /** With reliable polls, what the guard sees is what was billed since the baseline. */
  lemma ReliableLatest(w: World, n: nat)
    requires Reliable(w) && n <= |w.examples| && forall k :: 0 <= k < n ==> ResultAt(w, k).Scored?
    ensures LatestAt(w, n) == TotalAt(w, n) - TotalAt(w, 0)
  {
    hide TotalAt;
    TotalsClimb(w, 0, n);
    assert w.up(0) && w.up(n);
  }

  lemma SurvivorsAreScored(w: World, golden: map<string, nat>, outcomes: seq<Outcome>, rows: map<nat, Row>, n: nat)
    requires Processed(w, golden, outcomes, rows, n)
    ensures forall i :: 0 <= i < n ==> ResultAt(w, i).Scored?
  {
    forall i | 0 <= i < n
      ensures ResultAt(w, i).Scored?
    {
      assert Survives(w, golden, i);
    }
  }

  /** The cap is overshot by less than was billed between the last two polls: the last example, its
      raising attempts and other clients meanwhile. Before the last example, ledger and run were still
      within the cap. A run that was not aborted ends within it. */
  lemma CapIsOvershotByOneExample(w: World, spent: real, cap: real, golden: map<string, nat>, r: RunResult,
      rows: map<nat, Row>)
    requires Reliable(w) && spent <= cap && r.Finished? && AsSpecified(w, Some((spent, cap)), golden, r, rows)
    ensures var n := |r.outcomes|;
            && n <= |w.examples|
            && r.totalCost == TotalAt(w, n) - TotalAt(w, 0)
            && (n > 0 ==> spent + r.totalCost <= cap + BilledBetween(w, r.outcomes, n))
            && (r.aborted <==> spent + r.totalCost > cap)
  {
    hide ScoringOf, TotalAt, BilledBetween, Reliable, Survives, Stored, OutcomesOf, Failures, LatestAt;
    hide Pos, Sum;
    var n := |r.outcomes|;
    SurvivorsAreScored(w, golden, r.outcomes, rows, n);
    ReliableLatest(w, n);
    if n > 0 {
      ReliableLatest(w, n - 1);
      PollsDiffer(w, golden, r.outcomes, rows, n);
      if n > 1 {
        assert !StopsAt(w, Some((spent, cap)), n - 1);
      }
    }
  }

  lemma PollsDiffer(w: World, golden: map<string, nat>, outcomes: seq<Outcome>, rows: map<nat, Row>, n: nat)
    requires 0 < n && Processed(w, golden, outcomes, rows, n)
    ensures TotalAt(w, n) - TotalAt(w, n - 1) == BilledBetween(w, outcomes, n)
  {
    hide ScoringOf, Spend;
    assert Survives(w, golden, n - 1);
    forall i | 0 <= i < n - 1
      ensures ResultAt(w, i).Scored?
    {
      assert Survives(w, golden, i);
    }
    hide Processed, Stored;
    ExamplesAreBilled(w, n - 1);
    PositionStep(w, n - 1);
    ExampleIsBilled(w.examples[n - 1], w.setup, n - 1, w.replies, Pos(w, n - 1));
    SpendJoins(w.replies, w.start, Pos(w, n - 1), Pos(w, n));
  }

  /** What was billed between the polls around example number `n`, counted from 1. */
  function BilledBetween(w: World, outcomes: seq<Outcome>, n: nat): real
    requires 0 < n <= |w.examples| && n <= |outcomes|
  {
    outcomes[n - 1].cost + (LostBy(w, n) - LostBy(w, n - 1)) + (w.others(n) - w.others(n - 1))
  }

  /** What a run cost is at least what its rows say their examples cost; and exactly that when
      nothing went missing: no attempt that raised was billed, and no other client was. */
  lemma RunCostCoversItsRows(w: World, spent: real, cap: real, golden: map<string, nat>, r: RunResult,
      rows: map<nat, Row>)
    requires Reliable(w) && r.Finished? && AsSpecified(w, Some((spent, cap)), golden, r, rows)
    ensures var n := |r.outcomes|;
            var others := w.others(n) - w.others(0);
            && n <= |w.examples|
            && r.totalCost == Sum(CostsOf(r.outcomes)) + LostBy(w, n) + others
            && LostBy(w, n) >= 0.0 && others >= 0.0
            && (r.totalCost == Sum(CostsOf(r.outcomes)) <==> LostBy(w, n) == 0.0 && others == 0.0)
  {
    hide ScoringOf, Priced, Sum, CostsOf, LostBy;
    var n := |r.outcomes|;
    SurvivorsAreScored(w, golden, r.outcomes, rows, n);
    ReliableLatest(w, n);
    ExamplesAreBilled(w, n);
    NothingBilled(w);
    assert w.others(0) <= w.others(n);
  }

  /** Exactly when the guard sees the truth: the last poll succeeded over a true baseline, or there
      was nothing to see. A failed poll counts as nothing ever billed: at the end of a run it hides
      the whole run, and as the baseline it charges the run for all earlier traffic. */
  lemma GuardSeesTheTruthIff(w: World, n: nat)
    requires n <= |w.examples| && 0.0 <= TotalAt(w, 0) <= TotalAt(w, n)
    ensures LatestAt(w, n) == TotalAt(w, n) - TotalAt(w, 0)
       <==> if w.up(n) then w.up(0) || TotalAt(w, 0) == 0.0 else TotalAt(w, n) == TotalAt(w, 0)
    ensures !w.up(n) ==> LatestAt(w, n) == 0.0
  {
    hide TotalAt;
  }

  /** What failed polls cost. Whatever polls fail: a run is aborted exactly if its last poll succeeded
      and, from the baseline poll as it saw things, truly took it past the cap. And from any earlier
      poll that succeeded, over a baseline poll that did, the cap is overshot by at most what was
      billed since. */
  lemma FailedPollsWidenTheOvershoot(w: World, spent: real, cap: real, golden: map<string, nat>, r: RunResult,
      rows: map<nat, Row>, m: nat)
    requires Climbing(w) && 0.0 <= TotalAt(w, 0)
    requires spent <= cap && r.Finished? && AsSpecified(w, Some((spent, cap)), golden, r, rows)
    ensures var n := |r.outcomes|;
            && n <= |w.examples|
            && (r.aborted <==> n > 0 && w.up(n) && spent + TotalAt(w, n) - SeenAt(w, 0) > cap)
            && (m < n && w.up(m) && w.up(0) ==>
                  spent + (TotalAt(w, n) - TotalAt(w, 0)) <= cap + (TotalAt(w, n) - TotalAt(w, m)))
  {
    hide ScoringOf, TotalAt, Climbing;
    var n := |r.outcomes|;
    SurvivorsAreScored(w, golden, r.outcomes, rows, n);
    TotalsClimb(w, 0, n);
    if m < n {
      TotalsClimb(w, 0, m);
      if m > 0 {
        assert !StopsAt(w, Some((spent, cap)), m);
      }
    }
  }

  // ----- how a run ends -----

  /** A run ends without a summary exactly at the first example whose judge raises or whose key is
      not loaded, if the budget lets it get there; the rows before it are all committed. */
  lemma RunDiesAtTheFirstRaise(w: World, limit: Option<(real, real)>, golden: map<string, nat>, r: RunResult,
      rows: map<nat, Row>)
    requires AsSpecified(w, limit, golden, r, rows)
    ensures var n := |r.outcomes|;
            && n <= |w.examples|
            && (forall i :: 0 <= i < n ==> ResultAt(w, i).Scored? && w.examples[i].key in golden)
            && (r.Died? <==>
                  && n < |w.examples| && !StopsAt(w, limit, n)
                  && (ResultAt(w, n).JudgeRaised? || w.examples[n].key !in golden))
  {
    hide ScoringOf, StopsAt, Stored, OutcomesOf, LatestAt;
    var n := |r.outcomes|;
    forall i | 0 <= i < n
      ensures ResultAt(w, i).Scored? && w.examples[i].key in golden
    {
      assert Survives(w, golden, i);
    }
  }

  // ----- the rows -----

  lemma {:induction false} OutcomeAt(w: World, n: nat, i: nat)
    requires n <= |w.examples| && i < n && forall j :: 0 <= j < n ==> ResultAt(w, j).Scored?
    ensures |OutcomesOf(w, n)| == n && OutcomesOf(w, n)[i] == ResultAt(w, i).outcome
  {
    hide ScoringOf;
    if i < n - 1 {
      OutcomeAt(w, n - 1, i);
    } else if n > 1 {
      OutcomeAt(w, n - 1, 0);
    }
  }

  lemma OutcomesKeepTheirKeys(w: World, limit: Option<(real, real)>, golden: map<string, nat>, r: RunResult,
      rows: map<nat, Row>)
    requires AsSpecified(w, limit, golden, r, rows)
    ensures |r.outcomes| <= |w.examples|
    ensures forall i :: 0 <= i < |r.outcomes| ==>
      && r.outcomes[i].key == w.examples[i].key
      && (r.outcomes[i].error.None? && r.outcomes[i].hitSource != NOT_APPLICABLE ==> Honest(r.outcomes[i]))
  {
    hide ScoringOf, StopsAt, Stored, OutcomesOf, LatestAt, Honest;
    var n := |r.outcomes|;
    SurvivorsAreScored(w, golden, r.outcomes, rows, n);
    forall i | 0 <= i < n
      ensures r.outcomes[i].key == w.examples[i].key
      ensures r.outcomes[i].error.None? && r.outcomes[i].hitSource != NOT_APPLICABLE ==> Honest(r.outcomes[i])
    {
      OutcomeAt(w, n, i);
      ScoredOutcomesAreHonest(w.examples[i], w.setup, i, w.replies, Pos(w, i));
    }
  }

  /** In every run, whatever the model, the tools and the gateway did: the hit rate is the hit rate
      given a search times the search rate, and is never above the rate of hits by any call. */
  lemma HitRatesOfARunFactor(w: World, limit: Option<(real, real)>, golden: map<string, nat>, r: RunResult,
      rows: map<nat, Row>)
    requires AsSpecified(w, limit, golden, r, rows)
    ensures var m := MetricsOf(r.outcomes);
            m.hitAt5.Some? ==>
              && m.searchRate.Some? && m.anyCallHitRate.Some?
              && m.hitAt5.value <= m.anyCallHitRate.value
              && m.hitAt5.value == if m.hitAt5GivenSearch.None? then 0.0
                 else m.hitAt5GivenSearch.value * m.searchRate.value
  {
    hide *;
    OutcomesKeepTheirKeys(w, limit, golden, r, rows);
    HitRatesFactor(r.outcomes);
  }

  ghost predicate DistinctExamples(examples: seq<Example>) {
    forall i, j :: 0 <= i < j < |examples| ==> examples[i].key != examples[j].key
  }

  /** Gating the rows of a run reports what the run reported, for every metric both compute and in
      any order of rows, when the examples have distinct keys. */
  lemma GateReportsTheRun(
      w: World, limit: Option<(real, real)>, golden: map<string, nat>, r: RunResult, table: map<nat, Row>,
        ids: seq<nat>, rows: seq<Row>)
    requires AsSpecified(w, limit, golden, r, table) && DistinctExamples(w.examples) && Injective(golden)
    requires Selected(table, ids, rows)
    ensures SameButCost(MetricsFromRows(rows), MetricsOf(r.outcomes)) && |rows| == |r.outcomes|
  {
    hide ScoringOf, StopsAt, Stored, OutcomesOf, LatestAt, MetricsOf, MetricsFromRows, SameButCost, Selected, Honest;
    OutcomesKeepTheirKeys(w, limit, golden, r, table);
    RunDiesAtTheFirstRaise(w, limit, golden, r, table);
    StoredRunAgrees(golden, r.outcomes, ids, rows);
    RowsAreTheOutcomes(golden, r.outcomes, ids, rows);
    BagSize(rows, Mapped(Project(), r.outcomes));
  }

  // ----- whole prices -----

  /** Every call is billed a whole number of millionths of a dollar. */
  ghost predicate WholePriced(replies: Script) { forall n: nat :: WholeMicros(Billed(replies(n))) }

  lemma WholeSum(x: real, y: real)
    requires WholeMicros(x) && WholeMicros(y)
    ensures WholeMicros(x + y)
  {
    var a, b := (x * MICRO).Floor, (y * MICRO).Floor;
    assert (x + y) * MICRO == (a + b) as real;
  }

  lemma {:induction false} WholeSpend(replies: Script, a: nat, b: nat)
    requires WholePriced(replies)
    ensures WholeMicros(Spend(replies, a, b))
    decreases b
  {
    hide Billed, WholeMicros;
    if a >= b {
      NothingIsWhole();
    } else {
      WholeSpend(replies, a, b - 1);
      WholeSum(Spend(replies, a, b - 1), Billed(replies(b - 1)));
    }
  }

  lemma NothingIsWhole()
    ensures WholeMicros(0.0)
  {
  }

  lemma {:induction false} WholeTurn(x: Example, s: Setup, i: nat, replies: Script, start: nat, attempt: nat)
    requires WholePriced(replies) && attempt <= MAX_RETRIES
    ensures var turn := TurnWithRetries(x, s, i, replies, start, attempt).turn;
            turn.Returned? ==> WholeMicros(turn.result.totalCost)
    decreases MAX_RETRIES - attempt
  {
    hide L.TurnOf, Spend, TurnWithRetries, WholePriced, WholeMicros;
    var turn := L.TurnOf(x.question, replies, s.tools(i, attempt), start, s.maxSteps);
    RetryStep(x, s, i, replies, start, attempt, turn);
    L.TurnIsBounded(x.question, replies, s.tools(i, attempt), start, s.maxSteps);
    WholeSpend(replies, start, start + turn.calls);
    if !turn.Returned? && Retryable(turn) && attempt < MAX_RETRIES {
      WholeTurn(x, s, i, replies, start + turn.calls, attempt + 1);
    }
  }

  lemma WholeGrade(parse: Parse, replies: Script, start: nat)
    requires WholePriced(replies)
    ensures var g := GradeOf(parse, replies, start); g.Graded? ==> WholeMicros(g.cost)
  {
    hide GradeOf, WholePriced, WholeMicros, Spend;
    GradeIsBilled(parse, replies, start);
    WholeSpend(replies, start, GradeOf(parse, replies, start).end);
  }

  lemma WholeOutcome(x: Example, s: Setup, i: nat, replies: Script, start: nat)
    requires WholePriced(replies)
    ensures var r := ScoringOf(x, s, i, replies, start); r.Scored? ==> WholeMicros(r.outcome.cost)
  {
    hide TurnWithRetries, GradeOf, WholePriced, WholeMicros;
    var a := TurnWithRetries(x, s, i, replies, start, 1);
    WholeTurn(x, s, i, replies, start, 1);
    NothingIsWhole();
    if a.turn.Returned? && s.judge.Some? {
      var f := GradeOf(s.judge.value, replies, a.end);
      WholeGrade(s.judge.value, replies, a.end);
      if f.Graded? {
        var q := GradeOf(s.judge.value, replies, f.end);
        WholeGrade(s.judge.value, replies, f.end);
        if q.Graded? {
          WholeSum(f.cost, q.cost);
          WholeSum(a.turn.result.totalCost, f.cost + q.cost);
        }
      }
    }
  }

  lemma OutcomesAreWhole(w: World, limit: Option<(real, real)>, golden: map<string, nat>, r: RunResult,
      rows: map<nat, Row>)
    requires AsSpecified(w, limit, golden, r, rows) && WholePriced(w.replies)
    ensures forall i :: 0 <= i < |r.outcomes| ==> WholeMicros(r.outcomes[i].cost)
  {
    hide ScoringOf, StopsAt, Stored, OutcomesOf, LatestAt, WholeMicros, WholePriced;
    var n := |r.outcomes|;
    SurvivorsAreScored(w, golden, r.outcomes, rows, n);
    forall i | 0 <= i < n
      ensures WholeMicros(r.outcomes[i].cost)
    {
      OutcomeAt(w, n, i);
      WholeOutcome(w.examples[i], w.setup, i, w.replies, Pos(w, i));
    }
  }

  /** With prices in whole dollars per million tokens, gating the rows of a run reports the run's own
      mean cost too. */
  lemma WholePricedRunKeepsItsMean(
      w: World, limit: Option<(real, real)>, golden: map<string, nat>, r: RunResult, table: map<nat, Row>,
      ids: seq<nat>, rows: seq<Row>)
    requires AsSpecified(w, limit, golden, r, table) && DistinctExamples(w.examples) && Injective(golden)
    requires Selected(table, ids, rows) && WholePriced(w.replies)
    ensures MetricsFromRows(rows).meanCost == MetricsOf(r.outcomes).meanCost
  {
    hide ScoringOf, StopsAt, Stored, OutcomesOf, LatestAt, MetricsOf, MetricsFromRows, Selected, Honest, WholeMicros,
         WholePriced;
    OutcomesKeepTheirKeys(w, limit, golden, r, table);
    RunDiesAtTheFirstRaise(w, limit, golden, r, table);
    OutcomesAreWhole(w, limit, golden, r, table);
    WholeCostsAgree(golden, r.outcomes, ids, rows);
  }
}
