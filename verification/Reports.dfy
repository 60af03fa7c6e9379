/** What events say of their blocks, and a trace's totals of its steps (services/sdk/telemetry.py). */
module Reports {
  import opened Wrappers
  import opened Aggregates
  import opened Rounding
  import opened Telemetry
  import opened ContextMachine
  import opened TraceTree
  import opened TraceForest
  import opened TraceProtocol
  import opened TraceShape

  /** An event of a span of this kind and time, whose body left these notes, and raised or not. */
  ghost predicate Says(e: Event, kind: EventType, ts: int, notes: Notes, raised: bool) {
    && e.kind == kind && e.ts == ts && e.cost == notes.cost
    && e.promptTokens == notes.promptTokens && e.completionTokens == notes.completionTokens
    && (e.status == "error" <==> raised || notes.status == Some("error"))
    && (!raised && notes.status.Some? ==> e.status == notes.status.value)
    && (!raised && notes.status.None? ==> e.status == "ok")
  }

  // ----- programs -----

  /** A span block that ran, whether its body raised, and the session named by the innermost session
      block around it, if one is named. */
  datatype Ran = Ran(block: Block, raised: bool, session: Option<Id>)

  predicate Raises(blocks: seq<Block>)
    decreases blocks, 1
  {
    blocks != [] && (BlockRaises(blocks[0]) || Raises(blocks[1..]))
  }

  predicate BlockRaises(b: Block)
    decreases b, 0
  {
    match b
    case Raise => true
    case Guard(_) => false
    case InSession(_, inner) => Raises(inner)
    case InSpan(_, _, _, _, _, inner) => Raises(inner)
  }

  /** The span blocks that run, in the order in which they close. */
  function SpansRun(blocks: seq<Block>, session: Option<Id>): seq<Ran>
    decreases blocks, 1
  {
    if blocks == [] then []
    else SpansRunBy(blocks[0], session) + if BlockRaises(blocks[0]) then [] else SpansRun(blocks[1..], session)
  }

  function SpansRunBy(b: Block, session: Option<Id>): seq<Ran>
    decreases b, 0
  {
    match b
    case Raise => []
    case Guard(inner) => SpansRun(inner, session)
    case InSession(sid, inner) => SpansRun(inner, if Truthy(sid) then sid else None)
    case InSpan(_, _, _, _, _, inner) => SpansRun(inner, session) + [Ran(b, Raises(inner), session)]
  }

  /** One event for each span block that ran, in closing order, saying what the block says. */
  ghost predicate Tell(events: seq<Event>, ran: seq<Ran>) {
    && |events| == |ran|
    && forall i :: 0 <= i < |ran| ==>
         var b := ran[i].block;
         && b.InSpan? && Says(events[i], b.kind, b.ts, b.notes, ran[i].raised)
         && (ran[i].session.Some? ==> events[i].session == ran[i].session.value)
  }

  lemma TellJoin(xs: seq<Event>, rs: seq<Ran>, ys: seq<Event>, ss: seq<Ran>)
    requires Tell(xs, rs) && Tell(ys, ss)
    ensures Tell(xs + ys, rs + ss)
  {
    hide Says;
  }

  /** For every program: it raises exactly if some block raises past every guard, and the events it
      emits tell, in closing order, exactly the span blocks that ran. */
  lemma {:induction false} EventsTellTheirBlocks(blocks: seq<Block>, scope: Vars, next: Id, session: Option<Id>)
    requires session.Some? ==> scope.session == session
    ensures var out := Lexical(blocks, scope, next);
            out.raised == Raises(blocks) && Tell(out.events, SpansRun(blocks, session))
    decreases blocks, 1
  {
    hide Tell;
    if blocks == [] {
      NothingTold();
    } else {
      var first := LexicalBlock(blocks[0], scope, next);
      EventsTellBlock(blocks[0], scope, next, session);
      if first.raised {
        assert SpansRunBy(blocks[0], session) + [] == SpansRunBy(blocks[0], session);
      } else {
        EventsTellTheirBlocks(blocks[1..], scope, first.next, session);
        TellJoin(first.events, SpansRunBy(blocks[0], session), Lexical(blocks[1..], scope, first.next).events,
          SpansRun(blocks[1..], session));
      }
    }
  }

  lemma NothingTold()
    ensures Tell([], [])
  {
  }

  lemma {:induction false} EventsTellBlock(b: Block, scope: Vars, next: Id, session: Option<Id>)
    requires session.Some? ==> scope.session == session
    ensures var out := LexicalBlock(b, scope, next);
            out.raised == BlockRaises(b) && Tell(out.events, SpansRunBy(b, session))
    decreases b, 0
  {
    hide Tell;
    match b
    case Raise => NothingTold();
    case Guard(inner) => EventsTellTheirBlocks(inner, scope, next, session);
    case InSession(sid, inner) =>
      var (inside, next') := OpenSession(sid, next);
      EventsTellTheirBlocks(inner, inside, next', if Truthy(sid) then sid else None);
    case InSpan(kind, xTrace, xParent, ts, notes, inner) =>
      var o := OpenSpan(scope, xTrace, xParent, next);
      var out := Lexical(inner, o.inside, o.next);
      EventsTellTheirBlocks(inner, o.inside, o.next, session);
      var e := Project(o.rec, kind, ts, notes, out.raised);
      OneTold(e, Ran(b, Raises(inner), session));
      TellJoin(out.events, SpansRun(inner, session), [e], [Ran(b, Raises(inner), session)]);
  }

  lemma OneTold(e: Event, r: Ran)
    requires r.block.InSpan? && Says(e, r.block.kind, r.block.ts, r.block.notes, r.raised)
    requires r.session.Some? ==> e.session == r.session.value
    ensures Tell([e], [r])
  {
  }

  // ----- interleaved runs -----

  /** Step number `j` closes a span block of the trace. */
  ghost predicate Closes(ops: seq<Op>, j: nat, trace: Id) {
    && j < |ops| && ops[j].Exit?
    && var s := Exec(INIT, ops[..j]);
       ops[j].task < |s.tasks| && var frames := s.tasks[ops[j].task].frames;
         frames != [] && frames[|frames| - 1].SpanFrame? && frames[|frames| - 1].rec.trace == trace
  }

  /** The block that step `j` closes. */
  ghost function ClosedFrame(ops: seq<Op>, j: nat): Frame
    requires j < |ops| && ops[j].Exit? && ops[j].task < |Exec(INIT, ops[..j]).tasks|
    requires Exec(INIT, ops[..j]).tasks[ops[j].task].frames != []
  {
    var frames := Exec(INIT, ops[..j]).tasks[ops[j].task].frames;
    frames[|frames| - 1]
  }

  /** Closing a span emits one event, of the span's own ids, saying what its block says. */
  lemma ExitReports(s: State, op: Op)
    requires op.Exit? && op.task < |s.tasks| && s.tasks[op.task].frames != []
    ensures var frames := s.tasks[op.task].frames;
            var f := frames[|frames| - 1];
            var s' := Step(s, op);
            if f.SessionFrame? then s'.attempted == s.attempted
            else
              && |s'.attempted| == |s.attempted| + 1 && s'.attempted[..|s.attempted|] == s.attempted
              && var e := s'.attempted[|s.attempted|];
                 && e.trace == f.rec.trace && e.span == f.rec.span && e.parent == f.rec.parent
                 && e.session == f.rec.session && Says(e, f.kind, f.ts, op.notes, op.raised)
  {
  }

  lemma OthersReportNothing(s: State, op: Op)
    requires !op.Exit? || op.task >= |s.tasks| || s.tasks[op.task].frames == []
    ensures Step(s, op).attempted == s.attempted
  {
  }

  /** What the closing steps of a trace come to: how many reported a failure, and what they cost. */
  datatype Sums = Sums(failures: nat, cost: real, tokens: int)

  ghost function SumsOf(ops: seq<Op>, trace: Id): Sums {
    if ops == [] then Sums(0, 0.0, 0)
    else
      var j := |ops| - 1;
      var before := SumsOf(ops[..j], trace);
      if !Closes(ops, j, trace) then before
      else
        var notes := ops[j].notes;
        var failed := ops[j].raised || (notes.status.Some? && notes.status.value != "ok");
        Sums(before.failures + if failed then 1 else 0,
             before.cost + OrZero(notes.cost),
             before.tokens + OrNone(notes.promptTokens) + OrNone(notes.completionTokens))
  }

  ghost function RowSums(rows: seq<Event>): Sums {
    if rows == [] then Sums(0, 0.0, 0)
    else
      var e := rows[|rows| - 1];
      var before := RowSums(rows[..|rows| - 1]);
      Sums(before.failures + if e.status != "ok" then 1 else 0, before.cost + OrZero(e.cost),
           before.tokens + OrNone(e.promptTokens) + OrNone(e.completionTokens))
  }

  lemma {:induction false} EventsSumUp(ops: seq<Op>, trace: Id)
    ensures RowSums(Kept(InTrace(trace), Exec(INIT, ops).attempted)) == SumsOf(ops, trace)
  {
    hide Step, RowSums, Closes;
    if ops == [] {
      NoSums();
    } else {
      var j := |ops| - 1;
      EventsSumUp(ops[..j], trace);
      LastStepSums(ops, trace);
    }
  }

  lemma NoSums()
    ensures RowSums([]) == Sums(0, 0.0, 0) && Exec(INIT, []).attempted == []
  {
  }

  lemma RowAdded(rows: seq<Event>, e: Event)
    ensures var before := RowSums(rows);
            RowSums(rows + [e])
            == Sums(before.failures + if e.status != "ok" then 1 else 0, before.cost + OrZero(e.cost),
                    before.tokens + OrNone(e.promptTokens) + OrNone(e.completionTokens))
  {
    assert (rows + [e])[..|rows|] == rows;
  }

  lemma KeptAdded(trace: Id, events: seq<Event>, e: Event)
    ensures Kept(InTrace(trace), events + [e]) == Kept(InTrace(trace), events) + if e.trace == trace then [e] else []
  {
    KeptConcat(InTrace(trace), events, [e]);
    KeptOne(InTrace(trace), e);
  }

  lemma SaysFailure(e: Event, kind: EventType, ts: int, notes: Notes, raised: bool)
    requires Says(e, kind, ts, notes, raised)
    ensures e.status != "ok" <==> raised || (notes.status.Some? && notes.status.value != "ok")
  {
    assert "error" != "ok";
  }

  lemma LastStepSums(ops: seq<Op>, trace: Id)
    requires ops != []
    requires var before := ops[..|ops| - 1];
             RowSums(Kept(InTrace(trace), Exec(INIT, before).attempted)) == SumsOf(before, trace)
    ensures RowSums(Kept(InTrace(trace), Exec(INIT, ops).attempted)) == SumsOf(ops, trace)
  {
    hide Step, RowSums, Kept;
    var j := |ops| - 1;
    var s, op := Exec(INIT, ops[..j]), ops[j];
    if op.Exit? && op.task < |s.tasks| && s.tasks[op.task].frames != [] {
      ExitReports(s, op);
      var f := s.tasks[op.task].frames[|s.tasks[op.task].frames| - 1];
      if f.SpanFrame? {
        var e := Step(s, op).attempted[|s.attempted|];
        SaysFailure(e, f.kind, f.ts, op.notes, op.raised);
        assert Closes(ops, j, trace) <==> e.trace == trace;
        assert Step(s, op).attempted == s.attempted + [e];
        KeptAdded(trace, s.attempted, e);
        RowAdded(Kept(InTrace(trace), s.attempted), e);
        var mine, all := Kept(InTrace(trace), s.attempted), Exec(INIT, ops).attempted;
        assert all == s.attempted + [e];
        assert Kept(InTrace(trace), all) == if e.trace == trace then mine + [e] else mine;
      }
    } else {
      OthersReportNothing(s, op);
    }
  }

  lemma {:induction false} RowSumsAreTotals(rows: seq<Event>)
    ensures var r := RowSums(rows);
            && r.failures == Total(Mapped(FailureOf(), rows)) && r.tokens == Total(Mapped(TokensOf(), rows))
            && r.cost == Sum(Mapped(CostOf(), rows))
  {
    if rows == [] {
    } else {
      var n := |rows| - 1;
      RowSumsAreTotals(rows[..n]);
      assert rows == rows[..n] + [rows[n]];
      TotalAdded(FailureOf(), rows[..n], rows[n]);
      TotalAdded(TokensOf(), rows[..n], rows[n]);
      SumAdded(CostOf(), rows[..n], rows[n]);
    }
  }

  lemma TotalAdded(f: Event -> int, rows: seq<Event>, e: Event)
    ensures Total(Mapped(f, rows + [e])) == Total(Mapped(f, rows)) + f(e)
  {
    MappedConcat(f, rows, [e]);
    assert Mapped(f, [e]) == [f(e)];
    TotalConcat(Mapped(f, rows), [f(e)]);
    assert Total([f(e)]) == f(e);
  }

  lemma SumAdded(f: Event -> real, rows: seq<Event>, e: Event)
    ensures Sum(Mapped(f, rows + [e])) == Sum(Mapped(f, rows)) + f(e)
  {
    MappedConcat(f, rows, [e]);
    assert Mapped(f, [e]) == [f(e)];
    SumConcat(Mapped(f, rows), [f(e)]);
    assert Sum([f(e)]) == f(e);
  }

  /** The totals reported for a whole trace, in any order of its rows, are those of the steps that
      closed its spans: a failure for each body that raised or set a status other than "ok", and the
      costs and tokens that were noted, the cost to within half a millionth. */
  lemma TraceTotalsAreItsSteps(ops: seq<Op>, trace: Id, rows: seq<Event>)
    requires multiset(rows) == multiset(Kept(InTrace(trace), Exec(INIT, ops).attempted)) && rows != []
    ensures var r, steps := GetTrace(Some(rows)), SumsOf(ops, trace);
            && r.Found? && r.errorCount == steps.failures && r.totalTokens == steps.tokens
            && -0.0000005 <= r.totalCost - steps.cost <= 0.0000005
  {
    hide Exec, Kept, Mapped, Total, Sum, RowSums;
    var all := Kept(InTrace(trace), Exec(INIT, ops).attempted);
    EventsSumUp(ops, trace);
    RowSumsAreTotals(all);
    MappedPermuted(FailureOf(), rows, all);
    MappedPermuted(TokensOf(), rows, all);
    MappedPermuted(CostOf(), rows, all);
    TotalPermuted(Mapped(FailureOf(), rows), Mapped(FailureOf(), all));
    TotalPermuted(Mapped(TokensOf(), rows), Mapped(TokensOf(), all));
    SumPermuted(Mapped(CostOf(), rows), Mapped(CostOf(), all));
    ToMicrosIsNear(Sum(Mapped(CostOf(), rows)));
  }

  /** The rows that satisfy `p`, by number. */
  ghost function Places(p: Event -> bool, rows: seq<Event>): set<nat> {
    set i: nat | i < |rows| && p(rows[i])
  }

  lemma {:induction false} SelectedIsCounted(p: Event -> bool, rows: seq<Event>)
    ensures |Selected(p, rows)| == |Places(p, rows)|
  {
    if rows != [] {
      var n := |rows| - 1;
      SelectedIsCounted(p, rows[..n]);
      assert Places(p, rows) == Places(p, rows[..n]) + if p(rows[n]) then {n} else {};
    }
  }

  /** Nothing in the rows is the span that this one names as its parent. */
  ghost predicate ParentMissing(rows: seq<Event>, e: Event) {
    e.parent.Some? && forall j :: 0 <= j < |rows| ==> rows[j].span != e.parent.value
  }

  /** Orphans are counted by what their rows name and the store lacks; roots are those and the rows
      that name no parent; truncation is assumed from 500 rows on; the session is the first row's. */
  lemma CountsAreOfRows(rows: seq<Event>)
    requires rows != []
    ensures var r := GetTrace(Some(rows));
            var orphans := set i: nat | i < |rows| && ParentMissing(rows, rows[i]);
            var tops := set i: nat | i < |rows| && rows[i].parent.None?;
            && r.Found? && r.spanCount == |rows| && r.session == rows[0].session
            && r.orphanCount == |orphans| && r.rootCount == |tops| + |orphans|
            && (r.truncated <==> |rows| >= 500)
  {
    hide Total, Mapped, Sum, Selected, Places, ParentMissing;
    SelectedIsCounted(Orphaned(IdSet(rows)), rows);
    SelectedIsCounted(Unparented(IdSet(rows)), rows);
    OrphanPlaces(rows);
    TopPlaces(rows);
  }

  lemma OrphanPlaces(rows: seq<Event>)
    ensures Places(Orphaned(IdSet(rows)), rows) == set i: nat | i < |rows| && ParentMissing(rows, rows[i])
  {
  }

  lemma TopPlaces(rows: seq<Event>)
    ensures var orphans := set i: nat | i < |rows| && ParentMissing(rows, rows[i]);
            var tops := set i: nat | i < |rows| && rows[i].parent.None?;
            |Places(Unparented(IdSet(rows)), rows)| == |tops| + |orphans|
  {
    var orphans := set i: nat | i < |rows| && ParentMissing(rows, rows[i]);
    var tops := set i: nat | i < |rows| && rows[i].parent.None?;
    assert Places(Unparented(IdSet(rows)), rows) == tops + orphans && tops !! orphans;
  }

  // ----- every event tells its own steps -----

  /** An open span block was opened by a step of its own kind and time. */
  ghost predicate FrameOpened(ops: seq<Op>, f: Frame, i: nat) {
    && IsOpening(ops, i) && f.SpanFrame?
    && Begun(Exec(INIT, ops[..i]), ops[i]) == f.rec && ops[i].kind == f.kind && ops[i].ts == f.ts
  }

  ghost predicate FramesOpened(ops: seq<Op>, s: State) {
    forall t, q :: 0 <= t < |s.tasks| && 0 <= q < |s.tasks[t].frames| && s.tasks[t].frames[q].SpanFrame? ==>
      exists i :: FrameOpened(ops, s.tasks[t].frames[q], i)
  }

  lemma FrameOpenedLater(ops: seq<Op>, f: Frame, i: nat)
    requires ops != [] && FrameOpened(ops[..|ops| - 1], f, i)
    ensures FrameOpened(ops, f, i)
  {
    assert ops[..|ops| - 1][..i] == ops[..i];
  }

  /** A step leaves the blocks of each task as they were, or closes the last, or opens one. */
  lemma StepFrames(s: State, op: Op, t: nat, q: nat)
    requires t < |Step(s, op).tasks| && q < |Step(s, op).tasks[t].frames| && Step(s, op).tasks[t].frames[q].SpanFrame?
    ensures var f := Step(s, op).tasks[t].frames[q];
            || (t < |s.tasks| && q < |s.tasks[t].frames| && s.tasks[t].frames[q] == f)
            || (op.EnterSpan? && op.task < |s.tasks| && f.rec == Begun(s, op) && f.kind == op.kind && f.ts == op.ts)
  {
  }

  lemma {:induction false} AlwaysFramesOpened(ops: seq<Op>)
    ensures FramesOpened(ops, Exec(INIT, ops))
  {
    if ops != [] {
      hide Step, Begun, FrameOpened;
      var m := |ops| - 1;
      AlwaysFramesOpened(ops[..m]);
      var s, s' := Exec(INIT, ops[..m]), Exec(INIT, ops);
      forall t, q | 0 <= t < |s'.tasks| && 0 <= q < |s'.tasks[t].frames| && s'.tasks[t].frames[q].SpanFrame?
        ensures exists i :: FrameOpened(ops, s'.tasks[t].frames[q], i)
      {
        var i := FrameStillOpened(ops, t, q);
      }
    }
  }

  lemma FrameStillOpened(ops: seq<Op>, t: nat, q: nat) returns (i: nat)
    requires ops != [] && FramesOpened(ops[..|ops| - 1], Exec(INIT, ops[..|ops| - 1]))
    requires var s := Step(Exec(INIT, ops[..|ops| - 1]), ops[|ops| - 1]);
             t < |s.tasks| && q < |s.tasks[t].frames| && s.tasks[t].frames[q].SpanFrame?
    ensures FrameOpened(ops, Step(Exec(INIT, ops[..|ops| - 1]), ops[|ops| - 1]).tasks[t].frames[q], i)
  {
    hide Step, Begun, Exec;
    var m := |ops| - 1;
    var s := Exec(INIT, ops[..m]);
    var f := Step(s, ops[m]).tasks[t].frames[q];
    StepFrames(s, ops[m], t, q);
    if t < |s.tasks| && q < |s.tasks[t].frames| && s.tasks[t].frames[q] == f {
      i :| FrameOpened(ops[..m], f, i);
      FrameOpenedLater(ops, f, i);
    } else {
      i := m;
    }
  }

  /** Step `i` opened the span of `e`, and step `j` closed it; `e` has the kind and time given to the
      one and says what the other left. */
  ghost predicate TellsSteps(ops: seq<Op>, i: nat, j: nat, e: Event) {
    && IsOpening(ops, i) && Closes(ops, j, e.trace)
    && var r := Begun(Exec(INIT, ops[..i]), ops[i]);
       && ClosedFrame(ops, j).rec == r
       && e.trace == r.trace && e.span == r.span && e.parent == r.parent && e.session == r.session
       && Says(e, ops[i].kind, ops[i].ts, ops[j].notes, ops[j].raised)
  }

  /** In every interleaving, every event ever attempted tells the steps that opened and closed its span. */
  lemma {:induction false} EventsTellTheirSteps(ops: seq<Op>, e: Event)
    requires e in Exec(INIT, ops).attempted
    ensures exists i, j :: TellsSteps(ops, i, j, e)
  {
    hide Step, Says, TellsSteps;
    var m := |ops| - 1;
    var s, op := Exec(INIT, ops[..m]), ops[m];
    if e in s.attempted {
      EventsTellTheirSteps(ops[..m], e);
      var i, j :| TellsSteps(ops[..m], i, j, e);
      ToldLater(ops, i, j, e);
    } else {
      var i := NewEventTells(ops, e);
    }
  }

  lemma ToldLater(ops: seq<Op>, i: nat, j: nat, e: Event)
    requires ops != [] && TellsSteps(ops[..|ops| - 1], i, j, e)
    ensures TellsSteps(ops, i, j, e)
  {
    hide Says, Begun, Exec;
    assert ops[..|ops| - 1][..i] == ops[..i] && ops[..|ops| - 1][..j] == ops[..j];
  }

  lemma NewEventTells(ops: seq<Op>, e: Event) returns (i: nat)
    requires ops != [] && e !in Exec(INIT, ops[..|ops| - 1]).attempted
    requires e in Step(Exec(INIT, ops[..|ops| - 1]), ops[|ops| - 1]).attempted
    ensures TellsSteps(ops, i, |ops| - 1, e)
  {
    hide Step, Says, Begun, Exec;
    var m := |ops| - 1;
    var s, op := Exec(INIT, ops[..m]), ops[m];
    if op.Exit? && op.task < |s.tasks| && s.tasks[op.task].frames != [] {
      ExitReports(s, op);
      var q := |s.tasks[op.task].frames| - 1;
      var f := s.tasks[op.task].frames[q];
      AlwaysFramesOpened(ops[..m]);
      i :| FrameOpened(ops[..m], f, i);
      FrameOpenedLater(ops, f, i);
      assert Step(s, op).attempted == s.attempted + [Step(s, op).attempted[|s.attempted|]];
    } else {
      OthersReportNothing(s, op);
      assert false;
    }
  }
}
