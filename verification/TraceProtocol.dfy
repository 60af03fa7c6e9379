/** From interleaved contexts to one tree per trace: what every run emits, and what is rebuilt from it. */
module TraceProtocol {
  import opened Wrappers
  import opened Aggregates
  import opened Rounding
  import opened Telemetry
  import opened ContextMachine
  import opened SpanCounts
  import opened TraceTree
  import opened TraceForest

  // ----- every span emits exactly once -----

  /** Each id is accounted for: emitted as often as opened, but for the blocks still open. */
  ghost predicate Accounted(s: State, x: Id) {
    CountSpans(s.spans, x) == CountEvents(s.attempted, x) + CountOpen(s.tasks, x)
  }

  lemma EnterKeepsAccounts(s: State, op: Op, x: Id)
    requires (op.EnterSession? || op.EnterSpan?) && op.task < |s.tasks| && Accounted(s, x)
    ensures Accounted(Step(s, op), x)
  {
    hide CountSpans, CountFrames, CountEvents, CountOpen, OpenSpan, OpenSession;
    var s' := Step(s, op);
    var t, t' := s.tasks[op.task], s'.tasks[op.task];
    CountOpenUpdate(s.tasks, op.task, t', x);
    CountFramesAppend(t.frames, t'.frames[|t.frames|], x);
    if op.EnterSpan? {
      CountSpansAppend(s.spans, s'.spans[|s.spans|], x);
    }
  }

  lemma ExitKeepsAccounts(s: State, op: Op, x: Id)
    requires op.Exit? && op.task < |s.tasks| && s.tasks[op.task].frames != [] && Accounted(s, x)
    ensures Accounted(Step(s, op), x)
  {
    hide CountSpans, CountOpen;
    var s' := Step(s, op);
    CountOpenUpdate(s.tasks, op.task, s'.tasks[op.task], x);
    if s'.attempted != s.attempted {
      assert s'.attempted[..|s.attempted|] == s.attempted;
    }
  }

  lemma StepKeepsAccounts(s: State, op: Op, x: Id)
    requires Accounted(s, x)
    ensures Accounted(Step(s, op), x)
  {
    hide CountSpans, CountEvents, CountOpen;
    match op
    case NewProcess => CountOpenAppend(s.tasks, Task(UNSET, [], UNSET), x);
    case Spawn(i) =>
      if i < |s.tasks| {
        CountOpenAppend(s.tasks, Task(s.tasks[i].vars, [], s.tasks[i].vars), x);
      }
    case Send(_) =>
    case EnterSession(i, _) =>
      if i < |s.tasks| {
        EnterKeepsAccounts(s, op, x);
      }
    case EnterSpan(i, _, _, _, _) =>
      if i < |s.tasks| {
        EnterKeepsAccounts(s, op, x);
      }
    case Exit(i, _, _, _) =>
      if i < |s.tasks| && s.tasks[i].frames != [] {
        ExitKeepsAccounts(s, op, x);
      }
  }

  lemma {:induction false} AlwaysAccounted(ops: seq<Op>, x: Id)
    ensures Accounted(Exec(INIT, ops), x)
  {
    if ops != [] {
      AlwaysAccounted(ops[..|ops| - 1], x);
      StepKeepsAccounts(Exec(INIT, ops[..|ops| - 1]), ops[|ops| - 1], x);
    }
  }

  /** Span ids are drawn in increasing order. */
  ghost predicate Ordered(s: State) {
    && s.next >= 1
    && (forall i :: 0 <= i < |s.spans| ==> 1 <= s.spans[i].span < s.next)
    && forall i, j :: 0 <= i < j < |s.spans| ==> s.spans[i].span < s.spans[j].span
  }

  lemma {:induction false} AlwaysOrdered(ops: seq<Op>)
    ensures Ordered(Exec(INIT, ops))
  {
    if ops != [] {
      AlwaysOrdered(ops[..|ops| - 1]);
    }
  }

  /** Whatever raises and however tasks interleave, a span that was opened is open in exactly one
      block and has emitted nothing, or is closed and has emitted exactly once. */
  lemma EverySpanEmitsOnce(ops: seq<Op>, k: nat)
    requires k < |Exec(INIT, ops).spans|
    ensures var s := Exec(INIT, ops);
            CountEvents(s.attempted, s.spans[k].span) + CountOpen(s.tasks, s.spans[k].span) == 1
  {
    var s := Exec(INIT, ops);
    AlwaysOrdered(ops);
    CountOrderedSpans(s.spans, s.spans[k].span);
    AlwaysAccounted(ops, s.spans[k].span);
  }

  // ----- traces are trees -----

  ghost predicate Recorded(spans: seq<SpanRecord>, trace: Id, span: Id) {
    exists j :: 0 <= j < |spans| && spans[j].trace == trace && spans[j].span == span
  }

  ghost predicate Known(spans: seq<SpanRecord>, v: Vars) {
    v.trace.Some? && v.parent.Some? ==> Recorded(spans, v.trace.value, v.parent.value)
  }

  /** A remote caller passes nothing, or a trace context that some task really had. What a task
      that already has a trace is passed does not matter: it is ignored. */
  ghost predicate Honest(s: State, op: Op) {
    op.EnterSpan? && op.task < |s.tasks| && s.tasks[op.task].vars.trace.None? ==>
      || (op.xTrace.None? && op.xParent.None?)
      || (op.xTrace.Some? && op.xParent.Some? && (op.xTrace.value, op.xParent.value) in s.sent)
  }

  ghost predicate HonestRun(ops: seq<Op>) {
    ops == [] || (HonestRun(ops[..|ops| - 1]) && Honest(Exec(INIT, ops[..|ops| - 1]), ops[|ops| - 1]))
  }

  /** Every span hangs under an earlier span of its trace, but for the one that minted it. */
  ghost predicate Linked(spans: seq<SpanRecord>, k: nat)
    requires k < |spans|
  {
    if spans[k].minted then
      && spans[k].parent.None?
      && forall i :: 0 <= i < k ==> spans[i].trace != spans[k].trace
    else
      spans[k].parent.Some? && Recorded(spans[..k], spans[k].trace, spans[k].parent.value)
  }

  ghost predicate TaskKnown(spans: seq<SpanRecord>, t: Task) {
    && Known(spans, t.base)
    && forall i :: 0 <= i < |t.frames| ==>
      Known(spans, t.frames[i].inside) && (t.frames[i].SpanFrame? ==> t.frames[i].rec in spans)
  }

  ghost predicate EventKnown(spans: seq<SpanRecord>, e: Event) {
    exists j :: 0 <= j < |spans| && spans[j].trace == e.trace && spans[j].span == e.span && spans[j].parent == e.parent
  }

  ghost predicate Genuine(s: State) {
    && (forall k :: 0 <= k < |s.spans| ==> 1 <= s.spans[k].trace < s.next && Linked(s.spans, k))
    && (forall i :: 0 <= i < |s.tasks| ==> TaskKnown(s.spans, s.tasks[i]))
    && (forall p :: p in s.sent ==> Recorded(s.spans, p.0, p.1))
    && (forall i :: 0 <= i < |s.attempted| ==> EventKnown(s.spans, s.attempted[i]))
  }

  lemma RecordedGrows(spans: seq<SpanRecord>, r: SpanRecord, trace: Id, span: Id)
    requires Recorded(spans, trace, span)
    ensures Recorded(spans + [r], trace, span)
  {
    var j :| 0 <= j < |spans| && spans[j].trace == trace && spans[j].span == span;
    assert (spans + [r])[j] == spans[j];
  }

  lemma TaskKnownGrows(spans: seq<SpanRecord>, r: SpanRecord, t: Task)
    requires TaskKnown(spans, t)
    ensures TaskKnown(spans + [r], t)
  {
    forall v: Vars | Known(spans, v)
      ensures Known(spans + [r], v)
    {
      if v.trace.Some? && v.parent.Some? {
        RecordedGrows(spans, r, v.trace.value, v.parent.value);
      }
    }
  }

  lemma LinkedGrows(spans: seq<SpanRecord>, r: SpanRecord, k: nat)
    requires k < |spans| && Linked(spans, k)
    ensures Linked(spans + [r], k)
  {
    assert (spans + [r])[..k] == spans[..k];
  }

  lemma NewSpanIsLinked(s: State, op: Op)
    requires op.EnterSpan? && op.task < |s.tasks| && Honest(s, op)
    requires TasksOk(s) && Ordered(s) && Genuine(s)
    ensures var o := OpenSpan(s.tasks[op.task].vars, op.xTrace, op.xParent, s.next);
            && Linked(s.spans + [o.rec], |s.spans|)
            && 1 <= o.rec.trace < o.next
  {
    var t := s.tasks[op.task];
    TaskOkIsCoherent(t);
    var o := OpenSpan(t.vars, op.xTrace, op.xParent, s.next);
    assert (s.spans + [o.rec])[..|s.spans|] == s.spans;
    if t.vars.trace.Some? {
      assert Known(s.spans, t.vars) by {
        assert TaskKnown(s.spans, t);
      }
      var j :| 0 <= j < |s.spans| && s.spans[j].trace == t.vars.trace.value;
      assert s.spans[j].trace < s.next;
    } else if op.xTrace.Some? {
      var j :| 0 <= j < |s.spans| && s.spans[j].trace == op.xTrace.value;
      assert 1 <= s.spans[j].trace < s.next;
    }
  }

  lemma EventKnownGrows(spans: seq<SpanRecord>, r: SpanRecord, e: Event)
    requires EventKnown(spans, e)
    ensures EventKnown(spans + [r], e)
  {
    var j :| 0 <= j < |spans| && spans[j].trace == e.trace && spans[j].span == e.span && spans[j].parent == e.parent;
    assert (spans + [r])[j] == spans[j];
  }

  lemma PushedTaskIsKnown(spans: seq<SpanRecord>, t: Task, o: Opening, kind: EventType, ts: int)
    requires TaskKnown(spans, t) && Known(spans + [o.rec], o.inside)
    ensures TaskKnown(spans + [o.rec], PushSpan(t, o, kind, ts))
  {
    TaskKnownGrows(spans, o.rec, t);
    assert (spans + [o.rec])[|spans|] == o.rec;
  }

  lemma OpenedSpanIsKnown(spans: seq<SpanRecord>, v: Vars, xTrace: Option<Id>, xParent: Option<Id>, next: Id)
    ensures var o := OpenSpan(v, xTrace, xParent, next); Known(spans + [o.rec], o.inside)
  {
    var o := OpenSpan(v, xTrace, xParent, next);
    assert (spans + [o.rec])[|spans|] == o.rec;
  }

  lemma EnterSpanKeepsGenuine(s: State, op: Op)
    requires op.EnterSpan? && op.task < |s.tasks| && Honest(s, op)
    requires TasksOk(s) && Ordered(s) && Genuine(s)
    ensures Genuine(Step(s, op))
  {
    hide Linked, TaskKnown, Recorded, EventKnown, Known, OpenSpan, PushSpan;
    var s' := Step(s, op);
    var t := s.tasks[op.task];
    var o := OpenSpan(t.vars, op.xTrace, op.xParent, s.next);
    assert s'.spans == s.spans + [o.rec] && s'.next == o.next && s'.sent == s.sent && s'.attempted == s.attempted;
    NewSpanIsLinked(s, op);
    NextGrows(t.vars, op.xTrace, op.xParent, s.next);
    forall k | 0 <= k < |s'.spans|
      ensures 1 <= s'.spans[k].trace < s'.next && Linked(s'.spans, k)
    {
      if k < |s.spans| {
        LinkedGrows(s.spans, o.rec, k);
      }
    }
    forall i | 0 <= i < |s'.tasks|
      ensures TaskKnown(s'.spans, s'.tasks[i])
    {
      if i == op.task {
        OpenedSpanIsKnown(s.spans, t.vars, op.xTrace, op.xParent, s.next);
        PushedTaskIsKnown(s.spans, t, o, op.kind, op.ts);
      } else {
        TaskKnownGrows(s.spans, o.rec, s.tasks[i]);
      }
    }
    forall p | p in s'.sent
      ensures Recorded(s'.spans, p.0, p.1)
    {
      RecordedGrows(s.spans, o.rec, p.0, p.1);
    }
    forall i | 0 <= i < |s'.attempted|
      ensures EventKnown(s'.spans, s'.attempted[i])
    {
      EventKnownGrows(s.spans, o.rec, s.attempted[i]);
    }
  }

  lemma NextGrows(v: Vars, xTrace: Option<Id>, xParent: Option<Id>, next: Id)
    ensures OpenSpan(v, xTrace, xParent, next).next > next
  {
  }

  lemma VarsKnown(s: State, i: nat)
    requires TasksOk(s) && Genuine(s) && i < |s.tasks|
    ensures Known(s.spans, s.tasks[i].vars)
  {
    assert TaskOk(s.tasks[i]) && TaskKnown(s.spans, s.tasks[i]);
  }

  lemma ExitKeepsGenuine(s: State, op: Op)
    requires op.Exit? && op.task < |s.tasks| && s.tasks[op.task].frames != [] && Genuine(s)
    ensures Genuine(Step(s, op))
  {
    var s' := Step(s, op);
    var t, t' := s.tasks[op.task], s'.tasks[op.task];
    var f := t.frames[|t.frames| - 1];
    assert TaskKnown(s.spans, t);
    assert TaskKnown(s.spans, t');
    if f.SpanFrame? {
      assert EventKnown(s.spans, Project(f.rec, f.kind, f.ts, op.notes, op.raised));
    }
  }

  lemma EnterSessionKeepsGenuine(s: State, op: Op)
    requires op.EnterSession? && op.task < |s.tasks| && Genuine(s)
    ensures Genuine(Step(s, op))
  {
    var s' := Step(s, op);
    assert TaskKnown(s.spans, s.tasks[op.task]);
    assert TaskKnown(s.spans, s'.tasks[op.task]);
  }

  /** Two uses of a context that some task has: a new task inherits it, a remote call sends it. */
  lemma ContextCopyKeepsGenuine(s: State, op: Op)
    requires (op.Spawn? || op.Send?) && op.task < |s.tasks| && TasksOk(s) && Genuine(s)
    ensures Genuine(Step(s, op))
  {
    VarsKnown(s, op.task);
  }

  lemma StepKeepsGenuine(s: State, op: Op)
    requires Honest(s, op) && TasksOk(s) && Ordered(s) && Genuine(s)
    ensures Genuine(Step(s, op))
  {
    if op.NewProcess? {
      assert TaskKnown(s.spans, Task(UNSET, [], UNSET));
    } else if op.task < |s.tasks| {
      match op
      case Spawn(_) => ContextCopyKeepsGenuine(s, op);
      case Send(_) => ContextCopyKeepsGenuine(s, op);
      case EnterSession(_, _) => EnterSessionKeepsGenuine(s, op);
      case EnterSpan(_, _, _, _, _) => EnterSpanKeepsGenuine(s, op);
      case Exit(i, _, _, _) =>
        if s.tasks[i].frames != [] {
          ExitKeepsGenuine(s, op);
        }
    }
  }

  lemma {:induction false} AlwaysGenuine(ops: seq<Op>)
    requires HonestRun(ops)
    ensures Genuine(Exec(INIT, ops))
  {
    if ops != [] {
      var before := ops[..|ops| - 1];
      AlwaysGenuine(before);
      AllTasksOk(before);
      AlwaysOrdered(before);
      StepKeepsGenuine(Exec(INIT, before), ops[|ops| - 1]);
    }
  }

  // ----- rebuilding -----

  function Born(): Id -> nat { (id: Id) => id }

  lemma AttemptedDistinct(ops: seq<Op>)
    requires HonestRun(ops)
    ensures DistinctSpans(Exec(INIT, ops).attempted)
  {
    var s := Exec(INIT, ops);
    AlwaysGenuine(ops);
    forall i, j | 0 <= i < j < |s.attempted|
      ensures s.attempted[i].span != s.attempted[j].span
    {
      if s.attempted[i].span == s.attempted[j].span {
        CountTwoEvents(s.attempted, i, j);
        assert EventKnown(s.spans, s.attempted[i]);
        var k :| 0 <= k < |s.spans| && s.spans[k].span == s.attempted[i].span;
        EverySpanEmitsOnce(ops, k);
      }
    }
  }

  lemma SubsetDistinct(events: seq<Event>, rows: seq<Event>)
    requires DistinctSpans(events) && multiset(rows) <= multiset(events)
    ensures DistinctSpans(rows)
  {
    forall i, j | 0 <= i < j < |rows|
      ensures rows[i].span != rows[j].span
    {
      assert rows[i] in multiset(events) && rows[j] in multiset(events);
      var a :| 0 <= a < |events| && events[a] == rows[i];
      var b :| 0 <= b < |events| && events[b] == rows[j];
      if rows[i].span == rows[j].span {
        assert a == b;
        assert rows == rows[..i] + [rows[i]] + rows[i + 1..j] + [rows[j]] + rows[j + 1..];
        assert multiset(rows)[rows[i]] >= 2;
        assert Distinct(events);
        DistinctCount(events, rows[i]);
      }
    }
  }

  lemma EventsAreRanked(spans: seq<SpanRecord>, rows: seq<Event>)
    requires forall i, j :: 0 <= i < j < |spans| ==> spans[i].span < spans[j].span
    requires forall k :: 0 <= k < |spans| ==> Linked(spans, k)
    requires forall i :: 0 <= i < |rows| ==> EventKnown(spans, rows[i])
    ensures Ranked(rows, Born())
  {
    forall i | 0 <= i < |rows| && rows[i].parent.Some?
      ensures rows[i].parent.value < rows[i].span
    {
      assert EventKnown(spans, rows[i]);
      var k :| 0 <= k < |spans| && spans[k].span == rows[i].span && spans[k].parent == rows[i].parent;
      assert Linked(spans, k);
      assert Recorded(spans[..k], spans[k].trace, spans[k].parent.value);
      var j :| 0 <= j < |spans[..k]| && spans[..k][j].span == spans[k].parent.value;
      assert spans[..k][j] == spans[j];
    }
  }

  /** Whatever subset of the events reaches the store, in whatever order it is read back: every
      surviving span is shown exactly once, and the totals lose nothing. */
  lemma AnySubsetRebuilds(ops: seq<Op>, rows: seq<Event>)
    requires HonestRun(ops) && multiset(rows) <= multiset(Exec(INIT, ops).attempted)
    ensures DistinctSpans(rows) && Ranked(rows, Born())
    ensures multiset(Preorder(Forest(rows, Born()))) == multiset(Ids(rows))
    ensures rows != [] ==>
              GetTrace(Some(rows)).totalCost
                == ToMicros(Sum(Mapped(ById(rows, CostOf(), 0.0), Preorder(Forest(rows, Born())))))
  {
    var s := Exec(INIT, ops);
    AttemptedDistinct(ops);
    SubsetDistinct(s.attempted, rows);
    AlwaysGenuine(ops);
    AlwaysOrdered(ops);
    forall i | 0 <= i < |rows|
      ensures EventKnown(s.spans, rows[i])
    {
      assert rows[i] in multiset(s.attempted);
    }
    EventsAreRanked(s.spans, rows);
    ForestHoldsEveryRowOnce(rows, Born());
    if rows != [] {
      TotalsCoverTheForest(rows, Born());
    }
  }

  function InTrace(trace: Id): Event -> bool { (e: Event) => e.trace == trace }

  /** No block of the trace is still open in any task. */
  ghost predicate Quiet(s: State, trace: Id) {
    forall i, j :: 0 <= i < |s.tasks| && 0 <= j < |s.tasks[i].frames| && s.tasks[i].frames[j].SpanFrame? ==>
      s.tasks[i].frames[j].rec.trace != trace
  }

  /** Once a trace is quiet, each of its spans has an event of that trace. */
  lemma QuietSpanHasEvent(ops: seq<Op>, k: nat) returns (e: Event)
    requires HonestRun(ops) && k < |Exec(INIT, ops).spans|
    requires Quiet(Exec(INIT, ops), Exec(INIT, ops).spans[k].trace)
    ensures var r := Exec(INIT, ops).spans[k];
            e in Exec(INIT, ops).attempted && e.span == r.span && e.trace == r.trace && e.parent == r.parent
  {
    var s := Exec(INIT, ops);
    var x := s.spans[k].span;
    AlwaysGenuine(ops);
    AlwaysOrdered(ops);
    forall i, j | 0 <= i < |s.tasks| && 0 <= j < |s.tasks[i].frames| && s.tasks[i].frames[j].SpanFrame?
      ensures s.tasks[i].frames[j].rec.span != x
    {
      assert TaskKnown(s.spans, s.tasks[i]);
      var r := s.tasks[i].frames[j].rec;
      var m :| 0 <= m < |s.spans| && s.spans[m] == r;
      assert m != k;
    }
    CountOpenZero(s.tasks, x);
    EverySpanEmitsOnce(ops, k);
    CountEventsWitness(s.attempted, x);
    var i :| 0 <= i < |s.attempted| && s.attempted[i].span == x;
    e := s.attempted[i];
    assert EventKnown(s.spans, e);
    var m :| 0 <= m < |s.spans| && s.spans[m].trace == e.trace && s.spans[m].span == e.span
      && s.spans[m].parent == e.parent;
    assert m == k;
  }

  lemma {:induction false} TraceHasMint(spans: seq<SpanRecord>, k: nat) returns (m: nat)
    requires k < |spans| && forall i :: 0 <= i < |spans| ==> Linked(spans, i)
    ensures m <= k && spans[m].minted && spans[m].trace == spans[k].trace
    decreases k
  {
    if spans[k].minted {
      m := k;
    } else {
      assert Linked(spans, k);
      var j :| 0 <= j < |spans[..k]| && spans[..k][j].trace == spans[k].trace;
      assert spans[..k][j] == spans[j];
      m := TraceHasMint(spans, j);
    }
  }

  lemma SoleSelection(p: Event -> bool, rows: seq<Event>, k: nat)
    requires DistinctSpans(rows) && k < |rows| && p(rows[k])
    requires forall i :: 0 <= i < |rows| && p(rows[i]) ==> i == k
    ensures Selected(p, rows) == [rows[k].span]
  {
    var ids := Selected(p, rows);
    forall i | 0 <= i < |ids|
      ensures ids[i] == rows[k].span
    {
      SelectedElement(p, rows, ids[i]);
    }
    SelectedCount(p, rows, k);
    ConstantCount(ids, rows[k].span);
  }

  lemma RowsOfTrace(s: State, trace: Id, rows: seq<Event>, e: Event)
    requires multiset(rows) == multiset(Kept(InTrace(trace), s.attempted))
    ensures e in rows <==> e in s.attempted && e.trace == trace
  {
    KeptElements(InTrace(trace), s.attempted, e);
    assert e in rows <==> e in multiset(rows);
    assert e in Kept(InTrace(trace), s.attempted) <==> e in multiset(Kept(InTrace(trace), s.attempted));
  }

  /** One turn, one tree: agent, gateway and tool server are separate processes, joined only by
      the trace contexts they send, and the turn may be interleaved, cut short by exceptions and
      read back in any order. Once it is quiet and everything was delivered, what is rebuilt has
      one root, the span that began the turn, and no orphan. */
  lemma TurnIsOneTree(ops: seq<Op>, k: nat, rows: seq<Event>) returns (root: nat)
    requires HonestRun(ops) && k < |Exec(INIT, ops).spans|
    requires Quiet(Exec(INIT, ops), Exec(INIT, ops).spans[k].trace)
    requires multiset(rows) == multiset(Kept(InTrace(Exec(INIT, ops).spans[k].trace), Exec(INIT, ops).attempted))
    ensures root <= k && Exec(INIT, ops).spans[root].minted
    ensures Exec(INIT, ops).spans[root].trace == Exec(INIT, ops).spans[k].trace
    ensures RootIds(rows) == [Exec(INIT, ops).spans[root].span]
    ensures OrphanIds(rows) == []
    ensures DistinctSpans(rows) && Ranked(rows, Born())
    ensures multiset(Preorder(Forest(rows, Born()))) == multiset(Ids(rows))
  {
    hide Exec, HonestRun, Selected, Kept, Mapped, Preorder, Unfold;
    var s := Exec(INIT, ops);
    var trace := s.spans[k].trace;
    AlwaysGenuine(ops);
    AlwaysOrdered(ops);
    KeptBag(InTrace(trace), s.attempted);
    AnySubsetRebuilds(ops, rows);
    root := TraceHasMint(s.spans, k);
    forall i | 0 <= i < |rows| && rows[i].parent.Some?
      ensures rows[i].parent.value in IdSet(rows)
    {
      ParentWasDelivered(ops, trace, rows, i);
    }
    NothingSelected(Orphaned(IdSet(rows)), rows);
    var e := QuietSpanHasEvent(ops, root);
    RowsOfTrace(s, trace, rows, e);
    var r :| 0 <= r < |rows| && rows[r] == e;
    forall i | 0 <= i < |rows| && Unparented(IdSet(rows))(rows[i])
      ensures i == r
    {
      RowOfMint(ops, trace, rows, i, root);
    }
    SoleSelection(Unparented(IdSet(rows)), rows, r);
  }

  lemma ParentWasDelivered(ops: seq<Op>, trace: Id, rows: seq<Event>, i: nat)
    requires HonestRun(ops) && Quiet(Exec(INIT, ops), trace)
    requires multiset(rows) == multiset(Kept(InTrace(trace), Exec(INIT, ops).attempted))
    requires i < |rows| && rows[i].parent.Some?
    ensures rows[i].parent.value in IdSet(rows)
  {
    var s := Exec(INIT, ops);
    AlwaysGenuine(ops);
    RowsOfTrace(s, trace, rows, rows[i]);
    assert EventKnown(s.spans, rows[i]);
    var k :| 0 <= k < |s.spans| && s.spans[k].trace == trace && s.spans[k].parent == rows[i].parent;
    assert Linked(s.spans, k);
    var j :| 0 <= j < |s.spans[..k]| && s.spans[..k][j].trace == trace && s.spans[..k][j].span == rows[i].parent.value;
    assert s.spans[..k][j] == s.spans[j];
    var e := QuietSpanHasEvent(ops, j);
    RowsOfTrace(s, trace, rows, e);
    var m :| 0 <= m < |rows| && rows[m] == e;
  }

  lemma RowOfMint(ops: seq<Op>, trace: Id, rows: seq<Event>, i: nat, root: nat)
    requires HonestRun(ops) && root < |Exec(INIT, ops).spans|
    requires Exec(INIT, ops).spans[root].minted && Exec(INIT, ops).spans[root].trace == trace
    requires multiset(rows) == multiset(Kept(InTrace(trace), Exec(INIT, ops).attempted))
    requires i < |rows| && rows[i].parent.None?
    ensures rows[i].span == Exec(INIT, ops).spans[root].span
  {
    var s := Exec(INIT, ops);
    AlwaysGenuine(ops);
    RowsOfTrace(s, trace, rows, rows[i]);
    assert EventKnown(s.spans, rows[i]);
    var k :| 0 <= k < |s.spans| && s.spans[k].trace == trace && s.spans[k].span == rows[i].span
      && s.spans[k].parent.None?;
    assert Linked(s.spans, k) && Linked(s.spans, root);
    assert k == root;
  }

  /** A span opened while a trace is in scope attaches to the innermost open span, whatever
      explicit context it was passed; with none in scope it adopts what a task read and sent. */
  lemma SpanAttaches(ops: seq<Op>, op: Op)
    requires op.EnterSpan? && op.task < |Exec(INIT, ops).tasks|
    ensures var s := Exec(INIT, ops);
            var t := s.tasks[op.task];
            var rec := Step(s, op).spans[|s.spans|];
            && (if t.vars.session.Some? then rec.session == t.vars.session.value else rec.session >= s.next)
            && if t.vars.trace.Some? then rec.trace == t.vars.trace.value && rec.parent == Innermost(t.base, t.frames)
               else if Truthy(op.xTrace) then rec.trace == op.xTrace.value && rec.parent == op.xParent
               else rec.minted && rec.trace >= s.next
  {
    ContextsStayIntact(ops, op.task);
  }
}
