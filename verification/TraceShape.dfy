/** The shape of an interleaved turn: under each span hang exactly the spans that were opened seeing it as parent. */
module TraceShape {
  import opened Wrappers
  import opened Aggregates
  import opened Telemetry
  import opened ContextMachine
  import opened TraceTree
  import opened TraceForest
  import opened TraceProtocol

  /** What an opening sees as parent: with a trace in scope the innermost open span, read off the open
      blocks; with none, what it was passed. */
  function SeenParent(s: State, op: Op): Option<Id>
    requires op.EnterSpan? && op.task < |s.tasks|
  {
    var t := s.tasks[op.task];
    if t.vars.trace.Some? then Innermost(t.base, t.frames) else op.xParent
  }

  /** The span that an opening begins. */
  function Begun(s: State, op: Op): SpanRecord
    requires op.EnterSpan? && op.task < |s.tasks|
  {
    OpenSpan(s.tasks[op.task].vars, op.xTrace, op.xParent, s.next).rec
  }

  ghost predicate IsOpening(ops: seq<Op>, i: nat) {
    i < |ops| && ops[i].EnterSpan? && ops[i].task < |Exec(INIT, ops[..i]).tasks|
  }

  /** Step number `i` opens span `span` of the trace, seeing `parent`. */
  ghost predicate OpensUnder(ops: seq<Op>, i: nat, trace: Id, parent: Id, span: Id) {
    && IsOpening(ops, i)
    && SeenParent(Exec(INIT, ops[..i]), ops[i]) == Some(parent)
    && Begun(Exec(INIT, ops[..i]), ops[i]).trace == trace && Begun(Exec(INIT, ops[..i]), ops[i]).span == span
  }

  lemma BegunSawItsParent(ops: seq<Op>, i: nat)
    requires IsOpening(ops, i)
    ensures Begun(Exec(INIT, ops[..i]), ops[i]).parent == SeenParent(Exec(INIT, ops[..i]), ops[i])
  {
    hide Exec, Innermost;
    ContextsStayIntact(ops[..i], ops[i].task);
  }

  ghost predicate BeginsRecord(ops: seq<Op>, i: nat, r: SpanRecord) {
    IsOpening(ops, i) && Begun(Exec(INIT, ops[..i]), ops[i]) == r
  }

  lemma StepRecords(s: State, op: Op)
    ensures Step(s, op).spans == s.spans + if op.EnterSpan? && op.task < |s.tasks| then [Begun(s, op)] else []
  {
  }

  /** The records of a run are those of its openings. */
  lemma {:induction false} RecordsAreBegun(ops: seq<Op>, r: SpanRecord)
    ensures r in Exec(INIT, ops).spans <==> exists i :: BeginsRecord(ops, i, r)
  {
    hide Step, Begun, BeginsRecord;
    if ops == [] {
      NothingBegun(r);
    } else {
      var m := |ops| - 1;
      RecordsAreBegun(ops[..m], r);
      LastBegun(ops, r);
      forall i: nat
        ensures BeginsRecord(ops, i, r) <==> BeginsRecord(ops[..m], i, r) || (i == m && BeginsRecord(ops, m, r))
      {
        BegunBefore(ops, i, r);
      }
    }
  }

  lemma NothingBegun(r: SpanRecord)
    ensures r !in Exec(INIT, []).spans && forall i :: !BeginsRecord([], i, r)
  {
  }

  lemma LastBegun(ops: seq<Op>, r: SpanRecord)
    requires ops != []
    ensures var m := |ops| - 1;
            r in Exec(INIT, ops).spans <==> r in Exec(INIT, ops[..m]).spans || BeginsRecord(ops, m, r)
  {
    hide Step, Begun;
    StepRecords(Exec(INIT, ops[..|ops| - 1]), ops[|ops| - 1]);
  }

  lemma BegunBefore(ops: seq<Op>, i: nat, r: SpanRecord)
    requires ops != []
    ensures var m := |ops| - 1;
            BeginsRecord(ops, i, r) <==> BeginsRecord(ops[..m], i, r) || (i == m && BeginsRecord(ops, m, r))
  {
    hide Exec, Begun;
    var m := |ops| - 1;
    if i < m {
      assert ops[..m][..i] == ops[..i];
    }
  }

  /** Once the trace is quiet and all its events were delivered, in whatever order: the children of
      span `x` are the spans that some step opened in the trace seeing `x` as parent, each once. */
  lemma TurnHasTheOpenedShape(ops: seq<Op>, k: nat, rows: seq<Event>, x: Id, y: Id)
    requires HonestRun(ops) && k < |Exec(INIT, ops).spans|
    requires Quiet(Exec(INIT, ops), Exec(INIT, ops).spans[k].trace)
    requires multiset(rows) == multiset(Kept(InTrace(Exec(INIT, ops).spans[k].trace), Exec(INIT, ops).attempted))
    ensures multiset(ChildIds(rows, x))[y]
         == if exists i :: OpensUnder(ops, i, Exec(INIT, ops).spans[k].trace, x, y) then 1 else 0
  {
    hide Exec, HonestRun, Selected, Kept, OpensUnder, Preorder, Unfold;
    var trace := Exec(INIT, ops).spans[k].trace;
    KeptBag(InTrace(trace), Exec(INIT, ops).attempted);
    AnySubsetRebuilds(ops, rows);
    if i :| OpensUnder(ops, i, trace, x, y) {
      var n := OpenedHasRow(ops, trace, rows, i, x, y);
      SelectedCount(ParentIs(x), rows, n);
    } else if y in ChildIds(rows, x) {
      SelectedElement(ParentIs(x), rows, y);
      var n :| 0 <= n < |rows| && rows[n].parent == Some(x) && rows[n].span == y;
      var i := RowWasOpened(ops, trace, rows, n);
    }
  }

  lemma OpenedHasRow(ops: seq<Op>, trace: Id, rows: seq<Event>, i: nat, x: Id, y: Id) returns (n: nat)
    requires HonestRun(ops) && Quiet(Exec(INIT, ops), trace) && OpensUnder(ops, i, trace, x, y)
    requires multiset(rows) == multiset(Kept(InTrace(trace), Exec(INIT, ops).attempted))
    ensures n < |rows| && rows[n].span == y && rows[n].parent == Some(x)
  {
    hide Exec, HonestRun, Kept, Begun, SeenParent;
    var r := Begun(Exec(INIT, ops[..i]), ops[i]);
    BegunSawItsParent(ops, i);
    RecordsAreBegun(ops, r);
    assert BeginsRecord(ops, i, r);
    var j :| 0 <= j < |Exec(INIT, ops).spans| && Exec(INIT, ops).spans[j] == r;
    var e := QuietSpanHasEvent(ops, j);
    RowsOfTrace(Exec(INIT, ops), trace, rows, e);
    n :| 0 <= n < |rows| && rows[n] == e;
  }

  lemma RowWasOpened(ops: seq<Op>, trace: Id, rows: seq<Event>, n: nat) returns (i: nat)
    requires HonestRun(ops) && n < |rows| && rows[n].parent.Some?
    requires multiset(rows) == multiset(Kept(InTrace(trace), Exec(INIT, ops).attempted))
    ensures OpensUnder(ops, i, trace, rows[n].parent.value, rows[n].span)
  {
    hide Exec, HonestRun, Kept, Begun, SeenParent;
    AlwaysGenuine(ops);
    RowsOfTrace(Exec(INIT, ops), trace, rows, rows[n]);
    assert EventKnown(Exec(INIT, ops).spans, rows[n]);
    var j :| 0 <= j < |Exec(INIT, ops).spans| && Exec(INIT, ops).spans[j].trace == rows[n].trace
      && Exec(INIT, ops).spans[j].span == rows[n].span && Exec(INIT, ops).spans[j].parent == rows[n].parent;
    RecordsAreBegun(ops, Exec(INIT, ops).spans[j]);
    i :| BeginsRecord(ops, i, Exec(INIT, ops).spans[j]);
    BegunSawItsParent(ops, i);
  }
}
