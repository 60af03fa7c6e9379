/** A sequential program of nested spans, and the forest rebuilt from what it emits. */
module ProgramTree {
  import opened Wrappers
  import opened Aggregates
  import opened Telemetry
  import opened TraceTree
  import opened TraceForest
  import opened TraceProtocol
  import opened ProgramNesting

  lemma {:induction false} KeptIndex(trace: Id, events: seq<Event>, i: nat)
    requires i < |Kept(InTrace(trace), events)|
    ensures Kept(InTrace(trace), events)[i].trace == trace && Kept(InTrace(trace), events)[i] in events
  {
    KeptElements(InTrace(trace), events, Kept(InTrace(trace), events)[i]);
  }

  /** The rows of a trace: those of the body, with the event of its first span last. */
  lemma RowsOfTurn(inner: seq<Event>, e: Event, mine: seq<Event>, rows: seq<Event>)
    requires Attached(inner, e.trace, e.span) && e.parent.None?
    requires mine == Kept(InTrace(e.trace), inner) && rows == mine + [e]
    ensures forall i :: 0 <= i < |rows| ==> rows[i].trace == e.trace
    ensures forall i :: 0 <= i < |mine| ==>
            rows[i].parent.Some? && rows[i].parent.value in IdSet(rows) && rows[i].parent.value < rows[i].span
  {
    assert rows[|mine|] == e;
    forall i | 0 <= i < |mine|
      ensures rows[i].trace == e.trace
      ensures rows[i].parent.Some? && rows[i].parent.value in IdSet(rows) && rows[i].parent.value < rows[i].span
    {
      KeptIndex(e.trace, inner, i);
      var k :| 0 <= k < |inner| && inner[k] == mine[i];
      if inner[k].parent.value != e.span {
        var j :| 0 <= j < |inner| && inner[j].trace == e.trace && inner[j].span == inner[k].parent.value;
        KeptElements(InTrace(e.trace), inner, inner[j]);
        var m :| 0 <= m < |mine| && mine[m] == inner[j];
        assert rows[m] == inner[j];
      }
    }
  }

  lemma RootMatches(inner: seq<Event>, e: Event, kids: seq<Tree>, lo: Id, hi: Id)
    requires e.parent.None? && e.span < lo <= hi
    requires Agrees(e.trace, e.span, inner, kids, lo, hi)
    ensures Matches(e.trace, Kept(InTrace(e.trace), inner) + [e], [Tree(e.span, kids)], e.span, hi)
  {
    var mine := Kept(InTrace(e.trace), inner);
    var p := Under(e.trace, e.span);
    SelectedOfTrace(e.trace, e.span, inner);
    SelectedConcat(p, mine, [e]);
    NothingSelected(p, [e]);
    MatchesInTrace(e.trace, inner, kids, lo, hi);
    assert [] + mine + [e] == mine + [e];
    MatchesExtend(e.trace, [], mine, [e], kids, lo, hi, e.span, hi);
    assert Matches(e.trace, mine + [e], [], e.span, hi);
  }

  lemma TurnRebuilds(inner: seq<Event>, e: Event, kids: seq<Tree>, lo: Id, hi: Id)
    requires e.parent.None? && e.span < lo <= hi
    requires Attached(inner, e.trace, e.span) && Agrees(e.trace, e.span, inner, kids, lo, hi)
    ensures var rows := Kept(InTrace(e.trace), inner) + [e];
            Ranked(rows, Born()) && Forest(rows, Born()) == [Tree(e.span, kids)] && OrphanIds(rows) == []
              && RootIds(rows) == [e.span]
  {
    var mine := Kept(InTrace(e.trace), inner);
    var rows := mine + [e];
    RowsOfTurn(inner, e, mine, rows);
    forall i | 0 <= i < |rows|
      ensures !Orphaned(IdSet(rows))(rows[i])
      ensures i < |mine| ==> mine[i] == rows[i] && !Unparented(IdSet(rows))(mine[i])
    {
      assert i == |mine| ==> rows[i] == e;
    }
    NothingSelected(Orphaned(IdSet(rows)), rows);
    var p := Unparented(IdSet(rows));
    NothingSelected(p, mine);
    assert rows[..|rows| - 1] == mine;
    assert RootIds(rows) == [e.span];
    RootMatches(inner, e, kids, lo, hi);
    var ts := [Tree(e.span, kids)];
    assert Tops(ts) == [e.span];
    RootsAreRows(rows);
    UnfoldIsNesting(rows, Born(), e.trace, ts, e.span, hi);
  }

  /** For every program of nested spans, exceptions, inner sessions and nested spans that pass a trace
      context of their own included: the emitted events of its trace rebuild into one tree, and that
      tree is the nesting of the blocks that ran. */
  lemma ProgramRebuilds(b: Block, scope: Vars, next: Id)
    requires b.InSpan? && LocalBlock(b, false) && scope.trace.None? && scope.parent.None?
    ensures var rows := Kept(InTrace(OpenSpan(scope, None, None, next).rec.trace), LexicalBlock(b, scope, next).events);
            && Ranked(rows, Born())
            && Forest(rows, Born()) == NestBlock(b, scope, next)
            && OrphanIds(rows) == [] && |RootIds(rows)| == 1
  {
    var o := OpenSpan(scope, None, None, next);
    var inner := Lexical(b.body, o.inside, o.next);
    var e := Project(o.rec, b.kind, b.ts, b.notes, inner.raised);
    EventsWithin(b.body, o.inside, o.next);
    NestMatches(b.body, o.inside, o.next);
    ProgramAttached(b.body, o.inside, o.next);
    KeptConcat(InTrace(e.trace), inner.events, [e]);
    assert Kept(InTrace(e.trace), [e]) == [e];
    TurnRebuilds(inner.events, e, Nest(b.body, o.inside, o.next), o.next, inner.next);
  }

  lemma RankedPermuted(rows: seq<Event>, rows': seq<Event>, rank: Id -> nat)
    requires multiset(rows) == multiset(rows') && Ranked(rows, rank)
    ensures Ranked(rows', rank)
  {
    IdSetPermuted(rows, rows');
    forall i | 0 <= i < |rows'| && rows'[i].parent.Some? && rows'[i].parent.value in IdSet(rows')
      ensures rank(rows'[i].parent.value) < rank(rows'[i].span)
    {
      assert rows'[i] in multiset(rows);
      var j :| 0 <= j < |rows| && rows[j] == rows'[i];
    }
  }

  lemma SingletonPermuted<A>(xs: seq<A>, ys: seq<A>)
    requires |xs| == 1 && multiset(xs) == multiset(ys)
    ensures xs == ys
  {
    assert |multiset(ys)| == 1;
    assert ys[0] in multiset(xs);
  }

  /** Read back in any order, those events rebuild the same tree up to the order of siblings: the
      same single root, no orphan, and under each span the spans that its block directly opened. */
  lemma ProgramRebuildsInAnyOrder(b: Block, scope: Vars, next: Id, rows': seq<Event>, id: Id)
    requires b.InSpan? && LocalBlock(b, false) && scope.trace.None? && scope.parent.None?
    requires multiset(rows')
             == multiset(Kept(InTrace(OpenSpan(scope, None, None, next).rec.trace),
             LexicalBlock(b, scope, next).events))
    ensures var rows := Kept(InTrace(OpenSpan(scope, None, None, next).rec.trace), LexicalBlock(b, scope, next).events);
            && Ranked(rows, Born()) && Forest(rows, Born()) == NestBlock(b, scope, next)
            && Ranked(rows', Born()) && OrphanIds(rows') == [] && RootIds(rows') == RootIds(rows)
            && multiset(ChildIds(rows', id)) == multiset(ChildIds(rows, id))
  {
    hide *;
    var rows := Kept(InTrace(OpenSpan(scope, None, None, next).rec.trace), LexicalBlock(b, scope, next).events);
    ProgramRebuilds(b, scope, next);
    RankedPermuted(rows, rows', Born());
    RowOrderOnlyOrdersSiblings(rows, rows', id);
    SingletonPermuted(RootIds(rows), RootIds(rows'));
    assert |multiset(OrphanIds(rows'))| == 0;
  }
}
