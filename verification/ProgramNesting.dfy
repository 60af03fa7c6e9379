/** A sequential program of nested spans, and what its events say of its blocks.

    The nesting of the blocks as a list of trees; and block by block, that the events emitted link
    exactly as the blocks are nested, whatever is raised and whatever else is emitted before and
    after. */
module ProgramNesting {
  import opened Wrappers
  import opened Aggregates
  import opened Telemetry
  import opened TraceTree
  import opened TraceForest
  import opened TraceProtocol

  /** Only a span that has a trace in scope may pass an explicit trace context, which it then ignores. */
  predicate Local(blocks: seq<Block>, inTrace: bool)
    decreases blocks, 1
  {
    blocks == [] || (LocalBlock(blocks[0], inTrace) && Local(blocks[1..], inTrace))
  }

  predicate LocalBlock(b: Block, inTrace: bool)
    decreases b, 0
  {
    match b
    case Raise => true
    case Guard(inner) => Local(inner, inTrace)
    case InSession(_, inner) => Local(inner, false)
    case InSpan(_, xTrace, xParent, _, _, inner) => (inTrace || (xTrace.None? && xParent.None?)) && Local(inner, true)
  }

  /** The spans that actually ran in the trace in scope, nested as their blocks are. A session
      clears the trace, so spans inside one belong to other traces. */
  function Nest(blocks: seq<Block>, scope: Vars, next: Id): seq<Tree>
    decreases blocks, 1
  {
    if blocks == [] then []
    else
      var first := LexicalBlock(blocks[0], scope, next);
      NestBlock(blocks[0], scope, next) + if first.raised then [] else Nest(blocks[1..], scope, first.next)
  }

  function NestBlock(b: Block, scope: Vars, next: Id): seq<Tree>
    decreases b, 0
  {
    match b
    case Raise => []
    case Guard(inner) => Nest(inner, scope, next)
    case InSession(_, _) => []
    case InSpan(_, xTrace, xParent, _, _, inner) =>
      var o := OpenSpan(scope, xTrace, xParent, next);
      [Tree(o.rec.span, Nest(inner, o.inside, o.next))]
  }

  // ----- what the events of a program look like -----

  /** `e` was emitted by a span opened between ids `lo` and `hi`, in or below `scope`. */
  ghost predicate Within(e: Event, scope: Vars, lo: Id, hi: Id) {
    && lo <= e.span < hi
    && (lo <= e.trace < hi || scope.trace == Some(e.trace))
    && (e.parent.None? || lo <= e.parent.value < hi || (e.parent == scope.parent && scope.trace == Some(e.trace)))
  }

  ghost predicate AllWithin(events: seq<Event>, scope: Vars, lo: Id, hi: Id) {
    forall i :: 0 <= i < |events| ==> Within(events[i], scope, lo, hi)
  }

  /** A trace is in scope exactly when a parent is. */
  ghost predicate Scoped(scope: Vars) {
    scope.trace.Some? <==> scope.parent.Some?
  }

  lemma {:induction false} EventsWithin(blocks: seq<Block>, scope: Vars, next: Id)
    requires Local(blocks, scope.trace.Some?) && Scoped(scope)
    ensures var out := Lexical(blocks, scope, next);
            next <= out.next && AllWithin(out.events, scope, next, out.next)
    decreases blocks, 1
  {
    if blocks != [] {
      var first := LexicalBlock(blocks[0], scope, next);
      BlockEventsWithin(blocks[0], scope, next);
      if !first.raised {
        EventsWithin(blocks[1..], scope, first.next);
      }
    }
  }

  lemma {:induction false} BlockEventsWithin(b: Block, scope: Vars, next: Id)
    requires LocalBlock(b, scope.trace.Some?) && Scoped(scope)
    ensures var out := LexicalBlock(b, scope, next);
            next <= out.next && AllWithin(out.events, scope, next, out.next)
    decreases b, 0
  {
    match b
    case Raise =>
    case Guard(inner) => EventsWithin(inner, scope, next);
    case InSession(sid, inner) =>
      var (inside, next') := OpenSession(sid, next);
      EventsWithin(inner, inside, next');
    case InSpan(_, xTrace, xParent, _, _, inner) =>
      var o := OpenSpan(scope, xTrace, xParent, next);
      EventsWithin(inner, o.inside, o.next);
  }

  // ----- children, in one trace -----

  function Under(trace: Id, id: Id): Event -> bool { (e: Event) => e.trace == trace && e.parent == Some(id) }

  function Tops(ts: seq<Tree>): seq<Id> {
    if ts == [] then [] else [ts[0].id] + Tops(ts[1..])
  }

  lemma {:induction false} TopsConcat(ts: seq<Tree>, us: seq<Tree>)
    ensures Tops(ts + us) == Tops(ts) + Tops(us)
  {
    if ts == [] {
      assert ts + us == us;
    } else {
      assert (ts + us)[1..] == ts[1..] + us;
      TopsConcat(ts[1..], us);
    }
  }

  lemma {:induction false} SelectedConcat(p: Event -> bool, xs: seq<Event>, ys: seq<Event>)
    ensures Selected(p, xs + ys) == Selected(p, xs) + Selected(p, ys)
  {
    if ys == [] {
      assert xs + ys == xs;
    } else {
      assert (xs + ys)[..|xs + ys| - 1] == xs + ys[..|ys| - 1];
      SelectedConcat(p, xs, ys[..|ys| - 1]);
    }
  }

  /** Every node of `ts` has an id in the range, and its kids are what the events say. */
  ghost predicate Matches(trace: Id, events: seq<Event>, ts: seq<Tree>, lo: Id, hi: Id)
    decreases ts
  {
    ts == [] ||
    (&& lo <= ts[0].id < hi
     && Selected(Under(trace, ts[0].id), events) == Tops(ts[0].kids)
     && Matches(trace, events, ts[0].kids, lo, hi)
     && Matches(trace, events, ts[1..], lo, hi))
  }

  lemma {:induction false} MatchesConcat(trace: Id, events: seq<Event>, ts: seq<Tree>, us: seq<Tree>, lo: Id, hi: Id)
    requires Matches(trace, events, ts, lo, hi) && Matches(trace, events, us, lo, hi)
    ensures Matches(trace, events, ts + us, lo, hi)
    decreases |ts|
  {
    if ts == [] {
      assert ts + us == us;
    } else {
      assert (ts + us)[1..] == ts[1..] + us;
      MatchesConcat(trace, events, ts[1..], us, lo, hi);
    }
  }

  /** Events that no node of the range can claim change nothing, before or after. */
  ghost predicate Foreign(trace: Id, events: seq<Event>, lo: Id, hi: Id) {
    forall i :: 0 <= i < |events| && events[i].trace == trace && events[i].parent.Some? ==>
      !(lo <= events[i].parent.value < hi)
  }

  lemma {:induction false} MatchesExtend(trace: Id, before: seq<Event>, events: seq<Event>, after: seq<Event>,
      ts: seq<Tree>, lo: Id, hi: Id, lo': Id, hi': Id)
    requires Matches(trace, events, ts, lo, hi) && lo' <= lo && hi <= hi'
    requires Foreign(trace, before, lo, hi) && Foreign(trace, after, lo, hi)
    ensures Matches(trace, before + events + after, ts, lo', hi')
    decreases ts
  {
    if ts != [] {
      var p := Under(trace, ts[0].id);
      NothingSelected(p, before);
      NothingSelected(p, after);
      SelectedConcat(p, before + events, after);
      SelectedConcat(p, before, events);
      MatchesExtend(trace, before, events, after, ts[0].kids, lo, hi, lo', hi');
      MatchesExtend(trace, before, events, after, ts[1..], lo, hi, lo', hi');
    }
  }

  /** `events` and `ts` agree: the tops hang under `parent`, everything else under its own node. */
  ghost predicate Agrees(trace: Id, parent: Id, events: seq<Event>, ts: seq<Tree>, lo: Id, hi: Id) {
    && Selected(Under(trace, parent), events) == Tops(ts)
    && Matches(trace, events, ts, lo, hi)
  }

  /** What a block emits is foreign to the ids of any other block. */
  lemma WithinIsForeign(events: seq<Event>, scope: Vars, lo: Id, hi: Id, lo': Id, hi': Id)
    requires scope.trace.Some? && scope.parent.Some? && AllWithin(events, scope, lo, hi)
    requires scope.parent.value < lo' && (hi <= lo' || hi' <= lo)
    ensures Foreign(scope.trace.value, events, lo', hi')
  {
  }

  lemma AgreesJoin(scope: Vars, mine: seq<Event>, theirs: seq<Event>, ts: seq<Tree>, us: seq<Tree>, lo: Id, mid: Id,
      hi: Id)
    requires scope.trace.Some? && scope.parent.Some? && scope.trace.value < lo && scope.parent.value < lo <= mid <= hi
    requires AllWithin(mine, scope, lo, mid) && AllWithin(theirs, scope, mid, hi)
    requires Agrees(scope.trace.value, scope.parent.value, mine, ts, lo, mid)
    requires Agrees(scope.trace.value, scope.parent.value, theirs, us, mid, hi)
    ensures Agrees(scope.trace.value, scope.parent.value, mine + theirs, ts + us, lo, hi)
  {
    hide Selected, Tops, Matches, AllWithin, Foreign;
    var trace, both := scope.trace.value, mine + theirs;
    SelectedConcat(Under(trace, scope.parent.value), mine, theirs);
    TopsConcat(ts, us);
    WithinIsForeign(theirs, scope, mid, hi, lo, mid);
    WithinIsForeign(mine, scope, lo, mid, mid, hi);
    NothingIsForeign(trace, lo, mid);
    NothingIsForeign(trace, mid, hi);
    MatchesExtend(trace, [], mine, theirs, ts, lo, mid, lo, hi);
    MatchesExtend(trace, mine, theirs, [], us, mid, hi, lo, hi);
    assert [] + mine + theirs == both && mine + theirs + [] == both;
    MatchesConcat(trace, both, ts, us, lo, hi);
  }

  lemma NothingIsForeign(trace: Id, lo: Id, hi: Id)
    ensures Foreign(trace, [], lo, hi)
  {
  }

  lemma AgreesEnclose(scope: Vars, inner: seq<Event>, e: Event, kids: seq<Tree>, lo: Id, hi: Id)
    requires scope.trace.Some? && scope.parent.Some? && scope.parent.value < lo <= e.span < hi
    requires e.trace == scope.trace.value && e.parent == scope.parent
    requires AllWithin(inner, Vars(scope.session, scope.trace, Some(e.span)), e.span + 1, hi)
    requires Agrees(e.trace, e.span, inner, kids, e.span + 1, hi)
    ensures Agrees(e.trace, scope.parent.value, inner + [e], [Tree(e.span, kids)], lo, hi)
  {
    hide Selected, Matches, Foreign, AllWithin;
    var trace, events := e.trace, inner + [e];
    EnclosedSelections(scope, inner, e, hi);
    NothingIsForeign(trace, e.span + 1, hi);
    EnclosingIsForeign(e, hi);
    MatchesExtend(trace, [], inner, [e], kids, e.span + 1, hi, lo, hi);
    assert [] + inner + [e] == events;
    OneMatches(trace, events, e.span, kids, lo, hi);
  }

  lemma EnclosingIsForeign(e: Event, hi: Id)
    requires e.parent.Some? && e.parent.value < e.span
    ensures Foreign(e.trace, [e], e.span + 1, hi)
  {
  }

  /** The enclosing span's own event comes under its parent alone, and nothing else inside does. */
  lemma EnclosedSelections(scope: Vars, inner: seq<Event>, e: Event, hi: Id)
    requires scope.trace.Some? && scope.parent.Some? && scope.parent.value < e.span
    requires e.trace == scope.trace.value && e.parent == scope.parent
    requires AllWithin(inner, Vars(scope.session, scope.trace, Some(e.span)), e.span + 1, hi)
    ensures Selected(Under(e.trace, scope.parent.value), inner + [e]) == [e.span]
    ensures Selected(Under(e.trace, e.span), inner + [e]) == Selected(Under(e.trace, e.span), inner)
  {
    NothingSelected(Under(e.trace, scope.parent.value), inner);
    assert (inner + [e])[..|inner|] == inner;
  }

  lemma OneMatches(trace: Id, events: seq<Event>, id: Id, kids: seq<Tree>, lo: Id, hi: Id)
    requires lo <= id < hi && Selected(Under(trace, id), events) == Tops(kids) && Matches(trace, events, kids, lo, hi)
    ensures Matches(trace, events, [Tree(id, kids)], lo, hi) && Tops([Tree(id, kids)]) == [id]
  {
    assert Matches(trace, events, [], lo, hi);
    assert [Tree(id, kids)][1..] == [];
  }

  /** Under the span in scope hang exactly the program's own spans, nested as written. */
  lemma {:induction false} NestMatches(blocks: seq<Block>, scope: Vars, next: Id)
    requires Local(blocks, scope.trace.Some?) && scope.trace.Some? && scope.parent.Some?
    requires scope.trace.value < next && scope.parent.value < next
    ensures var out := Lexical(blocks, scope, next);
            Agrees(scope.trace.value, scope.parent.value, out.events, Nest(blocks, scope, next), next, out.next)
    decreases blocks, 1
  {
    if blocks != [] {
      var first := LexicalBlock(blocks[0], scope, next);
      var mine := NestBlock(blocks[0], scope, next);
      BlockNestMatches(blocks[0], scope, next);
      if first.raised {
        assert mine + [] == mine;
      } else {
        BlockEventsWithin(blocks[0], scope, next);
        EventsWithin(blocks[1..], scope, first.next);
        NestMatches(blocks[1..], scope, first.next);
        var rest := Lexical(blocks[1..], scope, first.next);
        AgreesJoin(scope, first.events, rest.events, mine, Nest(blocks[1..], scope, first.next), next, first.next,
          rest.next);
      }
    }
  }

  lemma {:induction false} BlockNestMatches(b: Block, scope: Vars, next: Id)
    requires LocalBlock(b, scope.trace.Some?) && scope.trace.Some? && scope.parent.Some?
    requires scope.trace.value < next && scope.parent.value < next
    ensures var out := LexicalBlock(b, scope, next);
            Agrees(scope.trace.value, scope.parent.value, out.events, NestBlock(b, scope, next), next, out.next)
    decreases b, 0
  {
    match b
    case Raise =>
    case Guard(inner) => NestMatches(inner, scope, next);
    case InSession(sid, inner) =>
      var (inside, next') := OpenSession(sid, next);
      EventsWithin(inner, inside, next');
      NothingSelected(Under(scope.trace.value, scope.parent.value), LexicalBlock(b, scope, next).events);
    case InSpan(kind, xTrace, xParent, ts, notes, inner) =>
      var o := OpenSpan(scope, xTrace, xParent, next);
      var out := Lexical(inner, o.inside, o.next);
      EventsWithin(inner, o.inside, o.next);
      NestMatches(inner, o.inside, o.next);
      AgreesEnclose(scope.(session := o.inside.session), out.events, Project(o.rec, kind, ts, notes, out.raised),
        Nest(inner, o.inside, o.next), next, out.next);
  }

  // ----- the rebuilt tree -----

  lemma {:induction false} UnfoldIsNesting(rows: seq<Event>, rank: Id -> nat, trace: Id, ts: seq<Tree>, lo: Id, hi: Id)
    requires Ranked(rows, rank) && Rows(rows, Tops(ts))
    requires forall i :: 0 <= i < |rows| ==> rows[i].trace == trace
    requires Matches(trace, rows, ts, lo, hi)
    ensures Unfold(rows, rank, Tops(ts)) == ts
    decreases ts
  {
    if ts != [] {
      SameSelection(Under(trace, ts[0].id), ParentIs(ts[0].id), rows);
      assert Tops(ts)[0] == ts[0].id;
      ChildrenAreDeeper(rows, rank, ts[0].id);
      UnfoldIsNesting(rows, rank, trace, ts[0].kids, lo, hi);
      assert Tops(ts)[1..] == Tops(ts[1..]);
      assert Rows(rows, Tops(ts[1..]));
      UnfoldIsNesting(rows, rank, trace, ts[1..], lo, hi);
      assert ts == [Tree(ts[0].id, ts[0].kids)] + ts[1..];
    }
  }

  lemma {:induction false} SameSelection(p: Event -> bool, q: Event -> bool, rows: seq<Event>)
    requires forall i :: 0 <= i < |rows| ==> p(rows[i]) == q(rows[i])
    ensures Selected(p, rows) == Selected(q, rows)
  {
    if rows != [] {
      SameSelection(p, q, rows[..|rows| - 1]);
    }
  }

  lemma {:induction false} SelectedOfTrace(trace: Id, id: Id, events: seq<Event>)
    ensures Selected(Under(trace, id), Kept(InTrace(trace), events)) == Selected(Under(trace, id), events)
  {
    if events != [] {
      assert events == [events[0]] + events[1..];
      var p := Under(trace, id);
      SelectedOfTrace(trace, id, events[1..]);
      SelectedConcat(p, [events[0]], events[1..]);
      if events[0].trace == trace {
        SelectedConcat(p, [events[0]], Kept(InTrace(trace), events[1..]));
      } else {
        NothingSelected(p, [events[0]]);
        assert [] + Kept(InTrace(trace), events[1..]) == Kept(InTrace(trace), events[1..]);
      }
    }
  }

  lemma {:induction false} MatchesInTrace(trace: Id, events: seq<Event>, ts: seq<Tree>, lo: Id, hi: Id)
    requires Matches(trace, events, ts, lo, hi)
    ensures Matches(trace, Kept(InTrace(trace), events), ts, lo, hi)
    decreases ts
  {
    if ts != [] {
      SelectedOfTrace(trace, ts[0].id, events);
      MatchesInTrace(trace, events, ts[0].kids, lo, hi);
      MatchesInTrace(trace, events, ts[1..], lo, hi);
    }
  }

  /** In one trace, every parent is older than its child and either in scope or emitted too. */
  ghost predicate Attached(events: seq<Event>, trace: Id, parent: Id) {
    forall i :: 0 <= i < |events| && events[i].trace == trace ==>
      && events[i].parent.Some? && events[i].parent.value < events[i].span
      && (events[i].parent.value == parent || HasSpan(events, trace, events[i].parent.value))
  }

  ghost predicate HasSpan(events: seq<Event>, trace: Id, span: Id) {
    exists j :: 0 <= j < |events| && events[j].trace == trace && events[j].span == span
  }

  lemma AttachedConcat(xs: seq<Event>, ys: seq<Event>, trace: Id, parent: Id)
    requires Attached(xs, trace, parent) && Attached(ys, trace, parent)
    ensures Attached(xs + ys, trace, parent)
  {
    forall i | 0 <= i < |xs + ys| && (xs + ys)[i].trace == trace && (xs + ys)[i].parent != Some(parent)
      ensures HasSpan(xs + ys, trace, (xs + ys)[i].parent.value)
    {
      if i < |xs| {
        var j :| 0 <= j < |xs| && xs[j].trace == trace && xs[j].span == xs[i].parent.value;
        assert (xs + ys)[j] == xs[j];
      } else {
        var j :| 0 <= j < |ys| && ys[j].trace == trace && ys[j].span == ys[i - |xs|].parent.value;
        assert (xs + ys)[|xs| + j] == ys[j];
      }
    }
  }

  lemma AttachedEnclose(inner: seq<Event>, e: Event, parent: Id)
    requires Attached(inner, e.trace, e.span) && e.parent == Some(parent) && parent < e.span
    ensures Attached(inner + [e], e.trace, parent)
  {
    var events := inner + [e];
    assert events[|inner|] == e;
    forall i | 0 <= i < |inner| && inner[i].trace == e.trace
      ensures HasSpan(events, e.trace, inner[i].parent.value)
    {
      if inner[i].parent.value != e.span {
        var j :| 0 <= j < |inner| && inner[j].trace == e.trace && inner[j].span == inner[i].parent.value;
        assert events[j] == inner[j];
      }
    }
  }

  lemma {:induction false} ProgramAttached(blocks: seq<Block>, scope: Vars, next: Id)
    requires Local(blocks, scope.trace.Some?) && scope.trace.Some? && scope.parent.Some?
    requires scope.trace.value < next && scope.parent.value < next
    ensures Attached(Lexical(blocks, scope, next).events, scope.trace.value, scope.parent.value)
    decreases blocks, 1
  {
    if blocks != [] {
      var first := LexicalBlock(blocks[0], scope, next);
      BlockAttached(blocks[0], scope, next);
      if !first.raised {
        BlockEventsWithin(blocks[0], scope, next);
        ProgramAttached(blocks[1..], scope, first.next);
        AttachedConcat(first.events, Lexical(blocks[1..], scope, first.next).events, scope.trace.value,
          scope.parent.value);
      }
    }
  }

  lemma {:induction false} BlockAttached(b: Block, scope: Vars, next: Id)
    requires LocalBlock(b, scope.trace.Some?) && scope.trace.Some? && scope.parent.Some?
    requires scope.trace.value < next && scope.parent.value < next
    ensures Attached(LexicalBlock(b, scope, next).events, scope.trace.value, scope.parent.value)
    decreases b, 0
  {
    match b
    case Raise =>
    case Guard(inner) => ProgramAttached(inner, scope, next);
    case InSession(sid, inner) =>
      var (inside, next') := OpenSession(sid, next);
      EventsWithin(inner, inside, next');
    case InSpan(kind, xTrace, xParent, ts, notes, inner) =>
      var o := OpenSpan(scope, xTrace, xParent, next);
      var out := Lexical(inner, o.inside, o.next);
      ProgramAttached(inner, o.inside, o.next);
      AttachedEnclose(out.events, Project(o.rec, kind, ts, notes, out.raised), scope.parent.value);
  }
}
