/** services/sdk/telemetry.py: sessions and spans over three context variables.

    A context variable is changed by `Set`, which hands back a token, and restored by `Reset`, which
    consumes it. The `with` blocks of the SDK are methods that set on entry and reset on exit; what
    they must achieve is ordinary lexical scoping, stated here by `Lexical`, which passes the scope
    down as an argument and never restores anything. */
module Telemetry {
  import opened Wrappers

  /** Trace, span and session ids. `EMPTY` is the empty string: present, but falsy. */
  type Id = nat
  const EMPTY: Id := 0

  datatype EventType = LlmCall | ToolCall | Retrieval | AgentStep | Gateway | ErrorEvent

  /** The emitted record, reduced to the fields that other components read. */
  datatype Event = Event(
    trace: Id, span: Id, parent: Option<Id>, session: Id, kind: EventType, status: string,
    ts: int, cost: Option<real>, promptTokens: Option<int>, completionTokens: Option<int>)

  /** The values of the three context variables in one execution context. */
  datatype Vars = Vars(session: Option<Id>, trace: Option<Id>, parent: Option<Id>)
  const UNSET := Vars(None, None, None)

  datatype VarName = SessionVar | TraceVar | ParentVar

  function Lookup(v: Vars, name: VarName): Option<Id> {
    match name
    case SessionVar => v.session
    case TraceVar => v.trace
    case ParentVar => v.parent
  }

  function Put(v: Vars, name: VarName, x: Option<Id>): Vars {
    match name
    case SessionVar => v.(session := x)
    case TraceVar => v.(trace := x)
    case ParentVar => v.(parent := x)
  }

  predicate Truthy(x: Option<Id>) {
    x.Some? && x.value != EMPTY
  }

  /** A span as it was opened. `minted` records that this span drew a new trace id. */
  datatype SpanRecord = SpanRecord(trace: Id, span: Id, parent: Option<Id>, session: Id, minted: bool)

  /** What opening a span does: the record, the variables its body sees, the next unused id. */
  datatype Opening = Opening(rec: SpanRecord, inside: Vars, next: Id)

  function OpenSession(sid: Option<Id>, next: Id): (Vars, Id) {
    if Truthy(sid) then (Vars(sid, None, None), next) else (Vars(Some(next), None, None), next + 1)
  }

  function OpenSpan(outside: Vars, xTrace: Option<Id>, xParent: Option<Id>, next: Id): Opening {
    var (session, n1) := if outside.session.Some? then (outside.session.value, next) else (next, next + 1);
    var (trace, parent, minted, n2) :=
      if outside.trace.Some? then (outside.trace.value, outside.parent, false, n1)
      else if Truthy(xTrace) then (xTrace.value, xParent, false, n1)
      else (n1, xParent, true, n1 + 1);
    Opening(SpanRecord(trace, n2, parent, session, minted), Vars(Some(session), Some(trace), Some(n2)), n2 + 1)
  }

  /** What `Span.set` left on a span by the time its body ended. */
  datatype Notes = Notes(status: Option<string>, cost: Option<real>, promptTokens: Option<int>,
    completionTokens: Option<int>)

  function Project(rec: SpanRecord, kind: EventType, ts: int, notes: Notes, raised: bool): Event {
    Event(rec.trace, rec.span, rec.parent, rec.session, kind,
          if raised then "error" else if notes.status.Some? then notes.status.value else "ok",
          ts, notes.cost, notes.promptTokens, notes.completionTokens)
  }

  /** A program against the SDK. `Guard` is a `try` whose `except` swallows the exception. */
  datatype Block =
    | Raise
    | Guard(guarded: seq<Block>)
    | InSession(sid: Option<Id>, scoped: seq<Block>)
    | InSpan(kind: EventType, xTrace: Option<Id>, xParent: Option<Id>, ts: int, notes: Notes, body: seq<Block>)

  datatype Outcome = Outcome(events: seq<Event>, next: Id, raised: bool)

  /** Lexical scoping: the scope is an argument, so leaving a block needs no action at all. */
  function Lexical(blocks: seq<Block>, scope: Vars, next: Id): Outcome
    decreases blocks, 1
  {
    if blocks == [] then Outcome([], next, false)
    else
      var first := LexicalBlock(blocks[0], scope, next);
      if first.raised then first
      else
        var rest := Lexical(blocks[1..], scope, first.next);
        Outcome(first.events + rest.events, rest.next, rest.raised)
  }

  function LexicalBlock(b: Block, scope: Vars, next: Id): Outcome
    decreases b, 0
  {
    match b
    case Raise => Outcome([], next, true)
    case Guard(inner) => Lexical(inner, scope, next).(raised := false)
    case InSession(sid, inner) =>
      var (inside, next') := OpenSession(sid, next);
      Lexical(inner, inside, next')
    case InSpan(kind, xTrace, xParent, ts, notes, inner) =>
      var o := OpenSpan(scope, xTrace, xParent, next);
      var out := Lexical(inner, o.inside, o.next);
      out.(events := out.events + [Project(o.rec, kind, ts, notes, out.raised)])
  }

  /** `contextvars.Token`: good for one `Reset`, in the context that produced it. */
  class Token {
    const owner: Context
    const name: VarName
    const previous: Option<Id>
    var used: bool

    constructor (owner: Context, name: VarName, previous: Option<Id>)
      ensures this.owner == owner && this.name == name && this.previous == previous && !used
    {
      this.owner, this.name, this.previous, used := owner, name, previous, false;
    }
  }

  /** `contextvars.Context`, restricted to the three variables of the SDK. */
  class Context {
    var vars: Vars

    constructor ()
      ensures vars == UNSET
    {
      vars := UNSET;
    }

    /** The copy that `asyncio.Task` creation takes. */
    constructor Copy(other: Context)
      ensures vars == other.vars
    {
      vars := other.vars;
    }

    method Set(name: VarName, x: Option<Id>) returns (token: Token)
      modifies this
      ensures fresh(token) && token.owner == this && token.name == name && !token.used
      ensures token.previous == Lookup(old(vars), name)
      ensures vars == Put(old(vars), name, x)
    {
      token := new Token(this, name, Lookup(vars, name));
      vars := Put(vars, name, x);
    }

    /** Python raises RuntimeError on a used token and ValueError on a foreign one. */
    method Reset(token: Token)
      requires token.owner == this && !token.used
      modifies this, token
      ensures token.used
      ensures vars == Put(old(vars), token.name, token.previous)
    {
      vars := Put(vars, token.name, token.previous);
      token.used := true;
    }
  }

  class IdSource {
    var next: Id

    constructor ()
      ensures next == 1
    {
      next := 1;
    }

    method Fresh() returns (id: Id)
      modifies this
      ensures id == old(next) && next == old(next) + 1
    {
      id := next;
      next := next + 1;
    }
  }

  /** The process-wide emitter. `accepts(n)` is whether its n-th call succeeds. */
  class Emitter {
    const accepts: nat -> bool
    var attempted: seq<Event>
    var delivered: seq<Event>

    constructor (accepts: nat -> bool)
      ensures this.accepts == accepts && attempted == [] && delivered == []
    {
      this.accepts, attempted, delivered := accepts, [], [];
    }

    /** `_emit_event`: a failing emitter is swallowed, never raised. */
    method Emit(e: Event)
      modifies this
      ensures attempted == old(attempted) + [e]
      ensures delivered == if accepts(|old(attempted)|) then old(delivered) + [e] else old(delivered)
    {
      if accepts(|attempted|) {
        delivered := delivered + [e];
      }
      attempted := attempted + [e];
    }
  }

  /** A span in progress: mutable until its block exits. */
  class Span {
    const rec: SpanRecord
    const kind: EventType
    const ts: int
    var status: string
    var cost: Option<real>
    var promptTokens: Option<int>
    var completionTokens: Option<int>

    constructor (rec: SpanRecord, kind: EventType, ts: int)
      ensures this.rec == rec && this.kind == kind && this.ts == ts
      ensures status == "ok" && cost == None && promptTokens == None && completionTokens == None
    {
      this.rec, this.kind, this.ts := rec, kind, ts;
      status, cost, promptTokens, completionTokens := "ok", None, None, None;
    }

    method Set(notes: Notes)
      modifies this
      ensures status == if notes.status.Some? then notes.status.value else old(status)
      ensures cost == notes.cost && promptTokens == notes.promptTokens && completionTokens == notes.completionTokens
    {
      if notes.status.Some? {
        status := notes.status.value;
      }
      cost, promptTokens, completionTokens := notes.cost, notes.promptTokens, notes.completionTokens;
    }

    function ToEvent(): Event
      reads this
    {
      Event(rec.trace, rec.span, rec.parent, rec.session, kind, status, ts, cost, promptTokens, completionTokens)
    }
  }

  /** Runs a program by setting and resetting context variables, exactly as the SDK does. Whatever
      raises, wherever, and whatever the emitter does, the context ends as it began and the calls
      of the emitter are those of lexical scoping. */
  method Run(ctx: Context, ids: IdSource, emitter: Emitter, blocks: seq<Block>) returns (raised: bool)
    modifies ctx, ids, emitter
    ensures ctx.vars == old(ctx.vars)
    ensures var expected := Lexical(blocks, old(ctx.vars), old(ids.next));
            && emitter.attempted == old(emitter.attempted) + expected.events
            && ids.next == expected.next
            && raised == expected.raised
    decreases blocks, 1
  {
    if blocks == [] {
      return false;
    }
    raised := RunBlock(ctx, ids, emitter, blocks[0]);
    if !raised {
      raised := Run(ctx, ids, emitter, blocks[1..]);
    }
  }

  method RunBlock(ctx: Context, ids: IdSource, emitter: Emitter, b: Block) returns (raised: bool)
    modifies ctx, ids, emitter
    ensures ctx.vars == old(ctx.vars)
    ensures var expected := LexicalBlock(b, old(ctx.vars), old(ids.next));
            && emitter.attempted == old(emitter.attempted) + expected.events
            && ids.next == expected.next
            && raised == expected.raised
    decreases b, 0
  {
    match b
    case Raise =>
      raised := true;
    case Guard(inner) =>
      var swallowed := Run(ctx, ids, emitter, inner);
      raised := false;
    case InSession(sid, inner) =>
      raised := RunSession(ctx, ids, emitter, sid, inner);
    case InSpan(kind, xTrace, xParent, ts, notes, inner) =>
      raised := RunSpan(ctx, ids, emitter, b);
  }

  method RunSession(ctx: Context, ids: IdSource, emitter: Emitter, sid: Option<Id>, inner: seq<Block>)
      returns (raised: bool)
    modifies ctx, ids, emitter
    ensures ctx.vars == old(ctx.vars)
    ensures var (inside, next) := OpenSession(sid, old(ids.next));
            var expected := Lexical(inner, inside, next);
            && emitter.attempted == old(emitter.attempted) + expected.events
            && ids.next == expected.next
            && raised == expected.raised
    decreases inner, 2
  {
    var id: Id;
    if Truthy(sid) {
      id := sid.value;
    } else {
      id := ids.Fresh();
    }
    var tokSession := ctx.Set(SessionVar, Some(id));
    var tokTrace := ctx.Set(TraceVar, None);
    var tokParent := ctx.Set(ParentVar, None);
    raised := Run(ctx, ids, emitter, inner);
    ctx.Reset(tokParent);
    ctx.Reset(tokTrace);
    ctx.Reset(tokSession);
  }

  method RunSpan(ctx: Context, ids: IdSource, emitter: Emitter, b: Block) returns (raised: bool)
    requires b.InSpan?
    modifies ctx, ids, emitter
    ensures ctx.vars == old(ctx.vars)
    ensures var expected := LexicalBlock(b, old(ctx.vars), old(ids.next));
            && emitter.attempted == old(emitter.attempted) + expected.events
            && ids.next == expected.next
            && raised == expected.raised
    decreases b.body, 2
  {
    var sp, tokens := EnterSpan(ctx, ids, b.kind, b.xTrace, b.xParent, b.ts);
    sp.Set(b.notes);
    raised := Run(ctx, ids, emitter, b.body);
    if raised {
      sp.status := "error";
    }
    ExitSpan(ctx, tokens, old(ctx.vars));
    emitter.Emit(sp.ToEvent());
  }

  /** The tokens a span holds: null where the span left a variable alone. */
  datatype SpanTokens = SpanTokens(session: Token?, trace: Token?, parent: Token)

  /** Unused, owned by `ctx`, and enough to turn `inside` back into `outside`. */
  ghost predicate Undoes(tokens: SpanTokens, ctx: Context, inside: Vars, outside: Vars)
    reads tokens.session, tokens.trace, tokens.parent
  {
    && tokens.parent.owner == ctx && !tokens.parent.used && tokens.parent.name == ParentVar
    && tokens.parent.previous == outside.parent
    && (if tokens.trace == null then inside.trace == outside.trace
        else tokens.trace.owner == ctx && !tokens.trace.used && tokens.trace.name == TraceVar
             && tokens.trace.previous == outside.trace)
    && (if tokens.session == null then inside.session == outside.session
        else tokens.session.owner == ctx && !tokens.session.used && tokens.session.name == SessionVar
             && tokens.session.previous == outside.session)
  }

  method EnterSpan(ctx: Context, ids: IdSource, kind: EventType, xTrace: Option<Id>, xParent: Option<Id>, ts: int)
    returns (sp: Span, tokens: SpanTokens)
    modifies ctx, ids
    ensures var o := OpenSpan(old(ctx.vars), xTrace, xParent, old(ids.next));
            sp.rec == o.rec && ctx.vars == o.inside && ids.next == o.next
    ensures fresh(sp) && sp.kind == kind && sp.ts == ts && sp.status == "ok"
    ensures fresh(tokens.parent)
    ensures tokens.trace != null ==> fresh(tokens.trace)
    ensures tokens.session != null ==> fresh(tokens.session)
    ensures Undoes(tokens, ctx, ctx.vars, old(ctx.vars))
  {
    var tokSession: Token?, tokTrace: Token? := null, null;
    var session := ctx.vars.session;
    if session.None? {
      var id := ids.Fresh();
      session := Some(id);
      tokSession := ctx.Set(SessionVar, session);
    }
    var trace: Id, parent: Option<Id>, minted := EMPTY, None, false;
    if ctx.vars.trace.None? {
      if Truthy(xTrace) {
        trace := xTrace.value;
      } else {
        trace := ids.Fresh();
        minted := true;
      }
      tokTrace := ctx.Set(TraceVar, Some(trace));
      parent := xParent;
    } else {
      trace, parent := ctx.vars.trace.value, ctx.vars.parent;
    }
    var spanId := ids.Fresh();
    sp := new Span(SpanRecord(trace, spanId, parent, session.value, minted), kind, ts);
    var tokParent := ctx.Set(ParentVar, Some(spanId));
    tokens := SpanTokens(tokSession, tokTrace, tokParent);
  }

  method ExitSpan(ctx: Context, tokens: SpanTokens, ghost outside: Vars)
    requires Undoes(tokens, ctx, ctx.vars, outside)
    modifies ctx, tokens.parent, tokens.trace, tokens.session
    ensures ctx.vars == outside
  {
    ctx.Reset(tokens.parent);
    if tokens.trace != null {
      ctx.Reset(tokens.trace);
    }
    if tokens.session != null {
      ctx.Reset(tokens.session);
    }
  }
}
