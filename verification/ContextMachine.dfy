/** Any number of tasks in any number of processes, stepping in any interleaving (services/sdk/telemetry.py). */
module ContextMachine {
  import opened Wrappers
  import opened Telemetry

  /** What the tokens of one `with` block restore; None where the block set nothing. */
  datatype Saved = Saved(session: Option<Option<Id>>, trace: Option<Option<Id>>, parent: Option<Id>)

  function Restore(v: Vars, saved: Saved): Vars {
    Vars(if saved.session.Some? then saved.session.value else v.session,
         if saved.trace.Some? then saved.trace.value else v.trace,
         saved.parent)
  }

  /** An open `with` block. `entry` is a history variable: the context when the block was entered. */
  datatype Frame =
    | SessionFrame(entry: Vars, inside: Vars, saved: Saved)
    | SpanFrame(entry: Vars, inside: Vars, saved: Saved, rec: SpanRecord, kind: EventType, ts: int)

  /** `base` is a history variable: the context it started with. */
  datatype Task = Task(base: Vars, frames: seq<Frame>, vars: Vars)

  /** `spans` is a history of all spans; `sent` the trace contexts ever read for a remote call. */
  datatype State = State(
    tasks: seq<Task>, next: Id, spans: seq<SpanRecord>,
    attempted: seq<Event>, delivered: seq<Event>, sent: set<(Id, Id)>)

  const INIT := State([], 1, [], [], [], {})

  datatype Op =
    | NewProcess
    | Spawn(task: nat)
    | EnterSession(task: nat, sid: Option<Id>)
    | EnterSpan(task: nat, xTrace: Option<Id>, xParent: Option<Id>, kind: EventType, ts: int)
    | Exit(task: nat, notes: Notes, raised: bool, accepted: bool)
    | Send(task: nat)

  function PushSession(t: Task, sid: Option<Id>, next: Id): Task {
    var inside := OpenSession(sid, next).0;
    var saved := Saved(Some(t.vars.session), Some(t.vars.trace), t.vars.parent);
    Task(t.base, t.frames + [SessionFrame(t.vars, inside, saved)], inside)
  }

  function PushSpan(t: Task, o: Opening, kind: EventType, ts: int): Task {
    var saved := Saved(if t.vars.session.None? then Some(None) else None,
      if t.vars.trace.None? then Some(None) else None, t.vars.parent);
    Task(t.base, t.frames + [SpanFrame(t.vars, o.inside, saved, o.rec, kind, ts)], o.inside)
  }

  function Pop(t: Task): Task
    requires t.frames != []
  {
    var n := |t.frames| - 1;
    Task(t.base, t.frames[..n], Restore(t.vars, t.frames[n].saved))
  }

  function Step(s: State, op: Op): State {
    match op
    case NewProcess => s.(tasks := s.tasks + [Task(UNSET, [], UNSET)])
    case Spawn(i) => if i >= |s.tasks| then s else s.(tasks := s.tasks + [Task(s.tasks[i].vars, [], s.tasks[i].vars)])
    case EnterSession(i, sid) =>
      if i >= |s.tasks| then s
      else s.(tasks := s.tasks[i := PushSession(s.tasks[i], sid, s.next)], next := OpenSession(sid, s.next).1)
    case EnterSpan(i, xTrace, xParent, kind, ts) =>
      if i >= |s.tasks| then s
      else
        var o := OpenSpan(s.tasks[i].vars, xTrace, xParent, s.next);
        s.(tasks := s.tasks[i := PushSpan(s.tasks[i], o, kind, ts)], next := o.next, spans := s.spans + [o.rec])
    case Exit(i, notes, raised, accepted) =>
      if i >= |s.tasks| || s.tasks[i].frames == [] then s
      else
        var f := s.tasks[i].frames[|s.tasks[i].frames| - 1];
        var s' := s.(tasks := s.tasks[i := Pop(s.tasks[i])]);
        if f.SessionFrame? then s'
        else
          var e := Project(f.rec, f.kind, f.ts, notes, raised);
          s'.(attempted := s.attempted + [e], delivered := if accepted then s.delivered + [e] else s.delivered)
    case Send(i) =>
      if i >= |s.tasks| || s.tasks[i].vars.trace.None? || s.tasks[i].vars.parent.None? then s
      else s.(sent := s.sent + {(s.tasks[i].vars.trace.value, s.tasks[i].vars.parent.value)})
  }

  function Exec(s: State, ops: seq<Op>): State {
    if ops == [] then s else Step(Exec(s, ops[..|ops| - 1]), ops[|ops| - 1])
  }

  // ----- every context is intact, in every interleaving -----

  /** A trace is set exactly when a parent is, and never outside a session. */
  predicate Coherent(v: Vars) {
    (v.trace.Some? <==> v.parent.Some?) && (v.trace.Some? ==> v.session.Some?)
  }

  ghost predicate FrameOk(f: Frame) {
    && Coherent(f.entry)
    && Restore(f.inside, f.saved) == f.entry
    && match f
       case SessionFrame(_, inside, _) => inside.session.Some? && inside.trace.None? && inside.parent.None?
       case SpanFrame(_, inside, _, rec, _, _) => inside == Vars(Some(rec.session), Some(rec.trace), Some(rec.span))
  }

  /** The context below frame `i`. */
  ghost function Below(t: Task, i: nat): Vars
    requires i <= |t.frames|
  {
    if i == 0 then t.base else t.frames[i - 1].inside
  }

  ghost predicate TaskOk(t: Task) {
    && Coherent(t.base)
    && t.vars == Below(t, |t.frames|)
    && forall i :: 0 <= i < |t.frames| ==> FrameOk(t.frames[i]) && t.frames[i].entry == Below(t, i)
  }

  lemma PopKeepsTaskOk(t: Task)
    requires TaskOk(t) && t.frames != []
    ensures TaskOk(Pop(t)) && Pop(t).vars == t.frames[|t.frames| - 1].entry
  {
    var n := |t.frames| - 1;
    var t' := Pop(t);
    assert t'.vars == t.frames[n].entry by {
      assert FrameOk(t.frames[n]);
    }
    assert t.frames[n].entry == Below(t, n) == Below(t', n);
    forall i | 0 <= i < n
      ensures FrameOk(t'.frames[i]) && t'.frames[i].entry == Below(t', i)
    {
      assert t'.frames[i] == t.frames[i] && Below(t', i) == Below(t, i);
    }
  }

  lemma PushKeepsTaskOk(t: Task, f: Frame)
    requires TaskOk(t) && FrameOk(f) && f.entry == t.vars
    ensures TaskOk(Task(t.base, t.frames + [f], f.inside))
  {
    var t' := Task(t.base, t.frames + [f], f.inside);
    forall i | 0 <= i < |t'.frames|
      ensures FrameOk(t'.frames[i]) && t'.frames[i].entry == Below(t', i)
    {
      if i < |t.frames| {
        assert t.frames[i].entry == Below(t, i);
      }
    }
  }

  ghost predicate TasksOk(s: State) {
    forall i :: 0 <= i < |s.tasks| ==> TaskOk(s.tasks[i])
  }

  lemma TaskOkIsCoherent(t: Task)
    requires TaskOk(t)
    ensures Coherent(t.vars)
  {
    if t.frames != [] {
      assert FrameOk(t.frames[|t.frames| - 1]);
    }
  }

  lemma StepKeepsTasksOk(s: State, op: Op)
    requires TasksOk(s)
    ensures TasksOk(Step(s, op))
  {
    match op
    case NewProcess =>
    case Send(_) =>
    case Spawn(i) =>
      if i < |s.tasks| {
        TaskOkIsCoherent(s.tasks[i]);
      }
    case EnterSession(i, sid) =>
      if i < |s.tasks| {
        TaskOkIsCoherent(s.tasks[i]);
        PushKeepsTaskOk(s.tasks[i], PushSession(s.tasks[i], sid, s.next).frames[|s.tasks[i].frames|]);
      }
    case EnterSpan(i, xTrace, xParent, kind, ts) =>
      if i < |s.tasks| {
        TaskOkIsCoherent(s.tasks[i]);
        var o := OpenSpan(s.tasks[i].vars, xTrace, xParent, s.next);
        PushKeepsTaskOk(s.tasks[i], PushSpan(s.tasks[i], o, kind, ts).frames[|s.tasks[i].frames|]);
      }
    case Exit(i, _, _, _) =>
      if i < |s.tasks| && s.tasks[i].frames != [] {
        PopKeepsTaskOk(s.tasks[i]);
      }
  }

  lemma {:induction false} AllTasksOk(ops: seq<Op>)
    ensures TasksOk(Exec(INIT, ops))
  {
    if ops != [] {
      AllTasksOk(ops[..|ops| - 1]);
      StepKeepsTasksOk(Exec(INIT, ops[..|ops| - 1]), ops[|ops| - 1]);
    }
  }

  /** The span a new span must attach to, read off the open blocks and never off a variable: the
      innermost span since the innermost session, else what it inherited. */
  function Innermost(base: Vars, frames: seq<Frame>): Option<Id> {
    if frames == [] then base.parent
    else
      var top := frames[|frames| - 1];
      if top.SpanFrame? then Some(top.rec.span) else None
  }

  /** In every interleaving, every context is intact: a trace is set exactly when a parent is, the
      parent is the innermost open span, and leaving a block restores what its entry found. */
  lemma ContextsStayIntact(ops: seq<Op>, i: nat)
    requires i < |Exec(INIT, ops).tasks|
    ensures var s := Exec(INIT, ops);
            var t := s.tasks[i];
            && (t.vars.trace.Some? <==> t.vars.parent.Some?)
            && t.vars.parent == Innermost(t.base, t.frames)
            && forall notes, raised, accepted :: t.frames != [] ==>
                 Step(s, Exit(i, notes, raised, accepted)).tasks[i].vars == t.frames[|t.frames| - 1].entry
  {
    AllTasksOk(ops);
    var t := Exec(INIT, ops).tasks[i];
    TaskOkIsCoherent(t);
    if t.frames != [] {
      assert FrameOk(t.frames[|t.frames| - 1]);
      PopKeepsTaskOk(t);
    }
  }

  /** The step is one of task `i`. */
  predicate Moves(op: Op, i: nat) { (op.EnterSession? || op.EnterSpan? || op.Exit?) && op.task == i }

  lemma StepLeavesOthers(s: State, op: Op, i: nat)
    requires i < |s.tasks|
    ensures i < |Step(s, op).tasks| && Step(s, op).tasks[i].base == s.tasks[i].base
    ensures !Moves(op, i) ==> Step(s, op).tasks[i] == s.tasks[i]
  {
  }

  /** However long the other tasks step, a task that takes no step finds its context and its open
      blocks as it left them. */
  lemma {:induction false} TasksAreIsolated(ops: seq<Op>, k: nat, i: nat)
    requires k <= |ops| && i < |Exec(INIT, ops[..k]).tasks|
    requires forall n :: k <= n < |ops| ==> !Moves(ops[n], i)
    ensures i < |Exec(INIT, ops).tasks| && Exec(INIT, ops).tasks[i] == Exec(INIT, ops[..k]).tasks[i]
    decreases |ops|
  {
    hide Step;
    if k == |ops| {
      assert ops[..k] == ops;
    } else {
      var m := |ops| - 1;
      assert ops[..m][..k] == ops[..k];
      TasksAreIsolated(ops[..m], k, i);
      StepLeavesOthers(Exec(INIT, ops[..m]), ops[m], i);
    }
  }

  lemma {:induction false} BaseIsKept(ops: seq<Op>, k: nat, i: nat)
    requires k <= |ops| && i < |Exec(INIT, ops[..k]).tasks|
    ensures i < |Exec(INIT, ops).tasks| && Exec(INIT, ops).tasks[i].base == Exec(INIT, ops[..k]).tasks[i].base
    decreases |ops|
  {
    hide Step;
    if k == |ops| {
      assert ops[..k] == ops;
    } else {
      var m := |ops| - 1;
      assert ops[..m][..k] == ops[..k];
      BaseIsKept(ops[..m], k, i);
      StepLeavesOthers(Exec(INIT, ops[..m]), ops[m], i);
    }
  }

  /** A spawned task keeps the context it was spawned with for good: outside its own blocks its parent
      is the span that was open in its spawner then, even once the spawner has left that span. */
  lemma SpawnedContextIsKept(ops: seq<Op>, k: nat)
    requires k < |ops| && ops[k].Spawn? && ops[k].task < |Exec(INIT, ops[..k]).tasks|
    ensures var before, after := Exec(INIT, ops[..k]).tasks, Exec(INIT, ops).tasks;
            && |before| < |after|
            && after[|before|].vars.parent == Innermost(before[ops[k].task].vars, after[|before|].frames)
  {
    hide Innermost;
    var i := |Exec(INIT, ops[..k]).tasks|;
    assert ops[..k + 1][..k] == ops[..k];
    assert Exec(INIT, ops[..k + 1]) == Step(Exec(INIT, ops[..k]), ops[k]);
    BaseIsKept(ops, k + 1, i);
    ContextsStayIntact(ops, i);
  }
}
