/** How often a span id occurs among spans opened, events emitted and blocks open.

    Counts over the histories of services/sdk/telemetry.py, and how they change when one task or
    one event does. */
module SpanCounts {
  import opened Telemetry
  import opened ContextMachine

  function CountSpans(spans: seq<SpanRecord>, x: Id): nat {
    if spans == [] then 0
    else CountSpans(spans[..|spans| - 1], x) + if spans[|spans| - 1].span == x then 1 else 0
  }

  function CountEvents(events: seq<Event>, x: Id): nat {
    if events == [] then 0
    else CountEvents(events[..|events| - 1], x) + if events[|events| - 1].span == x then 1 else 0
  }

  function CountFrames(frames: seq<Frame>, x: Id): nat {
    if frames == [] then 0
    else
      var f := frames[|frames| - 1];
      CountFrames(frames[..|frames| - 1], x) + if f.SpanFrame? && f.rec.span == x then 1 else 0
  }

  /** In how many open blocks, over all tasks, span `x` is. */
  function CountOpen(tasks: seq<Task>, x: Id): nat {
    if tasks == [] then 0
    else CountOpen(tasks[..|tasks| - 1], x) + CountFrames(tasks[|tasks| - 1].frames, x)
  }

  lemma {:induction false} CountOpenUpdate(tasks: seq<Task>, i: nat, t: Task, x: Id)
    requires i < |tasks|
    ensures CountOpen(tasks[i := t], x)
            == CountOpen(tasks, x) - CountFrames(tasks[i].frames, x) + CountFrames(t.frames, x)
  {
    var n := |tasks| - 1;
    var tasks' := tasks[i := t];
    if i < n {
      assert tasks'[..n] == tasks[..n][i := t];
      CountOpenUpdate(tasks[..n], i, t, x);
    } else {
      assert tasks'[..n] == tasks[..n];
    }
  }

  lemma CountFramesAppend(frames: seq<Frame>, f: Frame, x: Id)
    ensures CountFrames(frames + [f], x) == CountFrames(frames, x) + if f.SpanFrame? && f.rec.span == x then 1 else 0
  {
    assert (frames + [f])[..|frames|] == frames;
  }

  lemma CountSpansAppend(spans: seq<SpanRecord>, r: SpanRecord, x: Id)
    ensures CountSpans(spans + [r], x) == CountSpans(spans, x) + if r.span == x then 1 else 0
  {
    assert (spans + [r])[..|spans|] == spans;
  }

  lemma CountOpenAppend(tasks: seq<Task>, t: Task, x: Id)
    requires t.frames == []
    ensures CountOpen(tasks + [t], x) == CountOpen(tasks, x)
  {
    assert (tasks + [t])[..|tasks|] == tasks;
  }

  lemma {:induction false} CountOrderedSpans(spans: seq<SpanRecord>, x: Id)
    requires forall i, j :: 0 <= i < j < |spans| ==> spans[i].span < spans[j].span
    ensures CountSpans(spans, x) == if exists i :: 0 <= i < |spans| && spans[i].span == x then 1 else 0
  {
    if spans != [] {
      var n := |spans| - 1;
      CountOrderedSpans(spans[..n], x);
      assert forall i :: 0 <= i < n ==> spans[..n][i] == spans[i];
    }
  }

  lemma {:induction false} CountEventsAtLeast(events: seq<Event>, i: nat, x: Id)
    requires i < |events| && events[i].span == x
    ensures CountEvents(events, x) >= 1
  {
    if i < |events| - 1 {
      CountEventsAtLeast(events[..|events| - 1], i, x);
    }
  }

  lemma {:induction false} CountTwoEvents(events: seq<Event>, i: nat, j: nat)
    requires i < j < |events| && events[i].span == events[j].span
    ensures CountEvents(events, events[i].span) >= 2
  {
    var n := |events| - 1;
    if j < n {
      CountTwoEvents(events[..n], i, j);
    } else {
      CountEventsAtLeast(events[..n], i, events[i].span);
    }
  }

  lemma {:induction false} CountEventsWitness(events: seq<Event>, x: Id)
    requires CountEvents(events, x) >= 1
    ensures exists i :: 0 <= i < |events| && events[i].span == x
  {
    var n := |events| - 1;
    if events[n].span != x {
      CountEventsWitness(events[..n], x);
      var i :| 0 <= i < n && events[..n][i].span == x;
      assert events[i].span == x;
    }
  }

  lemma {:induction false} CountFramesZero(frames: seq<Frame>, x: Id)
    requires forall j :: 0 <= j < |frames| && frames[j].SpanFrame? ==> frames[j].rec.span != x
    ensures CountFrames(frames, x) == 0
  {
    if frames != [] {
      CountFramesZero(frames[..|frames| - 1], x);
    }
  }

  lemma {:induction false} CountOpenZero(tasks: seq<Task>, x: Id)
    requires forall i, j :: 0 <= i < |tasks| && 0 <= j < |tasks[i].frames| && tasks[i].frames[j].SpanFrame? ==>
      tasks[i].frames[j].rec.span != x
    ensures CountOpen(tasks, x) == 0
  {
    if tasks != [] {
      CountOpenZero(tasks[..|tasks| - 1], x);
      CountFramesZero(tasks[|tasks| - 1].frames, x);
    }
  }
}
