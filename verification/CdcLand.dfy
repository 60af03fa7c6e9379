/** scripts/cdc_land.py: an at-least-once lander between a changelog topic and a table. */
module CdcLand {
  import opened Wrappers
  import opened Aggregates

  // The topic's partitions are logs, and an offset is a position in its log. A run is driven by the
  // sequence of things that happen to it: deliveries, timeouts, records appended meanwhile, effects
  // that complete. Where the sequence ends, or says `Crash`, the process is gone.

  datatype OpCode = Create | Update | Delete | Snapshot | Truncate | Message

  /** A row image; `body` stands for all columns but the primary key. */
  datatype Image = Image(id: Option<int>, body: string)

  datatype Envelope = Envelope(op: OpCode, before: Option<Image>, after: Option<Image>, lsn: Option<int>)

  /** `value` is None for a tombstone. */
  datatype Record = Record(key: Option<int>, value: Option<Envelope>)

  datatype Row = Row(op: OpCode, lsn: Option<int>, id: int, body: string, partition: nat, offset: nat, ingest: int)

  datatype Reason = Tombstone | ForeignOp(op: OpCode) | NoImage(op: OpCode)

  datatype Parsed = Values(row: Row) | Skipped(reason: Reason)

  predicate IsRowOp(op: OpCode) {
    op == Create || op == Update || op == Delete || op == Snapshot
  }

  function EnvelopeToValues(value: Option<Envelope>, partition: nat, offset: nat, ingest: int): Parsed {
    if value.None? then Skipped(Tombstone)
    else
      var envelope := value.value;
      if !IsRowOp(envelope.op) then Skipped(ForeignOp(envelope.op))
      else
        var image := if envelope.op != Delete then envelope.after else envelope.before;
        if image.None? || image.value.id.None? then Skipped(NoImage(envelope.op))
        else Values(Row(envelope.op, envelope.lsn, image.value.id.value, image.value.body, partition, offset, ingest))
  }

  /** A record that becomes a row. */
  predicate RowBearing(r: Record) {
    EnvelopeToValues(r.value, 0, 0, 0).Values?
  }

  // ----- the world: topic, consumer group, table -----

  datatype World = World(topic: seq<seq<Record>>, committed: seq<int>, table: seq<Row>)

  ghost predicate WorldOk(w: World) {
    |w.committed| == |w.topic| && forall p :: 0 <= p < |w.topic| ==> -1 <= w.committed[p] <= |w.topic[p]|
  }

  function Append(w: World, p: nat, r: Record): World {
    if p < |w.topic| then w.(topic := w.topic[p := w.topic[p] + [r]]) else w
  }

  ghost predicate Lands(row: Row, w: World, p: nat, o: nat) {
    && p < |w.topic| && o < |w.topic[p]|
    && EnvelopeToValues(w.topic[p][o].value, p, o, row.ingest) == Values(row)
  }

  /** Record `o` of partition `p` is in `rows`. */
  ghost predicate Has(rows: seq<Row>, w: World, p: nat, o: nat) {
    exists i :: 0 <= i < |rows| && Lands(rows[i], w, p, o)
  }

  /** Every row-bearing record below `limit` in partition `p` is in the table or in `rows`. */
  ghost predicate CoveredBelow(w: World, rows: seq<Row>, p: nat, limit: int)
    requires p < |w.topic|
  {
    forall o :: 0 <= o < limit && o < |w.topic[p]| && RowBearing(w.topic[p][o]) ==>
      Has(w.table, w, p, o) || Has(rows, w, p, o)
  }

  /** Nothing below a committed offset is missing. */
  ghost predicate Covered(w: World)
    requires |w.committed| == |w.topic|
  {
    forall p :: 0 <= p < |w.topic| ==> CoveredBelow(w, [], p, w.committed[p])
  }

  /** Every row came from the record its provenance columns name. */
  ghost predicate Sound(w: World, rows: seq<Row>) {
    forall i :: 0 <= i < |rows| ==> Lands(rows[i], w, rows[i].partition, rows[i].offset)
  }

  predicate Refused(w: World) {
    w.table == [] && exists p :: 0 <= p < |w.committed| && w.committed[p] > 0
  }

  // ----- one run, step by step -----

  datatype Happening =
    | Deliver(partition: nat) | Eof | PollError | Timeout
    | Appended(partition: nat, record: Record) | Proceed | Crash

  datatype Phase = Polling | Inserting | Committing | LastInsert | LastCommit | Finished | Dead

  /** The local state of `cmd_land`. The count dictionaries are multisets. */
  datatype Run = Run(phase: Phase, start: seq<nat>, pos: seq<nat>, rows: seq<Row>, byOp: multiset<OpCode>,
    skipped: multiset<Reason>)

  function Start(committed: seq<int>): (pos: seq<nat>)
    ensures |pos| == |committed|
    ensures forall p :: 0 <= p < |pos| ==> pos[p] == if committed[p] > 0 then committed[p] else 0
  {
    seq(|committed|, p requires 0 <= p < |committed| => if committed[p] > 0 then committed[p] else 0)
  }

  function Begin(w: World): Run {
    Run(Polling, Start(w.committed), Start(w.committed), [], multiset{}, multiset{})
  }

  /** `consumer.commit()`: the position of every partition that was read from. */
  function CommitAll(committed: seq<int>, start: seq<nat>, pos: seq<nat>): (after: seq<int>)
    requires |committed| == |start| == |pos|
    ensures |after| == |committed|
    ensures forall p :: 0 <= p < |after| ==> after[p] == if pos[p] > start[p] then pos[p] else committed[p]
  {
    seq(|committed|, p requires 0 <= p < |committed| => if pos[p] > start[p] then pos[p] else committed[p])
  }

  function Receive(w: World, r: Run, batch: int, ingest: int, p: nat): Run
    requires p < |w.topic| && |r.pos| == |w.topic| && r.pos[p] < |w.topic[p]|
  {
    var r' := r.(pos := r.pos[p := r.pos[p] + 1]);
    match EnvelopeToValues(w.topic[p][r.pos[p]].value, p, r.pos[p], ingest)
    case Skipped(reason) => r'.(skipped := r.skipped + multiset{reason})
    case Values(row) =>
      r'.(rows := r.rows + [row], byOp := r.byOp + multiset{row.op},
          phase := if |r.rows| + 1 >= batch then Inserting else Polling)
  }

  /** The pending insert or commit completes. */
  function Complete(w: World, r: Run): (World, Run)
    requires |w.committed| == |r.start| == |r.pos|
  {
    match r.phase
    case Inserting => (w.(table := w.table + r.rows), r.(rows := [], phase := Committing))
    case Committing => (w.(committed := CommitAll(w.committed, r.start, r.pos)), r.(phase := Polling))
    case LastInsert => (w.(table := w.table + r.rows), r.(rows := [], phase := LastCommit))
    case LastCommit =>
      (if |r.byOp| + |r.skipped| > 0 then w.(committed := CommitAll(w.committed, r.start, r.pos)) else w,
        r.(phase := Finished))
    case Polling => (w, r)
    case Finished => (w, r)
    case Dead => (w, r)
  }

  /** `consumer.poll()` returns. */
  function Poll(w: World, r: Run, batch: int, ingest: int, h: Happening): Run
    requires |w.topic| == |r.pos|
  {
    if h.Deliver? then
      if h.partition < |w.topic| && r.pos[h.partition] < |w.topic[h.partition]|
      then Receive(w, r, batch, ingest, h.partition)
      else r
    else if h.PollError? then r.(phase := Dead)
    else if h.Timeout? then r.(phase := if r.rows != [] then LastInsert else LastCommit)
    else r
  }

  function Step(w: World, r: Run, batch: int, ingest: int, h: Happening): (World, Run)
    requires |w.committed| == |w.topic| == |r.start| == |r.pos|
  {
    if h.Appended? then (Append(w, h.partition, h.record), r)
    else if h.Crash? then (w, r.(phase := Dead))
    else if h.Proceed? then Complete(w, r)
    else if r.phase == Polling then (w, Poll(w, r, batch, ingest, h))
    else (w, r)
  }

  /** Runs to the end of `hs`, or until the run is over. */
  function Exec(w: World, r: Run, batch: int, ingest: int, hs: seq<Happening>): (World, Run)
    requires |w.committed| == |w.topic| == |r.start| == |r.pos|
    decreases |hs|
  {
    if hs == [] || r.phase == Dead || r.phase == Finished then (w, r)
    else
      var (w', r') := Step(w, r, batch, ingest, hs[0]);
      Exec(w', r', batch, ingest, hs[1..])
  }

  // ----- the run invariant -----

  ghost predicate Sane(w: World, r: Run) {
    && |w.committed| == |w.topic| == |r.start| == |r.pos|
    && Sound(w, w.table) && Sound(w, r.rows)
    && (r.phase == Committing || r.phase == LastCommit || r.phase == Finished ==> r.rows == [])
    && forall p :: 0 <= p < |w.topic| ==>
      && -1 <= w.committed[p] <= r.pos[p] <= |w.topic[p]|
      && r.start[p] <= r.pos[p]
      && CoveredBelow(w, r.rows, p, r.pos[p])
      && CoveredBelow(w, [], p, w.committed[p])
  }

  lemma HasPersists(rows: seq<Row>, more: seq<Row>, w: World, w': World, p: nat, o: nat)
    requires Has(rows, w, p, o) && |w.topic| == |w'.topic| && p < |w.topic| && w.topic[p] <= w'.topic[p]
    ensures Has(rows + more, w', p, o) && Has(more + rows, w', p, o)
  {
    var i :| 0 <= i < |rows| && Lands(rows[i], w, p, o);
    assert (rows + more)[i] == rows[i] && (more + rows)[|more| + i] == rows[i];
    assert Lands((rows + more)[i], w', p, o) && Lands((more + rows)[|more| + i], w', p, o);
  }

  /** Coverage survives as the topic, the table and the pending rows grow. */
  lemma CoveragePersists(w: World, rows: seq<Row>, w': World, rows': seq<Row>, p: nat, limit: int)
    requires |w.topic| == |w'.topic| && p < |w.topic| && w.topic[p] <= w'.topic[p] && limit <= |w.topic[p]|
    requires CoveredBelow(w, rows, p, limit)
    requires (w'.table == w.table && rows <= rows') || (w'.table == w.table + rows && rows' == [])
    ensures CoveredBelow(w', rows', p, limit)
  {
    forall o | 0 <= o < limit && o < |w'.topic[p]| && RowBearing(w'.topic[p][o])
      ensures Has(w'.table, w', p, o) || Has(rows', w', p, o)
    {
      assert w'.topic[p][o] == w.topic[p][o];
      if Has(w.table, w, p, o) {
        HasPersists(w.table, w'.table[|w.table|..], w, w', p, o);
        assert w'.table == w.table + w'.table[|w.table|..];
      } else {
        if w'.table == w.table && rows <= rows' {
          HasPersists(rows, rows'[|rows|..], w, w', p, o);
          assert rows' == rows + rows'[|rows|..];
        } else {
          HasPersists(rows, w.table, w, w', p, o);
        }
      }
    }
  }

  lemma AppendKeepsSane(w: World, r: Run, p: nat, record: Record)
    requires Sane(w, r)
    ensures Sane(Append(w, p, record), r)
  {
    var w' := Append(w, p, record);
    forall q | 0 <= q < |w.topic|
      ensures CoveredBelow(w', r.rows, q, r.pos[q]) && CoveredBelow(w', [], q, w'.committed[q])
    {
      CoveragePersists(w, r.rows, w', r.rows, q, r.pos[q]);
      CoveragePersists(w, [], w', [], q, w.committed[q]);
    }
  }

  lemma ReceiveKeepsSane(w: World, r: Run, batch: int, ingest: int, p: nat)
    requires Sane(w, r) && p < |w.topic| && r.pos[p] < |w.topic[p]| && r.phase == Polling
    ensures Sane(w, Receive(w, r, batch, ingest, p)) && Receive(w, r, batch, ingest, p).start == r.start
  {
    var r' := Receive(w, r, batch, ingest, p);
    var here := r.pos[p];
    forall q | 0 <= q < |w.topic|
      ensures CoveredBelow(w, r'.rows, q, r'.pos[q])
    {
      CoveragePersists(w, r.rows, w, r'.rows, q, r.pos[q]);
      if q == p && RowBearing(w.topic[p][here]) {
        assert Lands(r'.rows[|r.rows|], w, p, here);
        assert Has(r'.rows, w, p, here);
      }
    }
  }

  lemma InsertKeepsSane(w: World, r: Run, phase: Phase)
    requires Sane(w, r)
    ensures Sane(w.(table := w.table + r.rows), r.(rows := [], phase := phase))
  {
    var w' := w.(table := w.table + r.rows);
    forall q | 0 <= q < |w.topic|
      ensures CoveredBelow(w', [], q, r.pos[q]) && CoveredBelow(w', [], q, w.committed[q])
    {
      CoveragePersists(w, r.rows, w', [], q, r.pos[q]);
    }
  }

  lemma CompleteKeepsSane(w: World, r: Run)
    requires Sane(w, r)
    ensures var (w', r') := Complete(w, r); Sane(w', r') && r'.start == r.start
  {
    if r.phase == Inserting {
      InsertKeepsSane(w, r, Committing);
    } else if r.phase == LastInsert {
      InsertKeepsSane(w, r, LastCommit);
    }
  }

  lemma StepKeepsSane(w: World, r: Run, batch: int, ingest: int, h: Happening)
    requires Sane(w, r)
    ensures Sane(Step(w, r, batch, ingest, h).0, Step(w, r, batch, ingest, h).1)
    ensures Step(w, r, batch, ingest, h).1.start == r.start
  {
    hide Append, Receive, Complete, Sound, CoveredBelow;
    if h.Appended? {
      AppendKeepsSane(w, r, h.partition, h.record);
    } else if h.Proceed? {
      CompleteKeepsSane(w, r);
    } else if h.Deliver? && r.phase == Polling && h.partition < |w.topic|
      && r.pos[h.partition] < |w.topic[h.partition]| {
      ReceiveKeepsSane(w, r, batch, ingest, h.partition);
    }
  }

  lemma {:induction false} ExecKeepsSane(w: World, r: Run, batch: int, ingest: int, hs: seq<Happening>)
    requires Sane(w, r)
    ensures var (w', r') := Exec(w, r, batch, ingest, hs); Sane(w', r') && r'.start == r.start
    decreases |hs|
  {
    if hs != [] && r.phase != Dead && r.phase != Finished {
      StepKeepsSane(w, r, batch, ingest, hs[0]);
      var (w', r') := Step(w, r, batch, ingest, hs[0]);
      ExecKeepsSane(w', r', batch, ingest, hs[1..]);
    }
  }

  // ----- histories: runs, crashes, recreated tables, group resets -----

  datatype Action =
    | Produce(partition: nat, record: Record)
    | Land(batch: int, ingest: int, happenings: seq<Happening>)
    | RecreateTable
    | ResetGroup

  function Act(w: World, a: Action): World
    requires |w.committed| == |w.topic|
  {
    match a
    case Produce(p, record) => Append(w, p, record)
    case Land(batch, ingest, hs) => if Refused(w) then w else Exec(w, Begin(w), batch, ingest, hs).0
    case RecreateTable => w.(table := [])
    case ResetGroup => w.(committed := seq(|w.committed|, _ => 0))
  }

  lemma {:induction false} ExecKeepsShape(w: World, r: Run, batch: int, ingest: int, hs: seq<Happening>)
    requires |w.committed| == |w.topic| == |r.start| == |r.pos|
    ensures var (w', r') := Exec(w, r, batch, ingest, hs);
            |w'.committed| == |w'.topic| == |w.topic| == |r'.start| == |r'.pos|
    decreases |hs|
  {
    if hs != [] && r.phase != Dead && r.phase != Finished {
      var (w', r') := Step(w, r, batch, ingest, hs[0]);
      ExecKeepsShape(w', r', batch, ingest, hs[1..]);
    }
  }

  ghost predicate Shaped(w: World) { |w.committed| == |w.topic| }

  lemma ActKeepsShape(w: World, a: Action)
    requires Shaped(w)
    ensures Shaped(Act(w, a)) && |Act(w, a).topic| == |w.topic|
  {
    if a.Land? && !Refused(w) {
      ExecKeepsShape(w, Begin(w), a.batch, a.ingest, a.happenings);
    }
  }

  /** A topic of `n` partitions that nothing has touched. */
  function Pristine(n: nat): World {
    World(seq(n, _ => []), seq(n, _ => -1), [])
  }

  function History(n: nat, actions: seq<Action>): (w: World)
    ensures Shaped(w) && |w.topic| == n
  {
    if actions == [] then Pristine(n)
    else
      var before := History(n, actions[..|actions| - 1]);
      ActKeepsShape(before, actions[|actions| - 1]);
      Act(before, actions[|actions| - 1])
  }

  /** What every history keeps: nothing committed is missing, or the guard stands in the way. */
  ghost predicate Guarded(w: World) {
    WorldOk(w) && Sound(w, w.table) && (Covered(w) || Refused(w))
  }

  lemma BeginIsSane(w: World)
    requires WorldOk(w) && Sound(w, w.table) && Covered(w)
    ensures Sane(w, Begin(w))
  {
    forall p | 0 <= p < |w.topic|
      ensures CoveredBelow(w, [], p, Begin(w).pos[p])
    {
      assert CoveredBelow(w, [], p, w.committed[p]);
    }
  }

  lemma ProduceKeepsGuarded(w: World, p: nat, record: Record)
    requires Guarded(w)
    ensures Guarded(Append(w, p, record))
  {
    var w' := Append(w, p, record);
    if Covered(w) {
      forall q | 0 <= q < |w.topic|
        ensures CoveredBelow(w', [], q, w'.committed[q])
      {
        CoveragePersists(w, [], w', [], q, w.committed[q]);
      }
    }
  }

  lemma ActKeepsGuarded(w: World, a: Action)
    requires Guarded(w)
    ensures Guarded(Act(w, a))
  {
    match a
    case Produce(p, record) => ProduceKeepsGuarded(w, p, record);
    case Land(batch, ingest, hs) =>
      if !Refused(w) {
        BeginIsSane(w);
        ExecKeepsSane(w, Begin(w), batch, ingest, hs);
      }
    case RecreateTable =>
      var w' := Act(w, a);
      if !Refused(w') {
        assert forall p :: 0 <= p < |w'.topic| ==> w'.committed[p] <= 0;
      }
    case ResetGroup =>
  }

  lemma {:induction false} AlwaysGuarded(n: nat, actions: seq<Action>)
    ensures Guarded(History(n, actions))
  {
    if actions != [] {
      AlwaysGuarded(n, actions[..|actions| - 1]);
      ActKeepsGuarded(History(n, actions[..|actions| - 1]), actions[|actions| - 1]);
    }
  }

  /** Over all histories of appended records, runs that crash anywhere, recreated tables and group
      resets: a run that is not refused starts with every row-bearing record below each committed
      offset in the table. */
  lemma UnrefusedRunStartsCovered(n: nat, actions: seq<Action>)
    requires !Refused(History(n, actions))
    ensures Covered(History(n, actions)) && Sound(History(n, actions), History(n, actions).table)
  {
    AlwaysGuarded(n, actions);
  }

  /** Within such a run, at every point, no committed offset has passed a missing row: cutting the
      run after any number of happenings leaves the table covered. */
  lemma CommitsNeverPassAMissingRow(n: nat, actions: seq<Action>, batch: int, ingest: int, hs: seq<Happening>)
    requires !Refused(History(n, actions))
    ensures var w := History(n, actions);
            var w' := Exec(w, Begin(w), batch, ingest, hs).0;
            |w'.committed| == |w'.topic| && Covered(w') && Sound(w', w'.table)
  {
    var w := History(n, actions);
    UnrefusedRunStartsCovered(n, actions);
    AlwaysGuarded(n, actions);
    BeginIsSane(w);
    ExecKeepsSane(w, Begin(w), batch, ingest, hs);
  }

  // ----- what a completed run has done -----

  ghost predicate Counted(before: nat, w: World, r: Run) {
    && |w.committed| == |w.topic| == |r.start| == |r.pos|
    && (forall p :: 0 <= p < |r.pos| ==> r.start[p] <= r.pos[p])
    && |r.byOp| + before == |w.table| + |r.rows|
    && |r.byOp| + |r.skipped| == Total(r.pos) - Total(r.start)
    && (r.phase == Finished ==> forall p :: 0 <= p < |r.pos| && r.pos[p] > r.start[p] ==> w.committed[p] == r.pos[p])
  }

  lemma {:induction false} TotalUpdate(xs: seq<int>, i: nat, x: int)
    requires i < |xs|
    ensures Total(xs[i := x]) == Total(xs) - xs[i] + x
  {
    if i == 0 {
      assert xs[0 := x][1..] == xs[1..];
    } else {
      assert xs[i := x][1..] == xs[1..][i - 1 := x];
      TotalUpdate(xs[1..], i - 1, x);
    }
  }

  lemma {:induction false} TotalBound(xs: seq<int>, ys: seq<int>)
    requires |xs| == |ys| && forall i :: 0 <= i < |xs| ==> xs[i] <= ys[i]
    ensures Total(xs) <= Total(ys)
    ensures Total(xs) == Total(ys) ==> xs == ys
  {
    if xs != [] {
      TotalBound(xs[1..], ys[1..]);
      assert xs == [xs[0]] + xs[1..] && ys == [ys[0]] + ys[1..];
    }
  }

  lemma ReceiveKeepsCounted(before: nat, w: World, r: Run, batch: int, ingest: int, p: nat)
    requires Counted(before, w, r) && p < |w.topic| && r.pos[p] < |w.topic[p]| && r.phase == Polling
    ensures Counted(before, w, Receive(w, r, batch, ingest, p))
  {
    TotalUpdate(r.pos, p, r.pos[p] + 1);
  }

  lemma StepKeepsCounted(before: nat, w: World, r: Run, batch: int, ingest: int, h: Happening)
    requires Counted(before, w, r)
    ensures Counted(before, Step(w, r, batch, ingest, h).0, Step(w, r, batch, ingest, h).1)
  {
    if h.Deliver? && r.phase == Polling && h.partition < |w.topic| && r.pos[h.partition] < |w.topic[h.partition]| {
      ReceiveKeepsCounted(before, w, r, batch, ingest, h.partition);
    } else if h.Proceed? && r.phase == LastCommit {
      TotalBound(r.start, r.pos);
    }
  }

  lemma {:induction false} ExecKeepsCounted(before: nat, w: World, r: Run, batch: int, ingest: int, hs: seq<Happening>)
    requires Counted(before, w, r)
    ensures Counted(before, Exec(w, r, batch, ingest, hs).0, Exec(w, r, batch, ingest, hs).1)
    decreases |hs|
  {
    if hs != [] && r.phase != Dead && r.phase != Finished {
      StepKeepsCounted(before, w, r, batch, ingest, hs[0]);
      var (w', r') := Step(w, r, batch, ingest, hs[0]);
      ExecKeepsCounted(before, w', r', batch, ingest, hs[1..]);
    }
  }

  /** A run that finished after reading every partition to its end has the whole topic in the table
      and all of it committed, and its counts add up: rows landed are the rows the table gained, and
      landed plus skipped is everything polled. */
  lemma DrainedRunCoversTheTopic(n: nat, actions: seq<Action>, batch: int, ingest: int, hs: seq<Happening>)
    requires !Refused(History(n, actions))
    requires var w := History(n, actions);
             var (w', r') := Exec(w, Begin(w), batch, ingest, hs);
             r'.phase == Finished && |r'.pos| == |w'.topic| && forall p :: 0 <= p < |w'.topic| ==>
               r'.pos[p] == |w'.topic[p]|
    ensures var w := History(n, actions);
            var (w', r') := Exec(w, Begin(w), batch, ingest, hs);
            && |w'.committed| == |w'.topic|
            && (forall p, o :: 0 <= p < |w'.topic| && 0 <= o < |w'.topic[p]| && RowBearing(w'.topic[p][o]) ==>
               Has(w'.table, w', p, o))
            && (forall p :: 0 <= p < |w'.topic| && |w'.topic[p]| > 0 ==> w'.committed[p] == |w'.topic[p]|)
            && |r'.byOp| == |w'.table| - |w.table|
            && |r'.byOp| + |r'.skipped| == Total(r'.pos) - Total(Start(w.committed))
  {
    var w := History(n, actions);
    var (w', r') := Exec(w, Begin(w), batch, ingest, hs);
    UnrefusedRunStartsCovered(n, actions);
    AlwaysGuarded(n, actions);
    BeginIsSane(w);
    ExecKeepsSane(w, Begin(w), batch, ingest, hs);
    ExecKeepsCounted(|w.table|, w, Begin(w), batch, ingest, hs);
    forall p, o | 0 <= p < |w'.topic| && 0 <= o < |w'.topic[p]| && RowBearing(w'.topic[p][o])
      ensures Has(w'.table, w', p, o)
    {
      assert CoveredBelow(w', [], p, r'.pos[p]);
      assert !Has([], w', p, o);
    }
    StartStays(|w.table|, w, Begin(w), batch, ingest, hs);
  }

  /** A partition that was not read from starts where it was committed. */
  ghost predicate StartsAtCommit(w: World, r: Run) {
    |w.committed| == |r.start| == |r.pos| &&
    forall p :: 0 <= p < |r.start| ==> r.start[p] == w.committed[p] || r.start[p] == 0 || r.pos[p] > r.start[p]
  }

  lemma StepStartsAtCommit(w: World, r: Run, batch: int, ingest: int, h: Happening)
    requires |w.committed| == |w.topic| && StartsAtCommit(w, r) && forall p :: 0 <= p < |r.pos| ==>
             r.start[p] <= r.pos[p]
    ensures StartsAtCommit(Step(w, r, batch, ingest, h).0, Step(w, r, batch, ingest, h).1)
  {
    hide Append, Complete, Poll;
    if h.Appended? {
      AppendStartsAtCommit(w, r, h.partition, h.record);
    } else if h.Crash? {
      PhaseStartsAtCommit(w, r, Dead);
    } else if h.Proceed? {
      CompleteStartsAtCommit(w, r);
    } else if r.phase == Polling {
      PollStartsAtCommit(w, r, batch, ingest, h);
    }
  }

  lemma AppendStartsAtCommit(w: World, r: Run, p: nat, record: Record)
    requires StartsAtCommit(w, r)
    ensures StartsAtCommit(Append(w, p, record), r)
  {
  }

  lemma PhaseStartsAtCommit(w: World, r: Run, phase: Phase)
    requires StartsAtCommit(w, r)
    ensures StartsAtCommit(w, r.(phase := phase))
  {
  }

  lemma CompleteStartsAtCommit(w: World, r: Run)
    requires |w.committed| == |r.start| == |r.pos| && StartsAtCommit(w, r)
    requires forall p :: 0 <= p < |r.pos| ==> r.start[p] <= r.pos[p]
    ensures StartsAtCommit(Complete(w, r).0, Complete(w, r).1)
  {
  }

  lemma PollStartsAtCommit(w: World, r: Run, batch: int, ingest: int, h: Happening)
    requires |w.committed| == |w.topic| == |r.pos| && StartsAtCommit(w, r)
    requires forall p :: 0 <= p < |r.pos| ==> r.start[p] <= r.pos[p]
    ensures StartsAtCommit(w, Poll(w, r, batch, ingest, h))
  {
    hide EnvelopeToValues;
  }

  lemma {:induction false} StartStays(before: nat, w: World, r: Run, batch: int, ingest: int, hs: seq<Happening>)
    requires Counted(before, w, r) && StartsAtCommit(w, r)
    ensures var (w', r') := Exec(w, r, batch, ingest, hs); StartsAtCommit(w', r')
    decreases |hs|
  {
    if hs != [] && r.phase != Dead && r.phase != Finished {
      hide Step, StartsAtCommit;
      StepStartsAtCommit(w, r, batch, ingest, hs[0]);
      StepKeepsCounted(before, w, r, batch, ingest, hs[0]);
      var (w', r') := Step(w, r, batch, ingest, hs[0]);
      StartStays(before, w', r', batch, ingest, hs[1..]);
    }
  }

  // ----- the program -----

  datatype Ending = Refusal | Landed | Gone

  /** The lander with the systems it touches: broker and table are fields that others see. */
  class Lander {
    var topic: seq<seq<Record>>
    var committed: seq<int>
    var table: seq<Row>

    constructor (w: World)
      ensures Now() == w
    {
      topic, committed, table := w.topic, w.committed, w.table;
    }

    function Now(): World
      reads this
    {
      World(topic, committed, table)
    }

    /** Others append while an effect is in flight; then it completes, or the process is gone. */
    method Await(hs: seq<Happening>, i: nat, ghost r: Run, batch: int, ingest: int) returns (ok: bool, j: nat)
      requires i <= |hs| && |committed| == |topic| == |r.start| == |r.pos|
      requires r.phase in {Inserting, Committing, LastInsert, LastCommit}
      modifies this`topic
      ensures i <= j <= |hs| && |topic| == |old(topic)|
      ensures ok ==> Exec(old(Now()), r, batch, ingest, hs[i..]) ==
                       Exec(Complete(Now(), r).0, Complete(Now(), r).1, batch, ingest, hs[j..])
      ensures !ok ==> var (w', r') := Exec(old(Now()), r, batch, ingest, hs[i..]); w' == Now() && r'.phase != Finished
    {
      j := i;
      while j < |hs|
        invariant i <= j <= |hs| && |topic| == |old(topic)|
        invariant Exec(old(Now()), r, batch, ingest, hs[i..]) == Exec(Now(), r, batch, ingest, hs[j..])
      {
        assert hs[j..][0] == hs[j] && hs[j..][1..] == hs[j + 1..];
        if hs[j].Proceed? {
          return true, j + 1;
        }
        if hs[j].Crash? {
          return false, j;
        }
        if hs[j].Appended? {
          AppendRecord(hs[j].partition, hs[j].record);
        }
        j := j + 1;
      }
      ok := false;
    }

    method AppendRecord(p: nat, record: Record)
      modifies this`topic
      ensures Now() == Append(old(Now()), p, record) && |topic| == |old(topic)|
    {
      if p < |topic| {
        topic := topic[p := topic[p] + [record]];
      }
    }

    /** Handles one message: parse, count, and at a full batch insert and then commit. */
    method Handle(hs: seq<Happening>, i: nat, p: nat, batch: int, ingest: int, start: seq<nat>,
                  pos: seq<nat>, rows: seq<Row>, byOp: multiset<OpCode>, skipped: multiset<Reason>)
      returns (ok: bool, j: nat, pos': seq<nat>, rows': seq<Row>, byOp': multiset<OpCode>, skipped': multiset<Reason>)
      requires i <= |hs| && |committed| == |topic| == |start| == |pos| && p < |topic| && pos[p] < |topic[p]|
      modifies this
      ensures i <= j <= |hs| && |committed| == |topic| == |old(topic)| == |pos'|
      ensures var (w', r') := Exec(old(Now()),
              Receive(old(Now()), Run(Polling, start, pos, rows, byOp, skipped), batch, ingest, p), batch, ingest,
              hs[i..]);
              if ok then
                (w', r') == Exec(Now(), Run(Polling, start, pos', rows', byOp', skipped'), batch, ingest, hs[j..])
              else w' == Now() && r'.phase != Finished
    {
      hide Exec, Append;
      ok, j, pos', rows', byOp', skipped' := true, i, pos[p := pos[p] + 1], rows, byOp, skipped;
      match EnvelopeToValues(topic[p][pos[p]].value, p, pos[p], ingest)
      case Skipped(reason) =>
        skipped' := skipped + multiset{reason};
      case Values(row) =>
        rows', byOp' := rows + [row], byOp + multiset{row.op};
        if |rows'| >= batch {
          ok, j := Await(hs, j, Run(Inserting, start, pos', rows', byOp', skipped'), batch, ingest);
          if !ok {
            return;
          }
          table := table + rows';
          rows' := [];
          ok, j := Await(hs, j, Run(Committing, start, pos', rows', byOp', skipped'), batch, ingest);
          if !ok {
            return;
          }
          committed := CommitAll(committed, start, pos');
        }
    }

    /** After the last message: insert what is pending, then commit if anything was read. */
    method Finish(hs: seq<Happening>, i: nat, batch: int, ingest: int, start: seq<nat>,
                  pos: seq<nat>, rows: seq<Row>, byOp: multiset<OpCode>, skipped: multiset<Reason>)
      returns (ok: bool)
      requires i <= |hs| && |committed| == |topic| == |start| == |pos|
      modifies this
      ensures var (w', r') := Exec(old(Now()),
              Run(if rows != [] then LastInsert else LastCommit, start, pos, rows, byOp, skipped), batch, ingest,
              hs[i..]);
              && w' == Now() && (ok <==> r'.phase == Finished)
              && (ok ==> byOp == r'.byOp && skipped == r'.skipped)
    {
      var j := i;
      if rows != [] {
        ok, j := Await(hs, j, Run(LastInsert, start, pos, rows, byOp, skipped), batch, ingest);
        if !ok {
          return;
        }
        table := table + rows;
      }
      ok, j := Await(hs, j, Run(LastCommit, start, pos, [], byOp, skipped), batch, ingest);
      if ok && |byOp| + |skipped| > 0 {
        committed := CommitAll(committed, start, pos);
      }
    }

    /** The program refines the machine, so all that is proved of runs is proved of it. */
    method CmdLand(batch: int, ingest: int, hs: seq<Happening>)
      returns (ending: Ending, byOp: multiset<OpCode>, skipped: multiset<Reason>)
      requires |committed| == |topic|
      modifies this
      ensures (ending == Refusal) == Refused(old(Now()))
      ensures ending == Refusal ==> Now() == old(Now())
      ensures ending != Refusal ==>
                var (w', r') := Exec(old(Now()), Begin(old(Now())), batch, ingest, hs);
                && Now() == w'
                && (ending == Landed <==> r'.phase == Finished)
                && (ending == Landed ==> byOp == r'.byOp && skipped == r'.skipped)
    {
      byOp, skipped := multiset{}, multiset{};
      if Refused(Now()) {
        return Refusal, byOp, skipped;
      }
      var start := Start(committed);
      var pos: seq<nat>, rows: seq<Row>, i := start, [], 0;
      assert hs[0..] == hs;
      while true
        invariant i <= |hs| && |committed| == |topic| == |start| == |pos|
        invariant Exec(old(Now()), Begin(old(Now())), batch, ingest, hs)
               == Exec(Now(), Run(Polling, start, pos, rows, byOp, skipped), batch, ingest, hs[i..])
        decreases |hs| - i
      {
        if i == |hs| || hs[i].Crash? || hs[i].PollError? {
          return Gone, byOp, skipped;
        }
        var h := hs[i];
        assert hs[i..][0] == h && hs[i..][1..] == hs[i + 1..];
        i := i + 1;
        if h.Timeout? {
          break;
        } else if h.Appended? {
          AppendRecord(h.partition, h.record);
        } else if h.Deliver? && h.partition < |topic| && pos[h.partition] < |topic[h.partition]| {
          var ok: bool;
          ok, i, pos, rows, byOp, skipped := Handle(hs, i, h.partition, batch, ingest, start, pos, rows, byOp, skipped);
          if !ok {
            return Gone, byOp, skipped;
          }
        }
      }
      var ok := Finish(hs, i, batch, ingest, start, pos, rows, byOp, skipped);
      ending := if ok then Landed else Gone;
    }
  }
}
