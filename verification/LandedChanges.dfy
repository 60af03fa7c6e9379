/** What a landing run inserts and counts, told from the changes of the database (scripts/cdc_land.py). */
module LandedChanges {
  import opened Wrappers
  import opened Aggregates
  import opened CdcLand
  import opened Changelog
  import opened Resolution
  import opened CdcReplay

  // ----- what each change lands as -----

  /** The operation that a change lands as, if it lands. */
  function KindOf(c: Change): Option<OpCode> {
    match c
    case Capture(_, _) => Some(Snapshot)
    case Insert(_, _, _) => Some(Create)
    case Edit(_, _, _) => Some(Update)
    case Remove(_, _) => Some(Delete)
    case Truncate(_, _) => None
    case Noise(_) => None
  }

  /** What is skipped because of it: a delete's tombstone, a TRUNCATE, a message. */
  function SkipOf(c: Change): Option<Reason> {
    match c
    case Remove(_, _) => Some(Tombstone)
    case Truncate(_, _) => Some(ForeignOp(OpCode.Truncate))
    case Noise(_) => Some(ForeignOp(Message))
    case Capture(_, _) => None
    case Insert(_, _, _) => None
    case Edit(_, _, _) => None
  }

  /** The database accepts the change, and it reaches the log. */
  predicate Effective(db: Db, c: Change) {
    match c
    case Capture(id, _) => !db.streaming && id !in db.rows
    case Insert(id, _, lsn) => id !in db.rows && lsn >= db.lsn
    case Edit(id, _, lsn) => id in db.rows && lsn >= db.lsn
    case Remove(id, lsn) => id in db.rows && lsn >= db.lsn
    case Truncate(p, lsn) => p < |db.topic| && lsn >= db.lsn
    case Noise(p) => p < |db.topic|
  }

  /** The row of change number `i`: its operation, its key, its log position, the new image or, for a
      delete, the image before; and its place in the topic. */
  ghost predicate RowTells(n: nat, snapshotLsn: int, changes: seq<Change>, partition: int -> nat, row: Row, i: nat)
    requires forall k :: partition(k) < n
  {
    i < |changes| && var db, c := Replay(n, snapshotLsn, changes[..i], partition), changes[i];
      && Effective(db, c) && KindOf(c) == Some(row.op)
      && row.id == c.id && row.partition == partition(c.id) && row.offset == |db.topic[partition(c.id)]|
      && row.lsn == Some(if c.Capture? then db.lsn else c.lsn)
      && (if c.Remove? then c.id in db.rows && row.body == db.rows[c.id] else row.body == c.body)
  }

  lemma EffectPublishes(db: Db, c: Change, partition: int -> nat)
    requires forall id :: partition(id) < |db.topic|
    ensures var (p, rs) := Records(db, c, partition);
            if Effective(db, c) then p < |db.topic| && Apply(db, c, partition).topic == Publish(db.topic, p, rs)
            else Apply(db, c, partition).topic == db.topic
  {
    hide Publish;
  }

  /** The first record of a change that lands is the row the change tells; the rest does not land. */
  lemma RecordsTell(db: Db, c: Change, partition: int -> nat, j: nat, p: nat, o: nat, ingest: int)
    requires forall id :: partition(id) < |db.topic|
    requires Effective(db, c) && j < |Records(db, c, partition).1|
    ensures var v := EnvelopeToValues(Records(db, c, partition).1[j].value, p, o, ingest);
            if j == 0 && KindOf(c).Some? then
              && v.Values? && v.row.op == KindOf(c).value && v.row.id == c.id
              && v.row.partition == p && v.row.offset == o && v.row.ingest == ingest
              && v.row.lsn == Some(if c.Capture? then db.lsn else c.lsn)
              && (if c.Remove? then c.id in db.rows && v.row.body == db.rows[c.id] else v.row.body == c.body)
            else v.Skipped? && SkipOf(c) == Some(v.reason)
  {
    hide Publish, Apply;
  }

  lemma ReplayStep(n: nat, snapshotLsn: int, changes: seq<Change>, partition: int -> nat)
    requires changes != [] && forall k :: partition(k) < n
    ensures var m := |changes| - 1;
            Replay(n, snapshotLsn, changes, partition)
              == Apply(Replay(n, snapshotLsn, changes[..m], partition), changes[m], partition)
  {
  }

  // ----- the rows -----

  /** Every record of the log was published by one change, first or after it. */
  lemma {:induction false} RecordsHaveOrigins(n: nat, snapshotLsn: int, changes: seq<Change>, partition: int -> nat,
      p: nat, o: nat) returns (i: nat, j: nat)
    requires forall k :: partition(k) < n
    requires p < n && o < |Replay(n, snapshotLsn, changes, partition).topic[p]|
    ensures i < |changes|
    ensures var db, c := Replay(n, snapshotLsn, changes[..i], partition), changes[i];
            var (q, rs) := Records(db, c, partition);
            && Effective(db, c) && p == q && j < |rs| && o == |db.topic[p]| + j
            && Replay(n, snapshotLsn, changes, partition).topic[p][o] == rs[j]
    decreases |changes|
  {
    hide Apply, Records, Effective;
    if changes == [] {
      NothingPublished(n, snapshotLsn, partition, p);
      assert false;
    } else {
      var m := |changes| - 1;
      var db := Replay(n, snapshotLsn, changes[..m], partition);
      ReplayStep(n, snapshotLsn, changes, partition);
      EffectPublishes(db, changes[m], partition);
      if o < |db.topic[p]| {
        i, j := RecordsHaveOrigins(n, snapshotLsn, changes[..m], partition, p, o);
        assert changes[..m][..i] == changes[..i];
      } else {
        i, j := m, o - |db.topic[p]|;
      }
    }
  }

  lemma NothingPublished(n: nat, snapshotLsn: int, partition: int -> nat, p: nat)
    requires p < n && forall k :: partition(k) < n
    ensures Replay(n, snapshotLsn, [], partition).topic[p] == []
  {
  }

  lemma {:induction false} LogGrows(n: nat, snapshotLsn: int, changes: seq<Change>, partition: int -> nat, i: nat,
      p: nat)
    requires i <= |changes| && p < n && forall k :: partition(k) < n
    ensures Replay(n, snapshotLsn, changes[..i], partition).topic[p] <= Replay(n, snapshotLsn, changes,
            partition).topic[p]
    decreases |changes|
  {
    hide Apply, Records, Effective;
    if i == |changes| {
      assert changes[..i] == changes;
    } else {
      var m := |changes| - 1;
      assert changes[..m][..i] == changes[..i];
      LogGrows(n, snapshotLsn, changes[..m], partition, i, p);
      ReplayStep(n, snapshotLsn, changes, partition);
      EffectPublishes(Replay(n, snapshotLsn, changes[..m], partition), changes[m], partition);
    }
  }

  /** Each row of a table in which the whole changelog landed tells one change that the database
      accepted: nothing is landed that did not happen, and as nothing else. */
  lemma RowsTellTheChanges(n: nat, snapshotLsn: int, changes: seq<Change>, partition: int -> nat, table: seq<Row>,
      k: nat)
    returns (i: nat)
    requires forall id :: partition(id) < n
    requires FullyLanded(table, Replay(n, snapshotLsn, changes, partition).topic) && k < |table|
    ensures RowTells(n, snapshotLsn, changes, partition, table[k], i)
  {
    hide Replay, Records, Effective, EnvelopeToValues;
    var topic, row := Replay(n, snapshotLsn, changes, partition).topic, table[k];
    assert Lands(row, World(topic, seq(|topic|, _ => -1), table), row.partition, row.offset);
    var j;
    i, j := RecordsHaveOrigins(n, snapshotLsn, changes, partition, row.partition, row.offset);
    var db := Replay(n, snapshotLsn, changes[..i], partition);
    RecordsTell(db, changes[i], partition, j, row.partition, row.offset, row.ingest);
    RecordsPlace(db, changes[i], partition);
  }

  lemma RecordsPlace(db: Db, c: Change, partition: int -> nat)
    ensures |Records(db, c, partition).1| > 0
    ensures KindOf(c).Some? ==> Records(db, c, partition).0 == partition(c.id)
  {
  }

  /** And each accepted change of a row is told by a row of the table. */
  lemma ChangesAreTold(n: nat, snapshotLsn: int, changes: seq<Change>, partition: int -> nat, table: seq<Row>, i: nat)
    returns (k: nat)
    requires forall id :: partition(id) < n
    requires FullyLanded(table, Replay(n, snapshotLsn, changes, partition).topic) && i < |changes|
    requires Effective(Replay(n, snapshotLsn, changes[..i], partition), changes[i]) && KindOf(changes[i]).Some?
    ensures k < |table| && RowTells(n, snapshotLsn, changes, partition, table[k], i)
  {
    hide Replay, Records, Effective, EnvelopeToValues;
    var db, c := Replay(n, snapshotLsn, changes[..i], partition), changes[i];
    var topic := Replay(n, snapshotLsn, changes, partition).topic;
    var p, o := partition(c.id), |db.topic[partition(c.id)]|;
    FirstIsPublished(n, snapshotLsn, changes, partition, i);
    RecordsTell(db, c, partition, 0, 0, 0, 0);
    var w := World(topic, seq(|topic|, _ => -1), table);
    assert Has(table, w, p, o);
    k :| 0 <= k < |table| && Lands(table[k], w, p, o);
    RecordsTell(db, c, partition, 0, p, o, table[k].ingest);
  }

  lemma FirstIsPublished(n: nat, snapshotLsn: int, changes: seq<Change>, partition: int -> nat, i: nat)
    requires i < |changes| && forall id :: partition(id) < n
    requires Effective(Replay(n, snapshotLsn, changes[..i], partition), changes[i]) && KindOf(changes[i]).Some?
    ensures var db, c := Replay(n, snapshotLsn, changes[..i], partition), changes[i];
            var p := partition(c.id);
            var log := Replay(n, snapshotLsn, changes, partition).topic[p];
            |Records(db, c, partition).1| > 0 && |db.topic[p]| < |log|
              && log[|db.topic[p]|] == Records(db, c, partition).1[0]
  {
    hide Apply, Records, Effective;
    var db, c := Replay(n, snapshotLsn, changes[..i], partition), changes[i];
    hide Replay;
    RecordsPlace(db, c, partition);
    assert changes[..i + 1][..i] == changes[..i];
    ReplayStep(n, snapshotLsn, changes[..i + 1], partition);
    EffectPublishes(db, c, partition);
    LogGrows(n, snapshotLsn, changes, partition, i + 1, partition(c.id));
  }

  /** End to end: after any crashes, once a run has drained the changelog of a database, the table holds
      a row for each accepted change of a row, and each of its rows is one of those. */
  lemma DrainedTableTellsTheChanges(n: nat, snapshotLsn: int, changes: seq<Change>, partition: int -> nat,
      actions: seq<Action>, batch: int, ingest: int, hs: seq<Happening>)
    requires forall k :: partition(k) < n
    requires !Refused(History(n, actions))
    requires var w := History(n, actions);
             var (w', r') := Exec(w, Begin(w), batch, ingest, hs);
             && r'.phase == Finished && |r'.pos| == |w'.topic|
             && (forall p :: 0 <= p < |w'.topic| ==> r'.pos[p] == |w'.topic[p]|)
             && w'.topic == Replay(n, snapshotLsn, changes, partition).topic
    ensures var table := Exec(History(n, actions), Begin(History(n, actions)), batch, ingest, hs).0.table;
            && (forall k :: 0 <= k < |table| ==> Happened(n, snapshotLsn, changes, partition, table[k]))
            && forall i :: 0 <= i < |changes| ==> IsTold(n, snapshotLsn, changes, partition, table, i)
  {
    hide Exec, Replay, Happened, IsTold;
    var w := History(n, actions);
    var w' := Exec(w, Begin(w), batch, ingest, hs).0;
    CommitsNeverPassAMissingRow(n, actions, batch, ingest, hs);
    DrainedRunCoversTheTopic(n, actions, batch, ingest, hs);
    LandedInAnyGroup(w');
    forall k | 0 <= k < |w'.table|
      ensures Happened(n, snapshotLsn, changes, partition, w'.table[k])
    {
      RowHappened(n, snapshotLsn, changes, partition, w'.table, k);
    }
    forall i | 0 <= i < |changes|
      ensures IsTold(n, snapshotLsn, changes, partition, w'.table, i)
    {
      ChangeIsTold(n, snapshotLsn, changes, partition, w'.table, i);
    }
  }

  /** The row tells a change that the database accepted. */
  ghost predicate Happened(n: nat, snapshotLsn: int, changes: seq<Change>, partition: int -> nat, row: Row)
    requires forall id :: partition(id) < n
  {
    exists i :: RowTells(n, snapshotLsn, changes, partition, row, i)
  }

  /** Change number `i`, if it was accepted and is of a row, is told by a row of the table. */
  ghost predicate IsTold(n: nat, snapshotLsn: int, changes: seq<Change>, partition: int -> nat, table: seq<Row>, i: nat)
    requires i < |changes| && forall id :: partition(id) < n
  {
    Effective(Replay(n, snapshotLsn, changes[..i], partition), changes[i]) && KindOf(changes[i]).Some? ==>
      exists k :: 0 <= k < |table| && RowTells(n, snapshotLsn, changes, partition, table[k], i)
  }

  lemma RowHappened(n: nat, snapshotLsn: int, changes: seq<Change>, partition: int -> nat, table: seq<Row>, k: nat)
    requires forall id :: partition(id) < n
    requires FullyLanded(table, Replay(n, snapshotLsn, changes, partition).topic) && k < |table|
    ensures Happened(n, snapshotLsn, changes, partition, table[k])
  {
    hide FullyLanded, Replay, RowTells;
    var i := RowsTellTheChanges(n, snapshotLsn, changes, partition, table, k);
  }

  lemma ChangeIsTold(n: nat, snapshotLsn: int, changes: seq<Change>, partition: int -> nat, table: seq<Row>, i: nat)
    requires forall id :: partition(id) < n
    requires FullyLanded(table, Replay(n, snapshotLsn, changes, partition).topic) && i < |changes|
    ensures IsTold(n, snapshotLsn, changes, partition, table, i)
  {
    hide FullyLanded, Replay, RowTells, Effective;
    if Effective(Replay(n, snapshotLsn, changes[..i], partition), changes[i]) && KindOf(changes[i]).Some? {
      var k := ChangesAreTold(n, snapshotLsn, changes, partition, table, i);
    }
  }

  // ----- the counts of a run -----

  /** How many records satisfy `f`, over all partitions. */
  function Across(logs: seq<seq<Record>>, f: Record -> bool): nat {
    if logs == [] then 0 else Across(logs[..|logs| - 1], f) + |Kept(f, logs[|logs| - 1])|
  }

  lemma {:induction false} AcrossPublish(logs: seq<seq<Record>>, p: nat, rs: seq<Record>, f: Record -> bool)
    requires p < |logs|
    ensures Across(Publish(logs, p, rs), f) == Across(logs, f) + |Kept(f, rs)|
  {
    var m := |logs| - 1;
    if p == m {
      assert Publish(logs, p, rs)[..m] == logs[..m];
      KeptConcat(f, logs[m], rs);
    } else {
      assert Publish(logs, p, rs)[..m] == Publish(logs[..m], p, rs);
      AcrossPublish(logs[..m], p, rs, f);
    }
  }

  lemma {:induction false} AcrossNothing(logs: seq<seq<Record>>, f: Record -> bool)
    requires forall p :: 0 <= p < |logs| ==> logs[p] == []
    ensures Across(logs, f) == 0
  {
    if logs != [] {
      AcrossNothing(logs[..|logs| - 1], f);
    }
  }

  predicate Pictured(e: Envelope) {
    var image := if e.op == Delete then e.before else e.after;
    image.Some? && image.value.id.Some?
  }

  /** A record that becomes a row of this operation. */
  function LandsAs(op: OpCode): Record -> bool {
    (r: Record) => r.value.Some? && r.value.value.op == op && op in {Create, Update, Delete, Snapshot}
      && Pictured(r.value.value)
  }

  /** A record that is skipped for this reason. */
  function SkippedFor(reason: Reason): Record -> bool {
    (r: Record) =>
      match reason
      case Tombstone => r.value.None?
      case ForeignOp(op) => r.value.Some? && r.value.value.op == op && op in {OpCode.Truncate, Message}
      case NoImage(op) =>
        r.value.Some? && r.value.value.op == op && op in {Create, Update, Delete, Snapshot} && !Pictured(r.value.value)
  }

  /** What the run has read of each partition. */
  function Read(topic: seq<seq<Record>>, start: seq<nat>, pos: seq<nat>): (logs: seq<seq<Record>>)
    requires |topic| == |start| == |pos|
    ensures |logs| == |topic|
  {
    seq(|topic|,
      p requires 0 <= p < |topic| => if start[p] <= pos[p] <= |topic[p]| then topic[p][start[p]..pos[p]] else [])
  }

  /** The counts are those of the records read. */
  ghost predicate Tallied(w: World, r: Run) {
    && |w.committed| == |w.topic| == |r.start| == |r.pos|
    && (forall p :: 0 <= p < |r.pos| ==> r.start[p] <= r.pos[p] <= |w.topic[p]|)
    && (forall op :: r.byOp[op] == Across(Read(w.topic, r.start, r.pos), LandsAs(op)))
    && forall reason :: r.skipped[reason] == Across(Read(w.topic, r.start, r.pos), SkippedFor(reason))
  }

  lemma ReadOneMore(topic: seq<seq<Record>>, start: seq<nat>, pos: seq<nat>, p: nat)
    requires |topic| == |start| == |pos| && p < |topic| && start[p] <= pos[p] < |topic[p]|
    ensures Read(topic, start, pos[p := pos[p] + 1]) == Publish(Read(topic, start, pos), p, [topic[p][pos[p]]])
  {
    assert topic[p][start[p]..pos[p] + 1] == topic[p][start[p]..pos[p]] + [topic[p][pos[p]]];
  }

  lemma RecordLandsOrIsSkipped(r: Record, p: nat, o: nat, ingest: int, op: OpCode, reason: Reason)
    ensures var v := EnvelopeToValues(r.value, p, o, ingest);
            && (LandsAs(op)(r) <==> v.Values? && v.row.op == op)
            && (SkippedFor(reason)(r) <==> v.Skipped? && v.reason == reason)
  {
  }

  lemma ReceiveKeepsTallied(w: World, r: Run, batch: int, ingest: int, p: nat)
    requires Tallied(w, r) && p < |w.topic| && r.pos[p] < |w.topic[p]|
    ensures Tallied(w, Receive(w, r, batch, ingest, p)) && Receive(w, r, batch, ingest, p).start == r.start
  {
    hide Across, EnvelopeToValues, Publish, LandsAs, SkippedFor, Read;
    var record, logs := w.topic[p][r.pos[p]], Read(w.topic, r.start, r.pos);
    var v := EnvelopeToValues(record.value, p, r.pos[p], ingest);
    var r' := Receive(w, r, batch, ingest, p);
    ReadOneMore(w.topic, r.start, r.pos, p);
    forall op
      ensures r'.byOp[op] == Across(Read(w.topic, r'.start, r'.pos), LandsAs(op))
    {
      RecordLandsOrIsSkipped(record, p, r.pos[p], ingest, op, Tombstone);
      AcrossPublish(logs, p, [record], LandsAs(op));
      KeptOne(LandsAs(op), record);
    }
    forall reason
      ensures r'.skipped[reason] == Across(Read(w.topic, r'.start, r'.pos), SkippedFor(reason))
    {
      RecordLandsOrIsSkipped(record, p, r.pos[p], ingest, Create, reason);
      AcrossPublish(logs, p, [record], SkippedFor(reason));
      KeptOne(SkippedFor(reason), record);
    }
  }

  lemma AppendKeepsRead(topic: seq<seq<Record>>, start: seq<nat>, pos: seq<nat>, p: nat, record: Record)
    requires |topic| == |start| == |pos| && p < |topic|
    requires forall q :: 0 <= q < |pos| ==> start[q] <= pos[q] <= |topic[q]|
    ensures Read(topic[p := topic[p] + [record]], start, pos) == Read(topic, start, pos)
  {
    var topic' := topic[p := topic[p] + [record]];
    forall q | 0 <= q < |topic|
      ensures Read(topic', start, pos)[q] == Read(topic, start, pos)[q]
    {
      assert topic'[q][start[q]..pos[q]] == topic[q][start[q]..pos[q]];
    }
  }

  lemma StepKeepsTallied(w: World, r: Run, batch: int, ingest: int, h: Happening)
    requires Tallied(w, r)
    ensures Tallied(Step(w, r, batch, ingest, h).0, Step(w, r, batch, ingest, h).1)
    ensures Step(w, r, batch, ingest, h).1.start == r.start
  {
    hide Append, Complete, Receive, Tallied;
    TalliedShape(w, r);
    if h.Appended? {
      AppendKeepsTallied(w, r, h.partition, h.record);
    } else if h.Proceed? {
      CompleteKeepsTallied(w, r);
    } else if h.Deliver? && r.phase == Polling && h.partition < |w.topic|
      && r.pos[h.partition] < |w.topic[h.partition]| {
      ReceiveKeepsTallied(w, r, batch, ingest, h.partition);
    } else {
      SameCountsAreTallied(w, r, w, Step(w, r, batch, ingest, h).1);
    }
  }

  lemma SameCountsAreTallied(w: World, r: Run, w': World, r': Run)
    requires Tallied(w, r) && w'.topic == w.topic && |w'.committed| == |w.committed|
    requires r'.start == r.start && r'.pos == r.pos && r'.byOp == r.byOp && r'.skipped == r.skipped
    ensures Tallied(w', r')
  {
    hide Across, Read, LandsAs, SkippedFor;
  }

  lemma AppendKeepsTallied(w: World, r: Run, p: nat, record: Record)
    requires Tallied(w, r)
    ensures Tallied(Append(w, p, record), r)
  {
    hide Across, Read, LandsAs, SkippedFor;
    if p < |w.topic| {
      AppendKeepsRead(w.topic, r.start, r.pos, p, record);
    }
  }

  lemma CompleteKeepsTallied(w: World, r: Run)
    requires |w.committed| == |w.topic| == |r.start| == |r.pos| && Tallied(w, r)
    ensures var (w', r') := Complete(w, r); Tallied(w', r') && r'.start == r.start
  {
    hide Tallied;
    var (w', r') := Complete(w, r);
    SameCountsAreTallied(w, r, w', r');
  }

  lemma {:induction false} ExecKeepsTallied(w: World, r: Run, batch: int, ingest: int, hs: seq<Happening>)
    requires Tallied(w, r)
    ensures Tallied(Exec(w, r, batch, ingest, hs).0, Exec(w, r, batch, ingest, hs).1)
    ensures Exec(w, r, batch, ingest, hs).1.start == r.start
    decreases |hs|
  {
    hide Tallied, Step;
    if hs != [] && r.phase != Dead && r.phase != Finished {
      TalliedShape(w, r);
      StepKeepsTallied(w, r, batch, ingest, hs[0]);
      var (w', r') := Step(w, r, batch, ingest, hs[0]);
      ExecKeepsTallied(w', r', batch, ingest, hs[1..]);
    }
  }

  lemma TalliedShape(w: World, r: Run)
    requires Tallied(w, r)
    ensures |w.committed| == |w.topic| == |r.start| == |r.pos|
  {
  }

  lemma BeginIsTallied(w: World)
    requires WorldOk(w)
    ensures Tallied(w, Begin(w))
  {
    var r := Begin(w);
    var logs := Read(w.topic, r.start, r.pos);
    forall p | 0 <= p < |logs|
      ensures logs[p] == []
    {
    }
    forall op
      ensures Across(logs, LandsAs(op)) == 0
    {
      AcrossNothing(logs, LandsAs(op));
    }
    forall reason
      ensures Across(logs, SkippedFor(reason)) == 0
    {
      AcrossNothing(logs, SkippedFor(reason));
    }
  }

  /** How many of the changes were accepted and are of the kind. */
  ghost function Accepted(n: nat, snapshotLsn: int, changes: seq<Change>, partition: int -> nat,
      kind: Change -> bool): nat
    requires forall id :: partition(id) < n
  {
    if changes == [] then 0
    else
      var m := |changes| - 1;
      Accepted(n, snapshotLsn, changes[..m], partition, kind)
      + if Effective(Replay(n, snapshotLsn, changes[..m], partition), changes[m]) && kind(changes[m]) then 1 else 0
  }

  function LandingAs(op: OpCode): Change -> bool { (c: Change) => KindOf(c) == Some(op) }

  function SkippingFor(reason: Reason): Change -> bool { (c: Change) => SkipOf(c) == Some(reason) }

  lemma RecordsOfChange(db: Db, c: Change, partition: int -> nat, op: OpCode, reason: Reason)
    requires forall id :: partition(id) < |db.topic|
    requires Effective(db, c)
    ensures var rs := Records(db, c, partition).1;
            && |Kept(LandsAs(op), rs)| == (if LandingAs(op)(c) then 1 else 0)
            && |Kept(SkippedFor(reason), rs)| == (if SkippingFor(reason)(c) then 1 else 0)
  {
    hide LandsAs, SkippedFor, EnvelopeToValues, Kept, Records, Effective;
    var rs := Records(db, c, partition).1;
    RecordsSize(db, c, partition);
    RecordsTell(db, c, partition, 0, 0, 0, 0);
    RecordLandsOrIsSkipped(rs[0], 0, 0, 0, op, reason);
    if |rs| == 1 {
      KeptOne(LandsAs(op), rs[0]);
      KeptOne(SkippedFor(reason), rs[0]);
      assert rs == [rs[0]];
    } else {
      RecordsTell(db, c, partition, 1, 0, 0, 0);
      RecordLandsOrIsSkipped(rs[1], 0, 0, 0, op, reason);
      assert rs == [rs[0]] + [rs[1]];
      KeptConcat(LandsAs(op), [rs[0]], [rs[1]]);
      KeptConcat(SkippedFor(reason), [rs[0]], [rs[1]]);
      KeptOne(LandsAs(op), rs[0]);
      KeptOne(SkippedFor(reason), rs[0]);
      KeptOne(LandsAs(op), rs[1]);
      KeptOne(SkippedFor(reason), rs[1]);
    }
  }

  lemma RecordsSize(db: Db, c: Change, partition: int -> nat)
    ensures |Records(db, c, partition).1| == if c.Remove? then 2 else 1
    ensures KindOf(c).Some? && SkipOf(c).Some? <==> c.Remove?
    ensures KindOf(c).Some? || SkipOf(c).Some?
  {
  }

  /** The whole changelog, counted by what its records land as or are skipped for. */
  lemma {:induction false} LogCounts(n: nat, snapshotLsn: int, changes: seq<Change>, partition: int -> nat, op: OpCode,
      reason: Reason)
    requires forall id :: partition(id) < n
    ensures var topic := Replay(n, snapshotLsn, changes, partition).topic;
            && Across(topic, LandsAs(op)) == Accepted(n, snapshotLsn, changes, partition, LandingAs(op))
            && Across(topic, SkippedFor(reason)) == Accepted(n, snapshotLsn, changes, partition, SkippingFor(reason))
  {
    hide Apply, Records, Effective, Across, LandsAs, SkippedFor, LandingAs, SkippingFor, Publish;
    if changes == [] {
      EmptyLogCounts(n, snapshotLsn, partition, LandsAs(op));
      EmptyLogCounts(n, snapshotLsn, partition, SkippedFor(reason));
    } else {
      var m := |changes| - 1;
      var db, c := Replay(n, snapshotLsn, changes[..m], partition), changes[m];
      LogCounts(n, snapshotLsn, changes[..m], partition, op, reason);
      ReplayStep(n, snapshotLsn, changes, partition);
      hide Replay;
      EffectPublishes(db, c, partition);
      if Effective(db, c) {
        var (p, rs) := Records(db, c, partition);
        RecordsOfChange(db, c, partition, op, reason);
        AcrossPublish(db.topic, p, rs, LandsAs(op));
        AcrossPublish(db.topic, p, rs, SkippedFor(reason));
      }
    }
  }

  lemma EmptyLogCounts(n: nat, snapshotLsn: int, partition: int -> nat, f: Record -> bool)
    requires forall id :: partition(id) < n
    ensures Across(Replay(n, snapshotLsn, [], partition).topic, f) == 0
  {
    AcrossNothing(Replay(n, snapshotLsn, [], partition).topic, f);
  }

  lemma ReadAll(topic: seq<seq<Record>>, start: seq<nat>, pos: seq<nat>)
    requires |topic| == |start| == |pos|
    requires forall p :: 0 <= p < |topic| ==> start[p] == 0 && pos[p] == |topic[p]|
    ensures Read(topic, start, pos) == topic
  {
    forall p | 0 <= p < |topic|
      ensures Read(topic, start, pos)[p] == topic[p]
    {
      assert topic[p][0..|topic[p]|] == topic[p];
    }
  }

  /** A run from offset 0 that read the whole changelog of a database reports one landed row of each
      operation for each accepted change of that kind, and one skipped record for each accepted delete,
      TRUNCATE and message, and counts nothing else. */
  lemma CountsAreTheChanges(n: nat, snapshotLsn: int, changes: seq<Change>, partition: int -> nat,
      w: World, batch: int, ingest: int, hs: seq<Happening>, op: OpCode, reason: Reason)
    requires forall id :: partition(id) < n
    requires WorldOk(w) && forall p :: 0 <= p < |w.committed| ==> w.committed[p] <= 0
    requires var (w', r') := Exec(w, Begin(w), batch, ingest, hs);
             && w'.topic == Replay(n, snapshotLsn, changes, partition).topic && |r'.pos| == n
             && forall p :: 0 <= p < n ==> r'.pos[p] == |w'.topic[p]|
    ensures var r' := Exec(w, Begin(w), batch, ingest, hs).1;
            && r'.byOp[op] == Accepted(n, snapshotLsn, changes, partition, LandingAs(op))
            && r'.skipped[reason] == Accepted(n, snapshotLsn, changes, partition, SkippingFor(reason))
  {
    hide Across, Replay, Accepted, LandsAs, SkippedFor, LandingAs, SkippingFor, Exec, Read;
    var (w', r') := Exec(w, Begin(w), batch, ingest, hs);
    BeginIsTallied(w);
    ExecKeepsTallied(w, Begin(w), batch, ingest, hs);
    ReadAll(w'.topic, r'.start, r'.pos);
    LogCounts(n, snapshotLsn, changes, partition, op, reason);
  }

  // ----- batches -----

  /** The size at which a batch is full; anything below 1 counts as 1. */
  function Full(batch: int): nat { if batch < 1 then 1 else batch }

  ghost predicate BatchOk(r: Run, batch: int) {
    && (r.phase == Polling ==> |r.rows| < Full(batch))
    && (r.phase == Inserting ==> |r.rows| == Full(batch))
    && (r.phase == LastInsert ==> 0 < |r.rows| < Full(batch))
    && (r.phase == Committing || r.phase == LastCommit || r.phase == Finished ==> r.rows == [])
  }

  lemma StepKeepsBatch(w: World, r: Run, batch: int, ingest: int, h: Happening)
    requires |w.committed| == |w.topic| == |r.start| == |r.pos| && BatchOk(r, batch)
    ensures var (w', r') := Step(w, r, batch, ingest, h);
            BatchOk(r', batch) && |w'.committed| == |w'.topic| == |r'.start| == |r'.pos|
  {
    hide EnvelopeToValues;
  }

  lemma {:induction false} ExecKeepsBatch(w: World, r: Run, batch: int, ingest: int, hs: seq<Happening>)
    requires |w.committed| == |w.topic| == |r.start| == |r.pos| && BatchOk(r, batch)
    ensures BatchOk(Exec(w, r, batch, ingest, hs).1, batch)
    decreases |hs|
  {
    hide Step, BatchOk;
    if hs != [] && r.phase != Dead && r.phase != Finished {
      StepKeepsBatch(w, r, batch, ingest, hs[0]);
      var (w', r') := Step(w, r, batch, ingest, hs[0]);
      ExecKeepsBatch(w', r', batch, ingest, hs[1..]);
    }
  }

  /** At every point of every run: fewer rows are pending than make a batch while polling goes on, the
      insert that interrupts it is of exactly a full batch, and the last is of what is left, if anything. */
  lemma BatchesAreFull(w: World, batch: int, ingest: int, hs: seq<Happening>)
    requires WorldOk(w)
    ensures var r := Exec(w, Begin(w), batch, ingest, hs).1;
            && (r.phase == Polling ==> |r.rows| < Full(batch))
            && (r.phase == Inserting ==> |r.rows| == Full(batch))
            && (r.phase == LastInsert ==> 0 < |r.rows| < Full(batch))
            && (r.phase == Committing || r.phase == LastCommit || r.phase == Finished ==> r.rows == [])
  {
    hide Exec;
    ExecKeepsBatch(w, Begin(w), batch, ingest, hs);
  }

  /** The table only grows, by rows of this run's own ingest time. */
  ghost predicate GrownBy(before: seq<Row>, w: World, r: Run, ingest: int) {
    && before <= w.table
    && (forall i :: |before| <= i < |w.table| ==> w.table[i].ingest == ingest)
    && forall i :: 0 <= i < |r.rows| ==> r.rows[i].ingest == ingest
  }

  lemma StepKeepsGrown(before: seq<Row>, w: World, r: Run, batch: int, ingest: int, h: Happening)
    requires |w.committed| == |w.topic| == |r.start| == |r.pos| && GrownBy(before, w, r, ingest)
    ensures var (w', r') := Step(w, r, batch, ingest, h);
            GrownBy(before, w', r', ingest) && |w'.committed| == |w'.topic| == |r'.start| == |r'.pos|
  {
    hide Append, Complete, Receive;
    if h.Proceed? {
      CompleteKeepsGrown(before, w, r, ingest);
    } else if h.Deliver? && r.phase == Polling && h.partition < |w.topic|
      && r.pos[h.partition] < |w.topic[h.partition]| {
      ReceiveKeepsGrown(before, w, r, batch, ingest, h.partition);
    } else if h.Appended? {
      AppendKeepsTable(w, h.partition, h.record);
    }
  }

  lemma AppendKeepsTable(w: World, p: nat, record: Record)
    ensures var w' := Append(w, p, record);
            w'.table == w.table && w'.committed == w.committed && |w'.topic| == |w.topic|
  {
  }

  lemma CompleteKeepsGrown(before: seq<Row>, w: World, r: Run, ingest: int)
    requires |w.committed| == |w.topic| == |r.start| == |r.pos| && GrownBy(before, w, r, ingest)
    ensures var (w', r') := Complete(w, r);
            GrownBy(before, w', r', ingest) && |w'.committed| == |w'.topic| == |r'.start| == |r'.pos|
  {
  }

  lemma ReceiveKeepsGrown(before: seq<Row>, w: World, r: Run, batch: int, ingest: int, p: nat)
    requires |w.topic| == |r.pos| && p < |w.topic| && r.pos[p] < |w.topic[p]| && GrownBy(before, w, r, ingest)
    ensures var r' := Receive(w, r, batch, ingest, p);
            GrownBy(before, w, r', ingest) && |r'.pos| == |r.pos| && r'.start == r.start
  {
  }

  lemma {:induction false} ExecKeepsGrown(before: seq<Row>, w: World, r: Run, batch: int, ingest: int,
      hs: seq<Happening>)
    requires |w.committed| == |w.topic| == |r.start| == |r.pos| && GrownBy(before, w, r, ingest)
    ensures var (w', r') := Exec(w, r, batch, ingest, hs); GrownBy(before, w', r', ingest)
    decreases |hs|
  {
    hide Step, GrownBy;
    if hs != [] && r.phase != Dead && r.phase != Finished {
      StepKeepsGrown(before, w, r, batch, ingest, hs[0]);
      var (w', r') := Step(w, r, batch, ingest, hs[0]);
      ExecKeepsGrown(before, w', r', batch, ingest, hs[1..]);
    }
  }

  // ----- the guard -----

  /** The guard can refuse where nothing is missing: one tombstone landed leaves an empty table and a
      committed offset, and the next run is refused though the table covers the topic. */
  lemma GuardCanRefuseForNothing(ingest: int)
    ensures var tombstone := Record(Some(1), None);
            var w := History(1, [Produce(0, tombstone), Land(1, ingest, [Deliver(0), Timeout, Proceed])]);
            Refused(w) && Covered(w)
  {
    hide Exec, Act, Refused, Covered;
    var tombstone := Record(Some(1), None);
    var actions := [Produce(0, tombstone), Land(1, ingest, [Deliver(0), Timeout, Proceed])];
    assert actions[..1] == [actions[0]] && actions[..1][..0] == [];
    assert History(1, actions[..1]) == Act(Pristine(1), actions[0]);
    TombstoneProduced(tombstone);
    TombstoneLanded(World([[tombstone]], [-1], []), tombstone, ingest);
  }

  lemma TombstoneProduced(tombstone: Record)
    ensures Act(Pristine(1), Produce(0, tombstone)) == World([[tombstone]], [-1], [])
  {
    assert Pristine(1).topic == [[]] && Pristine(1).committed == [-1];
    var topic := Pristine(1).topic;
    assert topic[0 := topic[0] + [tombstone]][0] == [tombstone];
    assert topic[0 := topic[0] + [tombstone]] == [[tombstone]];
  }

  lemma TombstoneLanded(w: World, tombstone: Record, ingest: int)
    requires w == World([[tombstone]], [-1], []) && tombstone.value.None?
    ensures var w' := Act(w, Land(1, ingest, [Deliver(0), Timeout, Proceed])); Refused(w') && Covered(w')
  {
    var hs := [Deliver(0), Timeout, Proceed];
    var r := Begin(w);
    assert r.pos == [0] && r.start == [0];
    var r1 := Step(w, r, 1, ingest, hs[0]).1;
    assert r1.phase == Polling && r1.pos == [1] && r1.start == [0] && r1.skipped == multiset{Tombstone}
      && r1.rows == [];
    var r2 := Step(w, r1, 1, ingest, hs[1]).1;
    assert r2 == r1.(phase := LastCommit);
    var (w', r') := Step(w, r2, 1, ingest, hs[2]);
    assert w' == World([[tombstone]], [1], []);
    hide Step;
    assert hs[1..] == [Timeout, Proceed] && hs[1..][1..] == [Proceed] && hs[1..][1..][1..] == [];
    assert Exec(w', r', 1, ingest, []) == (w', r');
    assert Exec(w, r2, 1, ingest, [Proceed]) == (w', r');
    assert Exec(w, r1, 1, ingest, [Timeout, Proceed]) == (w', r');
    assert Exec(w, r, 1, ingest, hs) == (w', r');
    NothingMissing(w', tombstone);
  }

  lemma NothingMissing(w: World, tombstone: Record)
    requires w == World([[tombstone]], [1], []) && tombstone.value.None?
    ensures Refused(w) && Covered(w)
  {
    assert w.committed[0] == 1;
  }

  /** Otherwise it lets runs through: whenever the table has a row, and after every reset of the group. */
  lemma GuardLetsThrough(n: nat, actions: seq<Action>)
    ensures History(n, actions).table != [] ==> !Refused(History(n, actions))
    ensures !Refused(History(n, actions + [ResetGroup])) && !Refused(History(n, []))
  {
    assert (actions + [ResetGroup])[..|actions|] == actions;
  }
}
