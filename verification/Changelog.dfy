/** A table and the changelog that Debezium makes of it.

    The changes a database may go through, the records each publishes, and what the records of one
    key keep saying: they lie in one partition, in the order in which the staging model resolves
    them, and the last tells what became of the row. */
module Changelog {
  import opened Wrappers
  import opened CdcLand

  // ----- the database and its changelog -----

  /** A row captured by the initial snapshot, a committed change, or a record that is no change. */
  datatype Change =
    | Capture(id: int, body: string)
    | Insert(id: int, body: string, lsn: int)
    | Edit(id: int, body: string, lsn: int)
    | Remove(id: int, lsn: int)
    | Truncate(partition: nat, lsn: int)
    | Noise(partition: nat)

  /** `deleted` and `lost` remember the last image of every row that is gone: deleted, or removed by a
      TRUNCATE. */
  datatype Db = Db(
    rows: map<int, string>, deleted: map<int, string>, lost: map<int, string>,
    lsn: int, streaming: bool, topic: seq<seq<Record>>)

  function Publish(topic: seq<seq<Record>>, p: nat, rs: seq<Record>): seq<seq<Record>>
    requires p < |topic|
  {
    topic[p := topic[p] + rs]
  }

  function RowRecord(op: OpCode, id: int, before: Option<string>, after: Option<string>, lsn: int): Record {
    Record(Some(id), Some(Envelope(op,
      if before.Some? then Some(Image(Some(id), before.value)) else None,
      if after.Some? then Some(Image(Some(id), after.value)) else None, Some(lsn))))
  }

  function NoRow(op: OpCode, lsn: int): Record { Record(None, Some(Envelope(op, None, None, Some(lsn)))) }

  /** Streaming LSNs never decrease and are not below the snapshot's; a change that the database
      would refuse has no effect. A delete is followed by its tombstone. A TRUNCATE empties the
      table under one record without a row image. */
  function Apply(db: Db, c: Change, partition: int -> nat): (db': Db)
    requires forall id :: partition(id) < |db.topic|
    ensures |db'.topic| == |db.topic|
  {
    match c
    case Capture(id, body) =>
      if db.streaming || id in db.rows then db
      else db.(rows := db.rows[id := body], deleted := db.deleted - {id}, lost := db.lost - {id},
               topic := Publish(db.topic, partition(id), [RowRecord(Snapshot, id, None, Some(body), db.lsn)]))
    case Insert(id, body, lsn) =>
      if id in db.rows || lsn < db.lsn then db
      else db.(rows := db.rows[id := body], deleted := db.deleted - {id}, lost := db.lost - {id},
               lsn := lsn, streaming := true,
               topic := Publish(db.topic, partition(id), [RowRecord(Create, id, None, Some(body), lsn)]))
    case Edit(id, body, lsn) =>
      if id !in db.rows || lsn < db.lsn then db
      else db.(rows := db.rows[id := body], lsn := lsn, streaming := true,
               topic := Publish(db.topic, partition(id), [RowRecord(Update, id, Some(db.rows[id]), Some(body), lsn)]))
    case Remove(id, lsn) =>
      if id !in db.rows || lsn < db.lsn then db
      else db.(rows := db.rows - {id}, deleted := db.deleted[id := db.rows[id]], lsn := lsn, streaming := true,
               topic := Publish(db.topic, partition(id),
                 [RowRecord(Delete, id, Some(db.rows[id]), None, lsn), Record(Some(id), None)]))
    case Truncate(p, lsn) =>
      if p >= |db.topic| || lsn < db.lsn then db
      else db.(rows := map[], lost := db.lost + db.rows, lsn := lsn, streaming := true,
               topic := Publish(db.topic, p, [NoRow(OpCode.Truncate, lsn)]))
    case Noise(p) =>
      if p < |db.topic| then db.(topic := Publish(db.topic, p, [NoRow(Message, db.lsn)])) else db
  }

  function Replay(n: nat, snapshotLsn: int, changes: seq<Change>, partition: int -> nat): (db: Db)
    requires forall id :: partition(id) < n
    ensures |db.topic| == n
  {
    if changes == [] then Db(map[], map[], map[], snapshotLsn, false, seq(n, _ => []))
    else Apply(Replay(n, snapshotLsn, changes[..|changes| - 1], partition), changes[|changes| - 1], partition)
  }

  // ----- the changelog invariant -----

  /** The row that record `o` of partition `p` becomes. */
  function RowAt(topic: seq<seq<Record>>, p: nat, o: nat, ingest: int): Parsed
    requires p < |topic| && o < |topic[p]|
  {
    EnvelopeToValues(topic[p][o].value, p, o, ingest)
  }

  /** Record `o` of partition `p` is a row of key `id`. */
  predicate Concerns(topic: seq<seq<Record>>, id: int, p: nat, o: nat) {
    p < |topic| && o < |topic[p]| && RowAt(topic, p, o, 0).Values? && RowAt(topic, p, o, 0).row.id == id
  }

  function Rank(op: OpCode): int { if op == Snapshot then 0 else 1 }

  /** What the changelog can say of a row: whether it lives, and its current or last image. A
      TRUNCATE says nothing. */
  function Told(db: Db, id: int): Option<(bool, string)> {
    if id in db.rows then Some((true, db.rows[id]))
    else if id in db.lost then Some((true, db.lost[id]))
    else if id in db.deleted then Some((false, db.deleted[id]))
    else None
  }

  ghost predicate InOnePlace(db: Db, id: int) {
    !(id in db.rows && id in db.deleted) && !(id in db.rows && id in db.lost) && !(id in db.deleted && id in db.lost)
  }

  /** The last record of key `id`, at offset `o`, says it. */
  ghost predicate Tells(db: Db, id: int, p: nat, o: nat)
    requires Concerns(db.topic, id, p, o)
  {
    var row := RowAt(db.topic, p, o, 0).row;
    Told(db, id) == Some((row.op != Delete, row.body))
  }

  /** Later records of one key sort before earlier ones, or tie up to the offset. */
  ghost predicate InOrder(a: Row, b: Row) {
    a.lsn.Some? && b.lsn.Some?
      && (a.lsn.value < b.lsn.value || (a.lsn.value == b.lsn.value && Rank(a.op) <= Rank(b.op)))
  }

  ghost predicate Faithful(db: Db, partition: int -> nat, id: int)
    requires partition(id) < |db.topic|
  {
    var p := partition(id);
    && InOnePlace(db, id)
    && (forall q: nat, o: nat :: Concerns(db.topic, id, q, o) ==> q == p)
    && (forall o: nat :: Concerns(db.topic, id, p, o) ==>
          var row := RowAt(db.topic, p, o, 0).row;
          row.lsn.Some? && row.lsn.value <= db.lsn && (!db.streaming ==> row.op == Snapshot))
    && (forall o1: nat, o2: nat :: o1 < o2 && Concerns(db.topic, id, p, o1) && Concerns(db.topic, id, p, o2) ==>
          InOrder(RowAt(db.topic, p, o1, 0).row, RowAt(db.topic, p, o2, 0).row))
    && (forall o: nat ::
          Concerns(db.topic, id, p, o) && (forall o2: nat :: o2 > o ==> !Concerns(db.topic, id, p, o2)) ==>
            Tells(db, id, p, o))
    && (Told(db, id).Some? <==> exists o: nat :: Concerns(db.topic, id, p, o))
  }

  /** What a published batch means for the records of one key. */
  lemma Published(topic: seq<seq<Record>>, q: nat, rs: seq<Record>, id: int, p: nat, o: nat)
    requires q < |topic| && p < |topic|
    ensures var topic' := Publish(topic, q, rs);
            && (o < |topic[p]| ==> o < |topic'[p]| && topic'[p][o] == topic[p][o])
            && (o >= |topic[p]| ==> (o < |topic'[p]| <==> p == q && o < |topic[q]| + |rs|))
            && (o >= |topic[p]| && o < |topic'[p]| ==> topic'[p][o] == rs[o - |topic[p]|])
  {
  }

  /** Records of other keys, or of none, do not concern `id`. */
  lemma OtherRecords(db: Db, db': Db, partition: int -> nat, id: int, q: nat, rs: seq<Record>)
    requires partition(id) < |db.topic| && q < |db.topic| && Faithful(db, partition, id)
    requires db'.topic == Publish(db.topic, q, rs) && db'.lsn >= db.lsn && (db.streaming ==> db'.streaming)
    requires forall i :: 0 <= i < |rs| ==> var v := EnvelopeToValues(rs[i].value, 0, 0, 0); v.Values? ==> v.row.id != id
    requires Told(db', id) == Told(db, id) && InOnePlace(db', id)
    ensures Faithful(db', partition, id)
  {
    forall p: nat, o: nat
      ensures Concerns(db'.topic, id, p, o) <==> Concerns(db.topic, id, p, o)
    {
      if p < |db.topic| {
        Published(db.topic, q, rs, id, p, o);
      }
    }
    forall p: nat, o: nat | Concerns(db.topic, id, p, o)
      ensures RowAt(db'.topic, p, o, 0) == RowAt(db.topic, p, o, 0)
    {
      Published(db.topic, q, rs, id, p, o);
    }
  }

  /** A new record of `id`, possibly with a tombstone after it, becomes the one that tells. */
  lemma OwnRecord(db: Db, db': Db, partition: int -> nat, id: int, rs: seq<Record>)
    requires partition(id) < |db.topic| && Faithful(db, partition, id)
    requires db'.topic == Publish(db.topic, partition(id), rs) && db'.lsn >= db.lsn && (db.streaming ==> db'.streaming)
    requires |rs| > 0 && (forall i :: 0 < i < |rs| ==> rs[i].value.None?)
    requires var v := EnvelopeToValues(rs[0].value, 0, 0, 0);
             && v.Values? && v.row.id == id && v.row.lsn == Some(db'.lsn)
             && (if db'.streaming then v.row.op != Snapshot else v.row.op == Snapshot)
             && InOnePlace(db', id) && Told(db', id) == Some((v.row.op != Delete, v.row.body))
    ensures Faithful(db', partition, id)
  {
    var p := partition(id);
    var n := |db.topic[p]|;
    forall q: nat, o: nat
      ensures Concerns(db'.topic, id, q, o) <==> Concerns(db.topic, id, q, o) || (q == p && o == n)
    {
      if q < |db.topic| {
        Published(db.topic, p, rs, id, q, o);
      }
    }
    forall o: nat | Concerns(db.topic, id, p, o)
      ensures RowAt(db'.topic, p, o, 0) == RowAt(db.topic, p, o, 0) && o < n
    {
      Published(db.topic, p, rs, id, p, o);
    }
    Published(db.topic, p, rs, id, p, n);
    assert Concerns(db'.topic, id, p, n);
  }

  /** The records that a change publishes, and where. */
  function Records(db: Db, c: Change, partition: int -> nat): (nat, seq<Record>) {
    match c
    case Capture(id, body) => (partition(id), [RowRecord(Snapshot, id, None, Some(body), db.lsn)])
    case Insert(id, body, lsn) => (partition(id), [RowRecord(Create, id, None, Some(body), lsn)])
    case Edit(id, body, lsn) =>
      (partition(id), [RowRecord(Update, id, if id in db.rows then Some(db.rows[id]) else None, Some(body), lsn)])
    case Remove(id, lsn) =>
      (partition(id),
       [RowRecord(Delete, id, if id in db.rows then Some(db.rows[id]) else None, None, lsn), Record(Some(id), None)])
    case Truncate(p, lsn) => (p, [NoRow(OpCode.Truncate, lsn)])
    case Noise(p) => (p, [NoRow(Message, db.lsn)])
  }

  lemma ApplyOther(db: Db, c: Change, partition: int -> nat, id: int)
    requires forall k :: partition(k) < |db.topic|
    requires Faithful(db, partition, id) && Apply(db, c, partition) != db
    requires c.Noise? || c.Truncate? || c.id != id
    ensures Faithful(Apply(db, c, partition), partition, id)
  {
    var (q, rs) := Records(db, c, partition);
    OtherRecords(db, Apply(db, c, partition), partition, id, q, rs);
  }

  /** The first record that an effective change publishes is the new state of its row. */
  lemma ChangeTells(db: Db, c: Change, partition: int -> nat)
    requires forall k :: partition(k) < |db.topic|
    requires !c.Noise? && !c.Truncate? && Apply(db, c, partition) != db && InOnePlace(db, c.id)
    ensures var db' := Apply(db, c, partition);
            var (p, rs) := Records(db, c, partition);
            var v := EnvelopeToValues(rs[0].value, 0, 0, 0);
            && p == partition(c.id) && db'.topic == Publish(db.topic, p, rs)
            && db'.lsn >= db.lsn && (db.streaming ==> db'.streaming)
            && (forall i :: 0 < i < |rs| ==> rs[i].value.None?)
            && v.Values? && v.row.id == c.id && v.row.lsn == Some(db'.lsn)
            && (if db'.streaming then v.row.op != Snapshot else v.row.op == Snapshot)
            && InOnePlace(db', c.id) && Told(db', c.id) == Some((v.row.op != Delete, v.row.body))
  {
  }

  lemma ApplyOwn(db: Db, c: Change, partition: int -> nat)
    requires forall k :: partition(k) < |db.topic|
    requires !c.Noise? && !c.Truncate? && Faithful(db, partition, c.id) && Apply(db, c, partition) != db
    ensures Faithful(Apply(db, c, partition), partition, c.id)
  {
    ChangeTells(db, c, partition);
    OwnRecord(db, Apply(db, c, partition), partition, c.id, Records(db, c, partition).1);
  }

  lemma ApplyKeepsFaithful(db: Db, c: Change, partition: int -> nat, id: int)
    requires forall k :: partition(k) < |db.topic|
    requires Faithful(db, partition, id)
    ensures Faithful(Apply(db, c, partition), partition, id)
  {
    if Apply(db, c, partition) != db {
      if c.Noise? || c.Truncate? || c.id != id {
        ApplyOther(db, c, partition, id);
      } else {
        ApplyOwn(db, c, partition);
      }
    }
  }
}
