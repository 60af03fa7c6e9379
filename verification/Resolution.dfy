/** dbt/models/staging/stg_prompt_versions.sql: which row of a key the staging model ranks first.

    Over a table in which the whole changelog landed, records repeated however often, it is the row
    of the key's last record, and so it says what the changelog last told of the key. */
module Resolution {
  import opened Wrappers
  import opened CdcLand
  import opened Changelog

  /** `a` sorts strictly before `b`: source_lsn desc nulls last, streaming before snapshot,
      kafka_offset desc, ingest_ts desc. */
  predicate Precedes(a: Row, b: Row) {
    if a.lsn != b.lsn then a.lsn.Some? && (b.lsn.None? || a.lsn.value > b.lsn.value)
    else if Rank(a.op) != Rank(b.op) then Rank(a.op) > Rank(b.op)
    else if a.offset != b.offset then a.offset > b.offset
    else a.ingest > b.ingest
  }

  /** Some row with recency 1 for its key. */
  ghost predicate IsLatest(table: seq<Row>, r: Row) {
    r in table && forall i :: 0 <= i < |table| && table[i].id == r.id ==> !Precedes(table[i], r)
  }

  // ----- resolving the landed table -----

  /** The table holds the whole changelog, each record at least once, and nothing else. */
  ghost predicate FullyLanded(table: seq<Row>, topic: seq<seq<Record>>) {
    var w := World(topic, seq(|topic|, _ => -1), table);
    && Sound(w, table)
    && forall p: nat, o: nat :: p < |topic| && o < |topic[p]| && RowBearing(topic[p][o]) ==> Has(table, w, p, o)
  }

  /** A landed row of a key is, but for its ingest time, the row of some record of that key. */
  lemma LandedRowConcerns(table: seq<Row>, topic: seq<seq<Record>>, i: nat)
    requires FullyLanded(table, topic) && i < |table|
    ensures Concerns(topic, table[i].id, table[i].partition, table[i].offset)
    ensures RowAt(topic, table[i].partition, table[i].offset, 0).row == table[i].(ingest := 0)
  {
    assert Lands(table[i], World(topic, seq(|topic|, _ => -1), table), table[i].partition, table[i].offset);
  }

  lemma {:induction false} LastConcerning(topic: seq<seq<Record>>, id: int, p: nat, o: nat) returns (last: nat)
    requires Concerns(topic, id, p, o)
    ensures o <= last && Concerns(topic, id, p, last) && forall o2: nat :: o2 > last ==> !Concerns(topic, id, p, o2)
    decreases |topic[p]| - o
  {
    if o2: nat :| o2 > o && Concerns(topic, id, p, o2) {
      last := LastConcerning(topic, id, p, o2);
    } else {
      last := o;
    }
  }

  /** Whichever row of a key the ranking picks, it is the key's last record. */
  lemma LatestIsLastRecord(db: Db, partition: int -> nat, table: seq<Row>, r: Row, last: nat)
    requires partition(r.id) < |db.topic| && Faithful(db, partition, r.id) && FullyLanded(table, db.topic)
    requires IsLatest(table, r)
    requires var p := partition(r.id);
             Concerns(db.topic, r.id, p, last) && forall o2: nat :: o2 > last ==> !Concerns(db.topic, r.id, p, o2)
    ensures RowAt(db.topic, partition(r.id), last, 0).row == r.(ingest := 0)
  {
    hide FullyLanded, Faithful, Concerns, RowAt, Precedes;
    var p := partition(r.id);
    var i :| 0 <= i < |table| && table[i] == r;
    LandedRowConcerns(table, db.topic, i);
    OnePartition(db, partition, r.id, r.partition, r.offset);
    var j := LandedRecord(table, db.topic, r.id, p, last);
    LandedRowConcerns(table, db.topic, j);
    assert !Precedes(table[j], r);
    LaterPrecedes(db, partition, r, table[j]);
  }

  lemma OnePartition(db: Db, partition: int -> nat, id: int, p: nat, o: nat)
    requires partition(id) < |db.topic| && Faithful(db, partition, id) && Concerns(db.topic, id, p, o)
    ensures p == partition(id)
  {
  }

  lemma LandedRecord(table: seq<Row>, topic: seq<seq<Record>>, id: int, p: nat, o: nat) returns (j: nat)
    requires FullyLanded(table, topic) && Concerns(topic, id, p, o)
    ensures j < |table| && table[j].id == id && table[j].partition == p && table[j].offset == o
  {
    var w := World(topic, seq(|topic|, _ => -1), table);
    assert Has(table, w, p, o);
    j :| 0 <= j < |table| && Lands(table[j], w, p, o);
  }

  /** Of two rows of one key, that of the later record sorts first. */
  lemma LaterPrecedes(db: Db, partition: int -> nat, a: Row, b: Row)
    requires a.id == b.id && partition(a.id) < |db.topic| && Faithful(db, partition, a.id)
    requires forall r :: r in {a, b} ==>
      Concerns(db.topic, r.id, partition(a.id), r.offset)
        && RowAt(db.topic, partition(a.id), r.offset, 0).row == r.(ingest := 0)
    ensures a.offset < b.offset ==> Precedes(b, a)
  {
    var p := partition(a.id);
    assert a.offset < b.offset ==> InOrder(RowAt(db.topic, p, a.offset, 0).row, RowAt(db.topic, p, b.offset, 0).row);
    assert RowAt(db.topic, p, a.offset, 0).row == a.(ingest := 0)
      && RowAt(db.topic, p, b.offset, 0).row == b.(ingest := 0);
  }

  lemma {:induction false} LatestExists(table: seq<Row>, id: int) returns (r: Row)
    requires exists i :: 0 <= i < |table| && table[i].id == id
    ensures r.id == id && IsLatest(table, r)
  {
    var n := |table| - 1;
    var rest := table[..n];
    assert forall i :: 0 <= i < n ==> rest[i] == table[i];
    if i :| 0 <= i < n && rest[i].id == id {
      r := LatestExists(rest, id);
      if table[n].id == id && Precedes(table[n], r) {
        r := table[n];
      }
    } else {
      r := table[n];
    }
  }

  lemma LatestTells(db: Db, partition: int -> nat, table: seq<Row>, r: Row)
    requires partition(r.id) < |db.topic| && Faithful(db, partition, r.id) && FullyLanded(table, db.topic)
    requires IsLatest(table, r)
    ensures Told(db, r.id) == Some((r.op != Delete, r.body))
  {
    var i :| 0 <= i < |table| && table[i] == r;
    LandedRowConcerns(table, db.topic, i);
    var last := LastConcerning(db.topic, r.id, partition(r.id), r.offset);
    LatestIsLastRecord(db, partition, table, r, last);
    assert Tells(db, r.id, partition(r.id), last);
  }

  lemma LatestExistsForRecord(topic: seq<seq<Record>>, table: seq<Row>, id: int, p: nat, o: nat) returns (r: Row)
    requires FullyLanded(table, topic) && Concerns(topic, id, p, o)
    ensures IsLatest(table, r) && r.id == id
  {
    var i := LandedRecord(table, topic, id, p, o);
    r := LatestExists(table, id);
  }
}
