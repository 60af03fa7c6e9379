/** From a database through Debezium, the lander and stg_prompt_versions.sql: the resolution gives back the database. */
module CdcReplay {
  import opened Wrappers
  import opened CdcLand
  import opened Changelog
  import opened Resolution

  /** After any changes, every key's records are in order and its last one tells. */
  lemma {:induction false} ReplayIsFaithful(n: nat, snapshotLsn: int, changes: seq<Change>, partition: int -> nat,
      id: int)
    requires forall k :: partition(k) < n
    ensures Faithful(Replay(n, snapshotLsn, changes, partition), partition, id)
  {
    if changes != [] {
      ReplayIsFaithful(n, snapshotLsn, changes[..|changes| - 1], partition, id);
      ApplyKeepsFaithful(Replay(n, snapshotLsn, changes[..|changes| - 1], partition), changes[|changes| - 1], partition,
        id);
    }
  }

  /** The resolution shows the database for key `id`: a live row with its body, a row that is gone as
      deleted with its last image, and nothing for a row that never was. */
  ghost predicate Shows(table: seq<Row>, db: Db, id: int) {
    && (forall r :: IsLatest(table, r) && r.id == id ==>
          if id in db.rows then r.op != Delete && r.body == db.rows[id]
          else r.op == Delete && WasLast(db, id, r.body))
    && (id in db.rows || id in db.deleted || id in db.lost <==> exists r :: IsLatest(table, r) && r.id == id)
  }

  ghost predicate WasLast(db: Db, id: int, body: string) {
    (id in db.deleted && body == db.deleted[id]) || (id in db.lost && body == db.lost[id])
  }

  /** For any history of captures, inserts, updates, deletes and TRUNCATEs, and any table in which the
      changelog landed, records repeated however often: the resolution shows the database for exactly
      the keys that no TRUNCATE took; for those it still shows the last image as alive. */
  lemma ResolutionRecoversTheDatabase(n: nat, snapshotLsn: int, changes: seq<Change>, partition: int -> nat,
      table: seq<Row>, id: int)
    requires forall k :: partition(k) < n
    requires FullyLanded(table, Replay(n, snapshotLsn, changes, partition).topic)
    ensures var db := Replay(n, snapshotLsn, changes, partition);
            && (Shows(table, db, id) <==> id !in db.lost)
            && forall r :: IsLatest(table, r) && r.id == id && id in db.lost ==> r.op != Delete && r.body == db.lost[id]
  {
    hide FullyLanded, Faithful, IsLatest;
    var db := Replay(n, snapshotLsn, changes, partition);
    ReplayIsFaithful(n, snapshotLsn, changes, partition, id);
    FaithfulPlace(db, partition, id);
    forall r | IsLatest(table, r) && r.id == id
      ensures Told(db, id) == Some((r.op != Delete, r.body))
    {
      LatestTells(db, partition, table, r);
    }
    if o: nat :| Concerns(db.topic, id, partition(id), o) {
      var r := LatestExistsForRecord(db.topic, table, id, partition(id), o);
    }
  }

  lemma FaithfulPlace(db: Db, partition: int -> nat, id: int)
    requires partition(id) < |db.topic| && Faithful(db, partition, id)
    ensures InOnePlace(db, id) && (Told(db, id).Some? <==> exists o: nat :: Concerns(db.topic, id, partition(id), o))
  {
  }

  lemma InsertedThenTruncated(id: int, body: string, partition: int -> nat)
    requires forall k :: partition(k) < 1
    ensures var db := Replay(1, 0, [Insert(id, body, 1), Change.Truncate(0, 2)], partition);
            db.rows == map[] && id in db.lost && db.lost[id] == body
  {
    hide Publish, RowRecord;
    var changes := [Insert(id, body, 1), Change.Truncate(0, 2)];
    assert changes[..1] == [Insert(id, body, 1)] && changes[..1][..0] == [];
    var db := Replay(1, 0, changes[..1], partition);
    assert db == Apply(Replay(1, 0, changes[..1][..0], partition), Insert(id, body, 1), partition);
    assert Replay(1, 0, changes, partition) == Apply(db, Change.Truncate(0, 2), partition);
  }

  /** One row, truncated: it is gone, and resolves as alive. */
  lemma TruncateIsNotRecovered(id: int, body: string, partition: int -> nat, table: seq<Row>)
    requires forall k :: partition(k) < 1
    requires FullyLanded(table, Replay(1, 0, [Insert(id, body, 1), Change.Truncate(0, 2)], partition).topic)
    ensures Replay(1, 0, [Insert(id, body, 1), Change.Truncate(0, 2)], partition).rows == map[]
    ensures exists r :: IsLatest(table, r) && r.id == id && r.op != Delete && r.body == body
  {
    hide FullyLanded, IsLatest, Replay, Faithful, Concerns;
    var changes := [Insert(id, body, 1), Change.Truncate(0, 2)];
    InsertedThenTruncated(id, body, partition);
    ResolutionRecoversTheDatabase(1, 0, changes, partition, table, id);
    ReplayIsFaithful(1, 0, changes, partition, id);
    FaithfulPlace(Replay(1, 0, changes, partition), partition, id);
    var o: nat :| Concerns(Replay(1, 0, changes, partition).topic, id, partition(id), o);
    var r := LatestExistsForRecord(Replay(1, 0, changes, partition).topic, table, id, partition(id), o);
  }

  /** Which keys those are: a key's row was there, a TRUNCATE came, and it was never there again. */
  lemma {:induction false} LostIffTruncatedLast(n: nat, snapshotLsn: int, changes: seq<Change>, partition: int -> nat,
      id: int)
    requires forall k :: partition(k) < n
    ensures id in Replay(n, snapshotLsn, changes, partition).lost
       <==> exists i :: 0 <= i < |changes| && TruncatedAt(n, snapshotLsn, changes, partition, id, i)
  {
    hide Replay, TruncatedAt, Apply;
    if changes == [] {
      NothingReplayed(n, snapshotLsn, partition);
    } else {
      var m := |changes| - 1;
      LostIffTruncatedLast(n, snapshotLsn, changes[..m], partition, id);
      LostStep(n, snapshotLsn, changes, partition, id);
      forall i | 0 <= i < m
        ensures TruncatedAt(n, snapshotLsn, changes, partition, id, i)
           <==>
             && TruncatedAt(n, snapshotLsn, changes[..m], partition, id, i)
             && id !in Replay(n, snapshotLsn, changes, partition).rows
      {
        TruncatedStill(n, snapshotLsn, changes, partition, id, i);
      }
      TruncatedNow(n, snapshotLsn, changes, partition, id);
    }
  }

  lemma NothingReplayed(n: nat, snapshotLsn: int, partition: int -> nat)
    requires forall k :: partition(k) < n
    ensures Replay(n, snapshotLsn, [], partition).lost == map[]
  {
  }

  /** Change number `i` is a TRUNCATE that finds the row, and the row is not there after it or later. */
  ghost predicate TruncatedAt(n: nat, snapshotLsn: int, changes: seq<Change>, partition: int -> nat, id: int, i: nat)
    requires i < |changes| && forall k :: partition(k) < n
  {
    && changes[i].Truncate? && id in Replay(n, snapshotLsn, changes[..i], partition).rows
    && forall j :: i < j <= |changes| ==> id !in Replay(n, snapshotLsn, changes[..j], partition).rows
  }

  lemma LostStep(n: nat, snapshotLsn: int, changes: seq<Change>, partition: int -> nat, id: int)
    requires changes != [] && forall k :: partition(k) < n
    ensures var m := |changes| - 1;
            var db, db' := Replay(n, snapshotLsn, changes[..m], partition), Replay(n, snapshotLsn, changes, partition);
            id in db'.lost <==> id !in db'.rows && (id in db.lost || (changes[m].Truncate? && id in db.rows))
  {
    hide Apply, Faithful, InOnePlace;
    var db := Replay(n, snapshotLsn, changes[..|changes| - 1], partition);
    ReplayIsFaithful(n, snapshotLsn, changes[..|changes| - 1], partition, id);
    FaithfulPlace(db, partition, id);
    ApplyLoses(db, changes[|changes| - 1], partition, id);
  }

  lemma ApplyLoses(db: Db, c: Change, partition: int -> nat, id: int)
    requires (forall k :: partition(k) < |db.topic|) && InOnePlace(db, id)
    ensures var db' := Apply(db, c, partition);
            id in db'.lost <==> id !in db'.rows && (id in db.lost || (c.Truncate? && id in db.rows))
  {
    hide Publish;
  }

  lemma TruncatedStill(n: nat, snapshotLsn: int, changes: seq<Change>, partition: int -> nat, id: int, i: nat)
    requires changes != [] && i < |changes| - 1 && forall k :: partition(k) < n
    ensures TruncatedAt(n, snapshotLsn, changes, partition, id, i)
       <==>
         && TruncatedAt(n, snapshotLsn, changes[..|changes| - 1], partition, id, i)
         && id !in Replay(n, snapshotLsn, changes, partition).rows
  {
    hide Replay;
    var m := |changes| - 1;
    assert changes[..|changes|] == changes && changes[..m][..i] == changes[..i];
    forall j | 0 <= j <= m
      ensures changes[..m][..j] == changes[..j]
    {
    }
    assert changes[..m][i] == changes[i];
  }

  lemma TruncatedNow(n: nat, snapshotLsn: int, changes: seq<Change>, partition: int -> nat, id: int)
    requires changes != [] && forall k :: partition(k) < n
    ensures var m := |changes| - 1;
            TruncatedAt(n, snapshotLsn, changes, partition, id, m)
            <==> changes[m].Truncate? && id in Replay(n, snapshotLsn, changes[..m], partition).rows
                 && id !in Replay(n, snapshotLsn, changes, partition).rows
  {
    hide Replay;
    assert changes[..|changes|] == changes;
  }

  /** End to end: whatever crashed, was replayed or refused before, once a run has drained the
      topic of a database's changelog, the resolution shows the database. */
  lemma LandedTableRecoversTheDatabase(
      n: nat, snapshotLsn: int, changes: seq<Change>, partition: int -> nat,
      actions: seq<Action>, batch: int, ingest: int, hs: seq<Happening>, id: int)
    requires forall k :: partition(k) < n
    requires !Refused(History(n, actions))
    requires var w := History(n, actions);
             var (w', r') := Exec(w, Begin(w), batch, ingest, hs);
             && r'.phase == Finished && |r'.pos| == |w'.topic|
                && (forall p :: 0 <= p < |w'.topic| ==> r'.pos[p] == |w'.topic[p]|)
             && w'.topic == Replay(n, snapshotLsn, changes, partition).topic
    ensures var db := Replay(n, snapshotLsn, changes, partition);
            var table := Exec(History(n, actions), Begin(History(n, actions)), batch, ingest, hs).0.table;
            && (Shows(table, db, id) <==> id !in db.lost)
            && forall r :: IsLatest(table, r) && r.id == id && id in db.lost ==> r.op != Delete && r.body == db.lost[id]
  {
    var w := History(n, actions);
    var w' := Exec(w, Begin(w), batch, ingest, hs).0;
    CommitsNeverPassAMissingRow(n, actions, batch, ingest, hs);
    DrainedRunCoversTheTopic(n, actions, batch, ingest, hs);
    LandedInAnyGroup(w');
    ResolutionRecoversTheDatabase(n, snapshotLsn, changes, partition, w'.table, id);
  }

  /** What a table holds does not depend on what the group has committed. */
  lemma LandedInAnyGroup(w: World)
    requires Sound(w, w.table)
    requires forall p: nat, o: nat :: p < |w.topic| && o < |w.topic[p]| && RowBearing(w.topic[p][o]) ==>
             Has(w.table, w, p, o)
    ensures FullyLanded(w.table, w.topic)
  {
    var w' := World(w.topic, seq(|w.topic|, _ => -1), w.table);
    forall i | 0 <= i < |w.table|
      ensures Lands(w.table[i], w', w.table[i].partition, w.table[i].offset)
    {
      assert Lands(w.table[i], w, w.table[i].partition, w.table[i].offset);
    }
    forall p: nat, o: nat | p < |w.topic| && o < |w.topic[p]| && RowBearing(w.topic[p][o])
      ensures Has(w.table, w', p, o)
    {
      var i :| 0 <= i < |w.table| && Lands(w.table[i], w, p, o);
      assert Lands(w.table[i], w', p, o);
    }
  }
}
