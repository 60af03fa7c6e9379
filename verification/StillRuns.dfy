/** Runs, cut anywhere, that leave the ids in the store as they were (services/rag/cli.py).

    A step moves nothing if it puts no chunk and drops none. Since a document's steps put only
    chunks that are missing, and drop only what they did not put, no later step of a run that names
    each document once makes up for one that moved something. */
module StillRuns {
  import opened Chunking
  import opened Bm25
  import opened Ingest
  import opened KilledDocuments

  predicate Still(x: Write) { (x.Put? ==> x.batch == []) && (x.Drop? ==> x.ids == {}) }

  ghost predicate AllStill(xs: seq<Write>) {
    forall i :: 0 <= i < |xs| ==> Still(xs[i])
  }

  /** The same chunks of `doc` are there, whatever their texts. */
  ghost predicate SameIds(a: Store, b: Store, doc: DocId) {
    forall id: ChunkId :: id.doc == doc ==> (id in a.chunks <==> id in b.chunks)
  }

  lemma StillJoin(xs: seq<Write>, ys: seq<Write>)
    ensures AllStill(xs + ys) <==> AllStill(xs) && AllStill(ys)
  {
    if AllStill(xs + ys) {
      assert forall i :: 0 <= i < |xs| ==> xs[i] == (xs + ys)[i];
      assert forall i :: 0 <= i < |ys| ==> ys[i] == (xs + ys)[|xs| + i];
    }
  }

  lemma FirstPut(doc: DocId, items: seq<Chunk>, size: nat)
    requires size > 0 && items != []
    ensures var puts := Puts(doc, Batched(items, size)); puts != [] && !Still(puts[0])
  {
  }

  lemma PutMoves(w: World, f: File, chunks: seq<Chunk>, put: seq<Chunk>, dropped: bool, after: Store)
    requires OwnRows(w.store) && Numbered(f.doc, chunks) && put <= Missing(w.store, f.doc, chunks) && put != []
    requires PartlySettled(w.store, f, chunks, put, dropped, after)
    ensures !SameIds(after, w.store, f.doc)
  {
    hide Missing;
    var missing := Missing(w.store, f.doc, chunks);
    MissingFacts(w.store, f.doc, chunks);
    assert put[0] == missing[0] && missing[0] in missing;
    var j :| 0 <= j < |chunks| && chunks[j] == missing[0];
    assert put[0].id in IdsOf(put) && put[0].id == ChunkId(f.doc, j);
  }

  lemma DropMoves(w: World, f: File, chunks: seq<Chunk>, after: Store)
    requires OwnRows(w.store) && Numbered(f.doc, chunks) && PartlySettled(w.store, f, chunks, [], true, after)
    ensures SameIds(after, w.store, f.doc) <==> ExistingIds(w.store, f.doc) - IdsOf(chunks) == {}
  {
    NoIds();
    IdsOfNumbered(f.doc, chunks);
    hide IdsOf;
    var stale := ExistingIds(w.store, f.doc) - IdsOf(chunks);
    if SameIds(after, w.store, f.doc) {
      assert forall id :: id in stale ==> id in w.store.chunks && id.doc == f.doc && id.index >= |chunks|;
      assert forall id :: id !in stale;
    }
  }

  lemma NothingMoves(store: Store, f: File, chunks: seq<Chunk>, after: Store)
    requires PartlySettled(store, f, chunks, [], false, after)
    ensures SameIds(after, store, f.doc)
  {
    NoIds();
  }

  lemma OthersAreLeft(before: Store, f: File, chunks: seq<Chunk>, put: seq<Chunk>, dropped: bool, after: Store)
    requires PartlySettled(before, f, chunks, put, dropped, after)
    ensures forall doc :: doc != f.doc ==> SameIds(after, before, doc)
  {
  }

  /** One document's steps, cut anywhere: they leave its ids alone exactly if none moved anything. */
  lemma DocIsStillIff(w: World, f: File, chunker: Chunker, size: nat, n: nat)
    requires size > 0 && Numbers(chunker) && OwnRows(w.store) && n <= |DocPlan(w.store, f, chunker, size)|
    ensures var done := DocPlan(w.store, f, chunker, size)[..n];
            var after := ApplyAll(w, done).store;
            && OwnRows(after) && (forall doc :: doc != f.doc ==> SameIds(after, w.store, doc))
            && (SameIds(after, w.store, f.doc) <==> AllStill(done))
  {
    hide ApplyAll, Batched, Missing, Front, PartlySettled, OwnRows, Puts, SameIds, Numbered, IdsOf, ExistingIds;
    DocPlanSettlesPartly(w, f, chunker, size, n);
    var chunks := chunker(f.doc, f.content);
    assert Numbered(f.doc, chunks);
    var plan, missing := DocPlan(w.store, f, chunker, size), Missing(w.store, f.doc, chunks);
    var after := ApplyAll(w, plan[..n]).store;
    FrontIsPrefix(missing, size, n);
    OthersAreLeft(w.store, f, chunks, Front(missing, size, n), n > |Batched(missing, size)|, after);
    if n == 0 {
      TakeNone(missing, size);
      NothingMoves(w.store, f, chunks, after);
    } else if missing != [] {
      FirstPut(f.doc, missing, size);
      PutMoves(w, f, chunks, Front(missing, size, n), n > |Batched(missing, size)|, after);
      assert plan[..n][0] == Puts(f.doc, Batched(missing, size))[0];
    } else {
      NoBatches(size);
      DropMoves(w, f, chunks, after);
      ClosingIsStillIff(w.store, f, chunks, n);
      assert plan == Closing(w.store, f, chunks);
    }
  }

  lemma ClosingIsStillIff(store: Store, f: File, chunks: seq<Chunk>, n: nat)
    requires 0 < n <= 3
    ensures AllStill(Closing(store, f, chunks)[..n]) <==> ExistingIds(store, f.doc) - IdsOf(chunks) == {}
  {
    var done := Closing(store, f, chunks)[..n];
    assert done[0] == Drop(ExistingIds(store, f.doc) - IdsOf(chunks));
  }

  ghost predicate Names(files: seq<File>, doc: DocId) {
    exists i :: 0 <= i < |files| && files[i].doc == doc
  }

  /** Only documents of `files` may have changed ids, and none has exactly if `still`. */
  ghost predicate MovedOnlyIn(before: Store, after: Store, files: seq<File>, still: bool) {
    && (forall doc :: !Names(files, doc) ==> SameIds(after, before, doc))
    && ((forall doc :: SameIds(after, before, doc)) <==> still)
  }

  /** A run, cut anywhere: it leaves every id alone exactly if none of its steps moved anything. */
  lemma {:induction false} RunIsStillIff(w: World, files: seq<File>, chunker: Chunker, size: nat, n: nat)
    requires size > 0 && Numbers(chunker) && OwnRows(w.store) && DistinctDocs(files)
    requires n <= |RunPlan(w, files, chunker, size)|
    ensures var done := RunPlan(w, files, chunker, size)[..n];
            MovedOnlyIn(w.store, ApplyAll(w, done).store, files, AllStill(done))
    decreases files, 1
  {
    hide ApplyAll, OwnRows, SameIds, Numbers, MovedOnlyIn;
    if files == [] {
      SaveMovesNothing(w, n);
    } else {
      hide DocPlan, AllStill, Names, Still, DistinctDocs, RunPlan;
      var plan := DocPlan(w.store, files[0], chunker, size);
      RunPlanUnfolds(w, files, chunker, size);
      PrefixOfBoth(plan, RunPlan(ApplyAll(w, plan), files[1..], chunker, size), n);
      if n <= |plan| {
        NamesFirst(files);
        DocIsStillIff(w, files[0], chunker, size, n);
        OneLeg(w.store, ApplyAll(w, plan[..n]).store, files, AllStill(plan[..n]));
      } else {
        LaterFilesAreStillIff(w, files, chunker, size, n - |plan|);
      }
    }
  }

  lemma {:induction false} LaterFilesAreStillIff(w: World, files: seq<File>, chunker: Chunker, size: nat, k: nat)
    requires size > 0 && Numbers(chunker) && OwnRows(w.store) && DistinctDocs(files) && files != []
    requires var plan := DocPlan(w.store, files[0], chunker, size);
             k <= |RunPlan(ApplyAll(w, plan), files[1..], chunker, size)|
    ensures var plan := DocPlan(w.store, files[0], chunker, size);
            var done := plan + RunPlan(ApplyAll(w, plan), files[1..], chunker, size)[..k];
            MovedOnlyIn(w.store, ApplyAll(w, done).store, files, AllStill(done))
    decreases files, 0
  {
    hide ApplyAll, OwnRows, SameIds, Numbers, MovedOnlyIn, DocPlan, AllStill, Names, Still, DistinctDocs, RunPlan;
    var plan := DocPlan(w.store, files[0], chunker, size);
    var w' := ApplyAll(w, plan);
    var later := RunPlan(w', files[1..], chunker, size)[..k];
    NamesFirst(files);
    DistinctRest(files);
    assert plan[..|plan|] == plan;
    DocIsStillIff(w, files[0], chunker, size, |plan|);
    ApplyConcat(w, plan, later);
    RunIsStillIff(w', files[1..], chunker, size, k);
    StillJoin(plan, later);
    TwoLegs(w.store, w'.store, ApplyAll(w', later).store, files, AllStill(plan), AllStill(later));
  }

  lemma PrefixOfBoth(xs: seq<Write>, ys: seq<Write>, n: nat)
    requires n <= |xs + ys|
    ensures (xs + ys)[..n] == if n <= |xs| then xs[..n] else xs + ys[..n - |xs|]
  {
  }

  lemma RunPlanUnfolds(w: World, files: seq<File>, chunker: Chunker, size: nat)
    requires size > 0 && files != []
    ensures var plan := DocPlan(w.store, files[0], chunker, size);
            RunPlan(w, files, chunker, size) == plan + RunPlan(ApplyAll(w, plan), files[1..], chunker, size)
  {
    hide DocPlan, ApplyAll;
  }

  lemma DistinctRest(files: seq<File>)
    requires files != [] && DistinctDocs(files)
    ensures DistinctDocs(files[1..])
  {
  }

  lemma NamesFirst(files: seq<File>)
    requires files != [] && DistinctDocs(files)
    ensures !Names(files[1..], files[0].doc)
    ensures forall doc :: Names(files, doc) <==> doc == files[0].doc || Names(files[1..], doc)
  {
    assert files == [files[0]] + files[1..];
    forall doc
      ensures Names(files, doc) <==> doc == files[0].doc || Names(files[1..], doc)
    {
      if Names(files[1..], doc) {
        var i :| 0 <= i < |files[1..]| && files[1..][i].doc == doc;
        assert files[i + 1].doc == doc;
      }
      if Names(files, doc) && doc != files[0].doc {
        var i :| 0 <= i < |files| && files[i].doc == doc;
        assert files[1..][i - 1].doc == doc;
      }
    }
  }

  /** What the first document moved, the later ones do not move back. */
  lemma TwoLegs(a: Store, b: Store, c: Store, files: seq<File>, first: bool, later: bool)
    requires files != [] && !Names(files[1..], files[0].doc)
    requires forall doc :: Names(files, doc) <==> doc == files[0].doc || Names(files[1..], doc)
    requires (forall doc :: doc != files[0].doc ==> SameIds(b, a, doc)) && (SameIds(b, a, files[0].doc) <==> first)
    requires MovedOnlyIn(b, c, files[1..], later)
    ensures MovedOnlyIn(a, c, files, first && later)
  {
    hide Names, SameIds;
    forall doc
      ensures SameIds(b, a, doc) ==> (SameIds(c, a, doc) <==> SameIds(c, b, doc))
      ensures SameIds(c, b, doc) ==> (SameIds(c, a, doc) <==> SameIds(b, a, doc))
    {
      SameThrough(a, b, c, doc);
    }
    assert SameIds(c, b, files[0].doc);
  }

  lemma OneLeg(a: Store, b: Store, files: seq<File>, first: bool)
    requires files != [] && forall doc :: Names(files, doc) <==> doc == files[0].doc || Names(files[1..], doc)
    requires (forall doc :: doc != files[0].doc ==> SameIds(b, a, doc)) && (SameIds(b, a, files[0].doc) <==> first)
    ensures MovedOnlyIn(a, b, files, first)
  {
    hide Names, SameIds;
  }

  lemma SameThrough(a: Store, b: Store, c: Store, doc: DocId)
    ensures SameIds(b, a, doc) ==> (SameIds(c, a, doc) <==> SameIds(c, b, doc))
    ensures SameIds(c, b, doc) ==> (SameIds(c, a, doc) <==> SameIds(b, a, doc))
  {
  }

  lemma SaveMovesNothing(w: World, n: nat)
    requires n <= 1
    ensures MovedOnlyIn(w.store, ApplyAll(w, [Save][..n]).store, [], AllStill([Save][..n]))
  {
    assert [Save][..0] == [] && [Save][..1] == [Save] + [];
    NoWrites(w);
    ApplyFirst(w, Save, []);
    NoWrites(Apply(w, Save));
  }

  lemma SameKeysIff(a: Store, b: Store)
    ensures a.chunks.Keys == b.chunks.Keys <==> forall doc :: SameIds(a, b, doc)
  {
    if forall doc :: SameIds(a, b, doc) {
      forall id: ChunkId
        ensures id in a.chunks <==> id in b.chunks
      {
        assert SameIds(a, b, id.doc);
      }
    }
  }
}
