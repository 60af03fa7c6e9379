/** Steps of an ingest run that keep a store sound (services/rag/cli.py).

    While each document has one content, every step of a run's plan keeps every row the row its id
    stands for, and removes nothing; whatever the contents, every step keeps each row with the
    document its id names. */
module SafeSteps {
  import opened Aggregates
  import opened Chunking
  import opened Bm25
  import opened Ingest

  /** The one content each document ever has. */
  type Library = DocId -> string

  ghost predicate Fixed(files: seq<File>, library: Library) {
    forall i :: 0 <= i < |files| ==> files[i].content == library(files[i].doc)
  }

  function Text(library: Library, chunker: Chunker, doc: DocId): seq<Chunk> { chunker(doc, library(doc)) }

  /** Every row is the row its id stands for; every document with a hash has its content's hash and
      all its chunks. */
  ghost predicate Sound(store: Store, library: Library, chunker: Chunker) {
    && (forall id :: id in store.chunks ==>
          id.index < |Text(library, chunker, id.doc)|
            && store.chunks[id] == Row(id.doc, Text(library, chunker, id.doc)[id.index].text))
    && forall d :: d in store.documents ==>
         store.documents[d] == library(d) && Text(library, chunker, d) != [] && Complete(store, d, library, chunker)
  }

  ghost predicate Complete(store: Store, doc: DocId, library: Library, chunker: Chunker) {
    forall i :: 0 <= i < |Text(library, chunker, doc)| ==> ChunkId(doc, i) in store.chunks
  }

  lemma SoundIsExact(store: Store, doc: DocId, library: Library, chunker: Chunker)
    requires Sound(store, library, chunker) && Complete(store, doc, library, chunker)
    ensures Exact(store, doc, Text(library, chunker, doc))
  {
  }

  /** A step that keeps a sound store sound, and removes nothing. */
  ghost predicate SafeStep(store: Store, x: Write, library: Library, chunker: Chunker) {
    match x
    case Put(doc, batch) =>
      forall i :: 0 <= i < |batch| ==> batch[i] in Text(library, chunker, doc)
    case Drop(ids) => ids !! store.chunks.Keys
    case Reindex(_, _) => true
    case Mark(doc, content) =>
      content == library(doc) && Text(library, chunker, doc) != [] && Complete(store, doc, library, chunker)
    case Save => true
  }

  ghost predicate Safe(w: World, xs: seq<Write>, library: Library, chunker: Chunker)
    decreases xs
  {
    xs == [] || (SafeStep(w.store, xs[0], library, chunker) && Safe(Apply(w, xs[0]), xs[1..], library, chunker))
  }

  /** Nothing is taken away. */
  ghost predicate Grows(before: Store, after: Store) {
    before.chunks.Keys <= after.chunks.Keys && before.documents.Keys <= after.documents.Keys
  }

  lemma {:induction false} PutIsSound(rows: map<ChunkId, Row>, doc: DocId, batch: seq<Chunk>, text: seq<Chunk>)
    requires Numbered(doc, text) && forall i :: 0 <= i < |batch| ==> batch[i] in text
    requires forall id :: id in rows && id.doc == doc ==> id.index < |text| && rows[id] == Row(doc, text[id.index].text)
    ensures var after := Upserted(rows, doc, batch);
            && rows.Keys <= after.Keys
            && (forall id :: id in after && id.doc == doc ==>
               id.index < |text| && after[id] == Row(doc, text[id.index].text))
            && forall id :: id in after && id.doc != doc ==> id in rows && after[id] == rows[id]
  {
    if batch != [] {
      var n := |batch| - 1;
      assert forall i :: 0 <= i < n ==> batch[..n][i] == batch[i];
      PutIsSound(rows, doc, batch[..n], text);
      var c := batch[n];
      var k :| 0 <= k < |text| && text[k] == c;
      assert c.id == ChunkId(doc, k);
    }
  }

  lemma SafeStepKeepsSound(w: World, x: Write, library: Library, chunker: Chunker)
    requires Numbers(chunker) && Sound(w.store, library, chunker) && SafeStep(w.store, x, library, chunker)
    ensures Sound(Apply(w, x).store, library, chunker) && Grows(w.store, Apply(w, x).store)
  {
    hide Replaced;
    match x
    case Put(doc, batch) =>
      assert Numbered(doc, Text(library, chunker, doc));
      PutIsSound(w.store.chunks, doc, batch, Text(library, chunker, doc));
    case Drop(ids) =>
      assert w.store.chunks - ids == w.store.chunks;
    case Reindex(_, _) =>
    case Mark(_, _) =>
    case Save =>
  }

  lemma {:induction false} SafePrefixKeepsSound(w: World, xs: seq<Write>, n: nat, library: Library, chunker: Chunker)
    requires Numbers(chunker) && Sound(w.store, library, chunker) && Safe(w, xs, library, chunker) && n <= |xs|
    ensures var after := ApplyAll(w, xs[..n]).store; Sound(after, library, chunker) && Grows(w.store, after)
    decreases n
  {
    hide Sound, SafeStep, Apply;
    if n == 0 {
      assert xs[..0] == [];
      NoWrites(w);
    } else {
      SafeStepKeepsSound(w, xs[0], library, chunker);
      SafePrefixKeepsSound(Apply(w, xs[0]), xs[1..], n - 1, library, chunker);
      assert xs[..n] == [xs[0]] + xs[1..][..n - 1];
      ApplyFirst(w, xs[0], xs[1..][..n - 1]);
    }
  }

  lemma {:induction false} SafeConcat(w: World, xs: seq<Write>, ys: seq<Write>, library: Library, chunker: Chunker)
    requires Safe(w, xs, library, chunker) && Safe(ApplyAll(w, xs), ys, library, chunker)
    ensures Safe(w, xs + ys, library, chunker)
    decreases xs
  {
    hide SafeStep, Apply;
    if xs == [] {
      assert xs + ys == ys;
    } else {
      assert (xs + ys)[1..] == xs[1..] + ys;
      SafeConcat(Apply(w, xs[0]), xs[1..], ys, library, chunker);
    }
  }

  lemma {:induction false} BatchesAreParts(items: seq<Chunk>, size: nat)
    requires size > 0
    ensures forall i, j :: 0 <= i < |Batched(items, size)| && 0 <= j < |Batched(items, size)[i]| ==>
            Batched(items, size)[i][j] in items
    decreases |items|
  {
    if |items| > size {
      BatchesAreParts(items[size..], size);
      assert forall c :: c in items[size..] ==> c in items;
      assert forall c :: c in items[..size] ==> c in items;
    }
  }

  lemma {:induction false} PutsAreSafe(w: World, doc: DocId, batches: seq<seq<Chunk>>, library: Library,
      chunker: Chunker)
    requires forall i, j :: 0 <= i < |batches| && 0 <= j < |batches[i]| ==> batches[i][j] in Text(library, chunker, doc)
    ensures Safe(w, Puts(doc, batches), library, chunker)
    decreases batches
  {
    if batches != [] {
      hide Text, Apply;
      var rest := batches[1..];
      assert forall i :: 0 <= i < |rest| ==> rest[i] == batches[i + 1];
      PutsAreSafe(Apply(w, Put(doc, batches[0])), doc, rest, library, chunker);
      assert Puts(doc, batches)[1..] == Puts(doc, rest);
    }
  }

  lemma SoundOwnsRows(store: Store, library: Library, chunker: Chunker)
    requires Sound(store, library, chunker)
    ensures OwnRows(store)
  {
  }

  lemma ClosingIsSafe(w: World, store: Store, f: File, library: Library, chunker: Chunker)
    requires Numbers(chunker) && Sound(store, library, chunker) && f.content == library(f.doc)
             && chunker(f.doc, f.content) != []
    requires Complete(w.store, f.doc, library, chunker)
    ensures Safe(w, Closing(store, f, chunker(f.doc, f.content)), library, chunker)
  {
    var chunks := chunker(f.doc, f.content);
    assert Numbered(f.doc, chunks);
    IdsOfNumbered(f.doc, chunks);
    var stale := ExistingIds(store, f.doc) - IdsOf(chunks);
    assert stale == {};
    var w1 := Apply(w, Drop(stale));
    assert w1.store.chunks == w.store.chunks;
    var w2 := Apply(w1, Reindex(f.doc, chunks));
    assert w2.store == w1.store;
    var xs := Closing(store, f, chunks);
    assert xs[1..][1..] == [Mark(f.doc, f.content)] && xs[1..][1..][1..] == [];
    assert Safe(w2, xs[1..][1..], library, chunker);
    assert Safe(w1, xs[1..], library, chunker);
  }

  lemma DocPlanIsSafe(w: World, f: File, library: Library, chunker: Chunker, size: nat)
    requires size > 0 && Numbers(chunker) && Sound(w.store, library, chunker) && f.content == library(f.doc)
    ensures Safe(w, DocPlan(w.store, f, chunker, size), library, chunker)
  {
    var chunks := chunker(f.doc, f.content);
    if !UpToDate(w.store, f) && chunks != [] {
      hide ApplyAll, Safe, Sound, Batched, Puts, Closing;
      SoundOwnsRows(w.store, library, chunker);
      assert Numbered(f.doc, chunks);
      var missing := Missing(w.store, f.doc, chunks);
      var batches := Batched(missing, size);
      MissingFacts(w.store, f.doc, chunks);
      BatchesAreParts(missing, size);
      PutsAreSafe(w, f.doc, batches, library, chunker);
      BatchesPutAll(w, f.doc, missing, size);
      PutsSettle(w.store, f, chunks);
      ClosingIsSafe(ApplyAll(w, Puts(f.doc, batches)), w.store, f, library, chunker);
      SafeConcat(w, Puts(f.doc, batches), Closing(w.store, f, chunks), library, chunker);
    }
  }

  lemma {:induction false} RunPlanIsSafe(w: World, files: seq<File>, library: Library, chunker: Chunker, size: nat)
    requires size > 0 && Numbers(chunker) && Sound(w.store, library, chunker) && Fixed(files, library)
    ensures Safe(w, RunPlan(w, files, chunker, size), library, chunker)
    decreases files
  {
    if files == [] {
      assert [Save][1..] == [];
    } else {
      hide Sound, DocPlan, SafeStep, ApplyAll;
      var plan := DocPlan(w.store, files[0], chunker, size);
      var w' := ApplyAll(w, plan);
      DocPlanIsSafe(w, files[0], library, chunker, size);
      SafePrefixKeepsSound(w, plan, |plan|, library, chunker);
      assert plan[..|plan|] == plan;
      RunPlanIsSafe(w', files[1..], library, chunker, size);
      SafeConcat(w, plan, RunPlan(w', files[1..], chunker, size), library, chunker);
    }
  }

  /** Puts only chunks whose ids name the document. */
  ghost predicate PutsOwn(x: Write) {
    x.Put? ==> forall i :: 0 <= i < |x.batch| ==> x.batch[i].id.doc == x.doc
  }

  ghost predicate AllPutOwn(xs: seq<Write>) {
    forall i :: 0 <= i < |xs| ==> PutsOwn(xs[i])
  }

  lemma {:induction false} PutsPutOwn(doc: DocId, batches: seq<seq<Chunk>>)
    requires forall i, j :: 0 <= i < |batches| && 0 <= j < |batches[i]| ==> batches[i][j].id.doc == doc
    ensures AllPutOwn(Puts(doc, batches))
    decreases batches
  {
    if batches != [] {
      var rest := batches[1..];
      assert forall i :: 0 <= i < |rest| ==> rest[i] == batches[i + 1];
      PutsPutOwn(doc, rest);
    }
  }

  lemma DocPlanPutsOwn(store: Store, f: File, chunker: Chunker, size: nat)
    requires size > 0 && Numbers(chunker)
    ensures AllPutOwn(DocPlan(store, f, chunker, size))
  {
    var chunks := chunker(f.doc, f.content);
    if !UpToDate(store, f) && chunks != [] {
      hide Batched, Puts, Missing, PutsOwn;
      assert Numbered(f.doc, chunks);
      var missing := Missing(store, f.doc, chunks);
      var batches := Batched(missing, size);
      MissingIsOwn(store, f.doc, chunks);
      BatchesAreParts(missing, size);
      PutsPutOwn(f.doc, batches);
      ClosingPutsOwn(store, f, chunks);
    }
  }

  lemma MissingIsOwn(store: Store, doc: DocId, chunks: seq<Chunk>)
    requires Numbered(doc, chunks)
    ensures forall c :: c in Missing(store, doc, chunks) ==> c.id.doc == doc
  {
    forall c | c in Missing(store, doc, chunks)
      ensures c.id.doc == doc
    {
      KeptElements(IdNotIn(ExistingIds(store, doc)), chunks, c);
      var k :| 0 <= k < |chunks| && chunks[k] == c;
    }
  }

  lemma ClosingPutsOwn(store: Store, f: File, chunks: seq<Chunk>)
    ensures AllPutOwn(Closing(store, f, chunks))
  {
  }

  lemma {:induction false} RunPlanPutsOwn(w: World, files: seq<File>, chunker: Chunker, size: nat)
    requires size > 0 && Numbers(chunker)
    ensures AllPutOwn(RunPlan(w, files, chunker, size))
    decreases files
  {
    if files != [] {
      hide DocPlan, ApplyAll, PutsOwn;
      DocPlanPutsOwn(w.store, files[0], chunker, size);
      RunPlanPutsOwn(ApplyAll(w, DocPlan(w.store, files[0], chunker, size)), files[1..], chunker, size);
    }
  }

  lemma {:induction false} UpsertKeepsOwn(rows: map<ChunkId, Row>, doc: DocId, batch: seq<Chunk>)
    requires forall id :: id in rows ==> rows[id].doc == id.doc
    requires forall i :: 0 <= i < |batch| ==> batch[i].id.doc == doc
    ensures forall id :: id in Upserted(rows, doc, batch) ==> Upserted(rows, doc, batch)[id].doc == id.doc
  {
    if batch != [] {
      UpsertKeepsOwn(rows, doc, batch[..|batch| - 1]);
    }
  }

  lemma {:induction false} PrefixKeepsOwnRows(w: World, xs: seq<Write>, n: nat)
    requires OwnRows(w.store) && AllPutOwn(xs) && n <= |xs|
    ensures OwnRows(ApplyAll(w, xs[..n]).store)
    decreases n
  {
    if n == 0 {
      assert xs[..0] == [];
      NoWrites(w);
    } else {
      hide Upserted, Replaced, ApplyAll;
      var x := xs[0];
      assert PutsOwn(x);
      if x.Put? {
        UpsertKeepsOwn(w.store.chunks, x.doc, x.batch);
      }
      assert forall i :: 0 <= i < |xs[1..]| ==> xs[1..][i] == xs[i + 1];
      PrefixKeepsOwnRows(Apply(w, x), xs[1..], n - 1);
      assert xs[..n] == [x] + xs[1..][..n - 1];
      ApplyFirst(w, x, xs[1..][..n - 1]);
    }
  }
}
