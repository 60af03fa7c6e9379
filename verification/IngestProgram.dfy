/** The ingest program itself (services/rag/cli.py, services/rag/store.py).

    `_ingest` over a store, an embedder and an index that it updates in place. */
module IngestProgram {
  import opened Wrappers
  import opened Aggregates
  import opened Chunking
  import opened Bm25
  import opened Ingest
  import R = IngestRuns

  class CorpusStore {
    var documents: map<DocId, string>
    var chunks: map<ChunkId, Row>

    function State(): Store
      reads this
    {
      Store(documents, chunks)
    }

    constructor ()
      ensures State() == NEW.store
    {
      documents, chunks := map[], map[];
    }

    method ContentHashFor(doc: DocId) returns (hash: Option<string>)
      ensures hash == if doc in documents then Some(documents[doc]) else None
    {
      hash := if doc in documents then Some(documents[doc]) else None;
    }

    method UpsertDocument(doc: DocId, content: string)
      modifies this`documents
      ensures documents == old(documents)[doc := content]
    {
      documents := documents[doc := content];
    }

    method ExistingChunkIds(doc: DocId) returns (ids: set<ChunkId>)
      ensures ids == ExistingIds(State(), doc)
    {
      ids := set id | id in chunks && chunks[id].doc == doc;
    }

    method UpsertChunks(doc: DocId, batch: seq<Chunk>)
      modifies this`chunks
      ensures chunks == Upserted(old(chunks), doc, batch)
    {
      for i := 0 to |batch|
        invariant chunks == Upserted(old(chunks), doc, batch[..i])
      {
        assert batch[..i + 1][..i] == batch[..i];
        var id := batch[i].id;
        chunks := chunks[id := Row(if id in chunks then chunks[id].doc else doc, batch[i].text)];
      }
      assert batch[..|batch|] == batch;
    }

    method DeleteChunks(ids: set<ChunkId>)
      modifies this`chunks
      ensures chunks == old(chunks) - ids
    {
      if ids == {} {
        assert chunks - ids == chunks;
        return;
      }
      chunks := chunks - ids;
    }

    method CountChunks() returns (n: nat)
      ensures n == |chunks|
    {
      n := |chunks|;
    }
  }

  /** What embedding costs: the ids ever embedded. */
  class Embedder {
    var embedded: set<ChunkId>

    constructor ()
      ensures embedded == {}
    {
      embedded := {};
    }

    method Embed(batch: seq<Chunk>)
      modifies this
      ensures embedded == old(embedded) + IdsOf(batch)
    {
      embedded := embedded + IdsOf(batch);
    }
  }

  lemma OneMoreBatch(w: World, doc: DocId, batch: seq<Chunk>, rest: seq<seq<Chunk>>, closing: seq<Write>)
    ensures ApplyAll(w, Puts(doc, [batch] + rest) + closing)
            == ApplyAll(Apply(w, Put(doc, batch)), Puts(doc, rest) + closing)
    ensures R.Embedded(Puts(doc, [batch] + rest)) == IdsOf(batch) + R.Embedded(Puts(doc, rest))
  {
    hide ApplyAll, IdsOf, R.Embedded;
    assert ([batch] + rest)[1..] == rest;
    assert Puts(doc, [batch] + rest) == [Put(doc, batch)] + Puts(doc, rest);
    assert Puts(doc, [batch] + rest) + closing == [Put(doc, batch)] + (Puts(doc, rest) + closing);
    ApplyFirst(w, Put(doc, batch), Puts(doc, rest) + closing);
    R.EmbeddedConcat([Put(doc, batch)], Puts(doc, rest));
    OnePutEmbeds(doc, batch);
  }

  lemma OnePutEmbeds(doc: DocId, batch: seq<Chunk>)
    ensures R.Embedded([Put(doc, batch)]) == IdsOf(batch)
  {
    assert [Put(doc, batch)][..0] == [];
    assert R.Embedded([Put(doc, batch)][..0]) == {};
  }

  function FromBatch(items: seq<Chunk>, size: nat, i: nat): seq<seq<Chunk>>
    requires size > 0
  {
    if i >= |items| then [] else Batched(items[i..], size)
  }

  lemma NextBatch(items: seq<Chunk>, size: nat, i: nat)
    requires size > 0 && i < |items|
    ensures var end := if i + size <= |items| then i + size else |items|;
            FromBatch(items, size, i) == [items[i..end]] + FromBatch(items, size, i + size)
  {
    var rest := items[i..];
    if |rest| > size {
      assert rest[size..] == items[i + size..] && rest[..size] == items[i..i + size];
    } else {
      assert rest == items[i..|items|];
    }
  }

  /** `for batch in _batched(missing, batch_size)`: embeds and puts batch after batch. */
  method PutMissing(doc: DocId, missing: seq<Chunk>, store: CorpusStore, embedder: Embedder, size: nat,
      ghost memory: Index, ghost file: Option<Index>)
    requires size > 0
    modifies store`chunks, embedder
    ensures World(store.State(), memory, file)
            == ApplyAll(World(old(store.State()), memory, file), Puts(doc, Batched(missing, size)))
    ensures embedder.embedded == old(embedder.embedded) + R.Embedded(Puts(doc, Batched(missing, size)))
  {
    hide IdsOf, R.Embedded, Batched, Upserted;
    ghost var start, before := World(store.State(), memory, file), embedder.embedded;
    NothingLeft(doc, missing, size);
    var i := 0;
    while i < |missing|
      invariant ApplyAll(World(store.State(), memory, file), Puts(doc, FromBatch(missing, size, i)))
             == ApplyAll(start, Puts(doc, FromBatch(missing, size, 0)))
      invariant embedder.embedded + R.Embedded(Puts(doc, FromBatch(missing, size, i)))
             == before + R.Embedded(Puts(doc, FromBatch(missing, size, 0)))
      decreases |missing| - i
    {
      var batch := missing[i..if i + size <= |missing| then i + size else |missing|];
      NextBatch(missing, size, i);
      ghost var w, rest := World(store.State(), memory, file), FromBatch(missing, size, i + size);
      OneMoreBatch(w, doc, batch, rest, []);
      assert Puts(doc, [batch] + rest) + [] == Puts(doc, [batch] + rest) && Puts(doc, rest) + [] == Puts(doc, rest);
      embedder.Embed(batch);
      store.UpsertChunks(doc, batch);
      i := i + size;
    }
    NoWrites(World(store.State(), memory, file));
    NothingPut(doc);
  }

  lemma NothingPut(doc: DocId)
    ensures Puts(doc, []) == [] && R.Embedded([]) == {}
  {
  }

  lemma NothingLeft(doc: DocId, missing: seq<Chunk>, size: nat)
    requires size > 0
    ensures FromBatch(missing, size, 0) == Batched(missing, size)
  {
    assert missing[0..] == missing;
  }

  lemma PlanOfDoc(w: World, f: File, chunker: Chunker, size: nat)
    requires size > 0
    ensures var plan, chunks := DocPlan(w.store, f, chunker, size), chunker(f.doc, f.content);
            if UpToDate(w.store, f) || chunks == [] then ApplyAll(w, plan) == w && R.Embedded(plan) == {}
            else
              var puts := Puts(f.doc, Batched(Missing(w.store, f.doc, chunks), size));
              && ApplyAll(w, plan) == ApplyAll(ApplyAll(w, puts), Closing(w.store, f, chunks))
              && R.Embedded(plan) == R.Embedded(puts)
  {
    hide ApplyAll, R.Embedded, Puts, Batched, Missing;
    var chunks := chunker(f.doc, f.content);
    if UpToDate(w.store, f) || chunks == [] {
      NoWrites(w);
      NothingPut(f.doc);
    } else {
      var puts := Puts(f.doc, Batched(Missing(w.store, f.doc, chunks), size));
      ApplyConcat(w, puts, Closing(w.store, f, chunks));
      R.EmbeddedConcat(puts, Closing(w.store, f, chunks));
      R.ClosingEmbedsNothing(w.store, f, chunks);
    }
  }

  method IngestFile(f: File, store: CorpusStore, index: BM25Index, embedder: Embedder, chunker: Chunker, size: nat,
      ghost file: Option<Index>)
    returns (produced: nat, same: bool)
    requires size > 0 && index.Valid()
    modifies store, index, embedder
    ensures index.Valid()
    ensures World(store.State(), index.Contents(), file)
         == ApplyAll(World(old(store.State()), old(index.Contents()), file),
           DocPlan(old(store.State()), f, chunker, size))
    ensures embedder.embedded == old(embedder.embedded) + R.Embedded(DocPlan(old(store.State()), f, chunker, size))
    ensures same <==> UpToDate(old(store.State()), f)
    ensures produced == if same then 0 else |chunker(f.doc, f.content)|
  {
    hide ApplyAll, R.Embedded, Puts, Batched, Missing, Replaced, IdsOf, ExistingIds, WellOrdered, Upserted;
    ghost var w := World(store.State(), index.Contents(), file);
    PlanOfDoc(w, f, chunker, size);
    produced, same := 0, false;
    var hash := store.ContentHashFor(f.doc);
    if hash == Some(f.content) {
      return 0, true;
    }
    var chunks := chunker(f.doc, f.content);
    if chunks == [] {
      return;
    }
    produced := |chunks|;
    var existing := store.ExistingChunkIds(f.doc);
    MissingIs(w.store, f.doc, chunks);
    var missing := Kept(IdNotIn(existing), chunks);
    PutMissing(f.doc, missing, store, embedder, size, index.Contents(), file);
    ghost var put := World(store.State(), index.Contents(), file);
    ClosingApplies(put, f, chunks, existing - IdsOf(chunks));
    store.DeleteChunks(existing - IdsOf(chunks));
    index.ReplaceChunks(f.doc, chunks);
    store.UpsertDocument(f.doc, f.content);
  }

  lemma MissingIs(store: Store, doc: DocId, chunks: seq<Chunk>)
    ensures Missing(store, doc, chunks) == Kept(IdNotIn(ExistingIds(store, doc)), chunks)
  {
  }

  datatype Report = Report(docsFetched: nat, chunksProduced: nat, dedupDrops: nat, bm25Entries: nat, pointsCount: nat)

  /** A run that is not killed does exactly what its plan says, saves the index it ends with, and
      embeds only what the plan puts. */
  method RunIngest(files: seq<File>, store: CorpusStore, index: BM25Index, embedder: Embedder, chunker: Chunker,
      size: nat, ghost file: Option<Index>)
    returns (saved: Index, report: Report)
    requires size > 0 && index.Valid()
    modifies store, index, embedder
    ensures index.Valid()
    ensures World(store.State(), index.Contents(), Some(saved))
         == ApplyAll(World(old(store.State()), old(index.Contents()), file),
                     RunPlan(World(old(store.State()), old(index.Contents()), file), files, chunker, size))
    ensures embedder.embedded
         == old(embedder.embedded) + R.Embedded(RunPlan(World(old(store.State()), old(index.Contents()), file), files,
           chunker, size))
    ensures report.docsFetched == |files| && report.dedupDrops <= |files|
    ensures report.bm25Entries == |saved.entries| && report.pointsCount == |store.chunks|
  {
    hide ApplyAll, R.Embedded, DocPlan, Replaced, WellOrdered;
    ghost var start, before := World(store.State(), index.Contents(), file), embedder.embedded;
    var produced, drops := 0, 0;
    for i := 0 to |files|
      invariant index.Valid() && drops <= i
      invariant var w := World(store.State(), index.Contents(), file);
                ApplyAll(w, RunPlan(w, files[i..], chunker, size))
                  == ApplyAll(start, RunPlan(start, files, chunker, size))
      invariant var w := World(store.State(), index.Contents(), file);
                embedder.embedded + R.Embedded(RunPlan(w, files[i..], chunker, size))
                  == before + R.Embedded(RunPlan(start, files, chunker, size))
    {
      ghost var w := World(store.State(), index.Contents(), file);
      FirstFile(w, files[i..], chunker, size);
      assert files[i..][1..] == files[i + 1..];
      var some, same := IngestFile(files[i], store, index, embedder, chunker, size, file);
      produced := produced + some;
      drops := drops + if same then 1 else 0;
    }
    assert files[|files|..] == [];
    ghost var w := World(store.State(), index.Contents(), file);
    SaveApplies(w, chunker, size);
    saved := index.Save();
    var points := store.CountChunks();
    report := Report(|files|, produced, drops, |saved.entries|, points);
  }

  lemma FirstFile(w: World, files: seq<File>, chunker: Chunker, size: nat)
    requires size > 0 && files != []
    ensures var plan := DocPlan(w.store, files[0], chunker, size);
            var w' := ApplyAll(w, plan);
            && ApplyAll(w, RunPlan(w, files, chunker, size)) == ApplyAll(w', RunPlan(w', files[1..], chunker, size))
            && R.Embedded(RunPlan(w, files, chunker, size))
               == R.Embedded(plan) + R.Embedded(RunPlan(w', files[1..], chunker, size))
  {
    hide ApplyAll, R.Embedded, DocPlan;
    var plan := DocPlan(w.store, files[0], chunker, size);
    var w' := ApplyAll(w, plan);
    ApplyConcat(w, plan, RunPlan(w', files[1..], chunker, size));
    R.EmbeddedConcat(plan, RunPlan(w', files[1..], chunker, size));
  }

  lemma SaveApplies(w: World, chunker: Chunker, size: nat)
    requires size > 0
    ensures ApplyAll(w, RunPlan(w, [], chunker, size)) == w.(file := Some(w.memory))
    ensures R.Embedded(RunPlan(w, [], chunker, size)) == {}
  {
    assert [Save] == [Save] + [];
    ApplyFirst(w, Save, []);
    NoWrites(Apply(w, Save));
    assert [Save][..0] == [];
    assert R.Embedded([Save][..0]) == {};
  }
}
