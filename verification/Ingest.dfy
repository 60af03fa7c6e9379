/** services/rag/cli.py and services/rag/store.py: ingest that is resumed after crashes. */
module Ingest {
  import opened Wrappers
  import opened Aggregates
  import opened Chunking
  import opened Bm25

  /** A fetched file. Hashes are taken to be free of collisions, so the content is its own hash. */
  datatype File = File(doc: DocId, content: string)

  /** The chunks of a document's content: markdown or HTML, as its path says. */
  type Chunker = (DocId, string) -> seq<Chunk>

  ghost predicate Numbers(chunker: Chunker) { forall d, c :: Numbered(d, chunker(d, c)) }

  /** The default windows over the sections of a parsed markdown document. */
  function MarkdownChunker(project: string, parse: string -> seq<Line>): Chunker {
    (doc: DocId, content: string) =>
      if WellFormed(parse(content)) then ChunksOf(doc, project, Sections(parse(content)), 1600, 200) else []
  }

  /** What the histories below ask of a chunker, the real one provides. */
  lemma MarkdownChunkerNumbers(project: string, parse: string -> seq<Line>)
    ensures Numbers(MarkdownChunker(project, parse))
  {
    var chunker := MarkdownChunker(project, parse);
    forall d, c
      ensures Numbered(d, chunker(d, c))
    {
      if WellFormed(parse(c)) {
        ChunksAreNumbered(d, project, Sections(parse(c)), 1600, 200);
      }
    }
  }

  datatype Row = Row(doc: DocId, text: string)

  datatype Store = Store(documents: map<DocId, string>, chunks: map<ChunkId, Row>)

  /** What survives a crash is the store and the saved index; `memory` is the index in use. */
  datatype World = World(store: Store, memory: Index, file: Option<Index>)

  const NEW := World(Store(map[], map[]), EMPTY, None)

  /** The committed steps of a run, and the one in memory. */
  datatype Write =
    | Put(doc: DocId, batch: seq<Chunk>)
    | Drop(ids: set<ChunkId>)
    | Reindex(doc: DocId, chunks: seq<Chunk>)
    | Mark(doc: DocId, content: string)
    | Save

  /** `INSERT ... ON CONFLICT DO UPDATE SET text`: an old row keeps its document. */
  function Upserted(rows: map<ChunkId, Row>, doc: DocId, batch: seq<Chunk>): map<ChunkId, Row> {
    if batch == [] then rows
    else
      var before := Upserted(rows, doc, batch[..|batch| - 1]);
      var c := batch[|batch| - 1];
      before[c.id := Row(if c.id in before then before[c.id].doc else doc, c.text)]
  }

  function Apply(w: World, x: Write): World {
    match x
    case Put(doc, batch) => w.(store := w.store.(chunks := Upserted(w.store.chunks, doc, batch)))
    case Drop(ids) => w.(store := w.store.(chunks := w.store.chunks - ids))
    case Reindex(doc, chunks) => w.(memory := Replaced(w.memory, doc, chunks))
    case Mark(doc, content) => w.(store := w.store.(documents := w.store.documents[doc := content]))
    case Save => w.(file := Some(w.memory))
  }

  function ApplyAll(w: World, xs: seq<Write>): World
    decreases xs
  {
    if xs == [] then w else ApplyAll(Apply(w, xs[0]), xs[1..])
  }

  function ExistingIds(store: Store, doc: DocId): set<ChunkId> {
    set id | id in store.chunks && store.chunks[id].doc == doc
  }

  predicate UpToDate(store: Store, f: File) { f.doc in store.documents && store.documents[f.doc] == f.content }

  function IdNotIn(ids: set<ChunkId>): Chunk -> bool { (c: Chunk) => c.id !in ids }

  function Missing(store: Store, doc: DocId, chunks: seq<Chunk>): seq<Chunk> {
    Kept(IdNotIn(ExistingIds(store, doc)), chunks)
  }

  function Batched(items: seq<Chunk>, size: nat): seq<seq<Chunk>>
    requires size > 0
  {
    if items == [] then []
    else if |items| <= size then [items]
    else [items[..size]] + Batched(items[size..], size)
  }

  function Puts(doc: DocId, batches: seq<seq<Chunk>>): (xs: seq<Write>)
    ensures |xs| == |batches|
  {
    if batches == [] then [] else [Put(doc, batches[0])] + Puts(doc, batches[1..])
  }

  lemma {:induction false} PutsArePuts(doc: DocId, batches: seq<seq<Chunk>>)
    ensures forall i :: 0 <= i < |batches| ==> Puts(doc, batches)[i].Put?
    decreases batches
  {
    if batches != [] {
      PutsArePuts(doc, batches[1..]);
    }
  }

  /** What remains once the missing chunks are in. */
  function Closing(store: Store, f: File, chunks: seq<Chunk>): seq<Write> {
    [Drop(ExistingIds(store, f.doc) - IdsOf(chunks)), Reindex(f.doc, chunks), Mark(f.doc, f.content)]
  }

  /** The steps for one file, decided from the store as it is when its turn comes. */
  function DocPlan(store: Store, f: File, chunker: Chunker, size: nat): seq<Write>
    requires size > 0
  {
    var chunks := chunker(f.doc, f.content);
    if UpToDate(store, f) || chunks == [] then []
    else Puts(f.doc, Batched(Missing(store, f.doc, chunks), size)) + Closing(store, f, chunks)
  }

  function RunPlan(w: World, files: seq<File>, chunker: Chunker, size: nat): seq<Write>
    requires size > 0
    decreases files
  {
    if files == [] then [Save]
    else
      var plan := DocPlan(w.store, files[0], chunker, size);
      plan + RunPlan(ApplyAll(w, plan), files[1..], chunker, size)
  }

  /** A run loads the saved index, and is killed after `steps` of its steps, or not at all. */
  datatype Attempt = Attempt(files: seq<File>, steps: nat)

  ghost predicate DistinctDocs(files: seq<File>) {
    forall i, j :: 0 <= i < j < |files| ==> files[i].doc != files[j].doc
  }

  function Boot(w: World): World { w.(memory := if w.file.None? then EMPTY else w.file.value) }

  function PlanOf(w: World, files: seq<File>, chunker: Chunker, size: nat): seq<Write>
    requires size > 0
  {
    RunPlan(Boot(w), files, chunker, size)
  }

  predicate Completes(w: World, a: Attempt, chunker: Chunker, size: nat)
    requires size > 0
  {
    a.steps >= |PlanOf(w, a.files, chunker, size)|
  }

  function Executed(w: World, a: Attempt, chunker: Chunker, size: nat): seq<Write>
    requires size > 0
  {
    Take(PlanOf(w, a.files, chunker, size), a.steps)
  }

  function Attempted(w: World, a: Attempt, chunker: Chunker, size: nat): World
    requires size > 0
  {
    ApplyAll(Boot(w), Executed(w, a, chunker, size))
  }

  /** One attempt after another, whether killed or completed. */
  function Continued(w: World, attempts: seq<Attempt>, chunker: Chunker, size: nat): World
    requires size > 0
  {
    var n := |attempts| - 1;
    if n < 0 then w else Attempted(Continued(w, attempts[..n], chunker, size), attempts[n], chunker, size)
  }

  function After(attempts: seq<Attempt>, chunker: Chunker, size: nat): World
    requires size > 0
  {
    Continued(NEW, attempts, chunker, size)
  }

  // ----- the effect of one document -----

  lemma {:induction false} ApplyConcat(w: World, xs: seq<Write>, ys: seq<Write>)
    ensures ApplyAll(w, xs + ys) == ApplyAll(ApplyAll(w, xs), ys)
    decreases xs
  {
    if xs == [] {
      assert xs + ys == ys;
    } else {
      assert (xs + ys)[1..] == xs[1..] + ys;
      ApplyConcat(Apply(w, xs[0]), xs[1..], ys);
    }
  }

  lemma {:induction false} UpsertConcat(rows: map<ChunkId, Row>, doc: DocId, a: seq<Chunk>, b: seq<Chunk>)
    ensures Upserted(rows, doc, a + b) == Upserted(Upserted(rows, doc, a), doc, b)
  {
    if b == [] {
      assert a + b == a;
    } else {
      assert (a + b)[..|a + b| - 1] == a + b[..|b| - 1];
      UpsertConcat(rows, doc, a, b[..|b| - 1]);
    }
  }

  lemma ApplyFirst(w: World, x: Write, xs: seq<Write>)
    ensures ApplyAll(w, [x] + xs) == ApplyAll(Apply(w, x), xs)
  {
    assert ([x] + xs)[1..] == xs;
  }

  lemma FirstBatch(doc: DocId, items: seq<Chunk>, size: nat)
    requires size > 0 && items != []
    ensures Puts(doc, Batched(items, size))
         == if |items| <= size then [Put(doc, items)] + []
           else [Put(doc, items[..size])] + Puts(doc, Batched(items[size..], size))
  {
    var batches := Batched(items, size);
    assert batches[1..] == if |items| <= size then [] else Batched(items[size..], size);
    assert Puts(doc, batches) == [Put(doc, batches[0])] + Puts(doc, batches[1..]);
  }

  lemma NoWrites(w: World)
    ensures ApplyAll(w, []) == w
  {
  }

  /** Batching changes nothing: the batches together put what one batch would. */
  lemma {:induction false} BatchesPutAll(w: World, doc: DocId, items: seq<Chunk>, size: nat)
    requires size > 0
    ensures ApplyAll(w, Puts(doc, Batched(items, size))) == Apply(w, Put(doc, items))
    decreases |items|
  {
    if items == [] {
      NoWrites(w);
    } else {
      hide ApplyAll, Puts, Batched, Upserted;
      FirstBatch(doc, items, size);
      if |items| <= size {
        ApplyFirst(w, Put(doc, items), []);
        NoWrites(Apply(w, Put(doc, items)));
      } else {
        var first, rest := items[..size], items[size..];
        ApplyFirst(w, Put(doc, first), Puts(doc, Batched(rest, size)));
        BatchesPutAll(Apply(w, Put(doc, first)), doc, rest, size);
        UpsertConcat(w.store.chunks, doc, first, rest);
        assert items == first + rest;
      }
    }
  }

  lemma UpsertLast(rows: map<ChunkId, Row>, doc: DocId, items: seq<Chunk>)
    requires items != []
    ensures var n := |items| - 1;
            var before := Upserted(rows, doc, items[..n]);
            && (items[n].id !in before ==> Upserted(rows, doc, items) == before[items[n].id := Row(doc, items[n].text)])
            && IdsOf(items) == IdsOf(items[..n]) + {items[n].id}
            && forall i :: 0 <= i < n ==> items[..n][i] == items[i]
  {
    PutOneMore(EMPTY, items, |items| - 1);
    assert items[..|items|] == items;
  }

  /** The rows of chunks that are all new. */
  lemma {:induction false} UpsertNew(rows: map<ChunkId, Row>, doc: DocId, items: seq<Chunk>)
    requires DistinctIds(items)
    requires forall i :: 0 <= i < |items| ==> items[i].id !in rows
    ensures var after := Upserted(rows, doc, items);
            && after.Keys == rows.Keys + IdsOf(items)
            && (forall id :: id in rows ==> after[id] == rows[id])
            && forall i :: 0 <= i < |items| ==> items[i].id in after && after[items[i].id] == Row(doc, items[i].text)
  {
    if items == [] {
      assert IdsOf(items) == {};
    } else {
      hide Upserted, IdsOf;
      var n := |items| - 1;
      UpsertLast(rows, doc, items);
      UpsertNew(rows, doc, items[..n]);
      NewId(items, n);
    }
  }

  lemma NewId(items: seq<Chunk>, n: nat)
    requires n < |items| && DistinctIds(items)
    ensures items[n].id !in IdsOf(items[..n])
  {
  }

  /** Every row belongs to the document its id names. */
  ghost predicate OwnRows(store: Store) {
    forall id :: id in store.chunks ==> store.chunks[id].doc == id.doc
  }

  lemma IdsOfNumbered(doc: DocId, chunks: seq<Chunk>)
    requires Numbered(doc, chunks)
    ensures forall id: ChunkId :: id in IdsOf(chunks) <==> id.doc == doc && id.index < |chunks|
  {
    forall id: ChunkId | id.doc == doc && id.index < |chunks|
      ensures id in IdsOf(chunks)
    {
      assert chunks[id.index].id == id;
    }
  }

  ghost predicate DistinctIds(chunks: seq<Chunk>) {
    forall i, j :: 0 <= i < j < |chunks| ==> chunks[i].id != chunks[j].id
  }

  lemma {:induction false} KeptIdsDiffer(p: Chunk -> bool, chunks: seq<Chunk>)
    requires DistinctIds(chunks)
    ensures DistinctIds(Kept(p, chunks))
  {
    if chunks != [] {
      var rest := chunks[1..];
      assert forall i :: 0 <= i < |rest| ==> rest[i] == chunks[i + 1];
      KeptIdsDiffer(p, rest);
      var kept := Kept(p, rest);
      forall i | 0 <= i < |kept|
        ensures kept[i].id != chunks[0].id
      {
        KeptElements(p, rest, kept[i]);
        var j :| 0 <= j < |rest| && rest[j] == kept[i];
      }
    }
  }

  /** The text a document's row ends with: a chunk that was there keeps its text, whatever the new
      content says; only one that was not takes the new text. */
  function SettledRow(before: Store, id: ChunkId, chunks: seq<Chunk>): Row
    requires id.index < |chunks|
  {
    if id in before.chunks then before.chunks[id] else Row(id.doc, chunks[id.index].text)
  }

  /** What working through one document does to the store, whatever it held before: the document's
      rows become exactly one for each chunk, with settled text; its hash becomes current; nothing
      else changes. */
  ghost predicate Settled(before: Store, f: File, chunks: seq<Chunk>, after: Store) {
    && after.documents == before.documents[f.doc := f.content]
    && (forall id :: id in after.chunks <==> if id.doc == f.doc then id.index < |chunks| else id in before.chunks)
    && forall id :: id in after.chunks ==>
         after.chunks[id] == if id.doc == f.doc then SettledRow(before, id, chunks) else before.chunks[id]
  }

  lemma MissingFacts(store: Store, doc: DocId, chunks: seq<Chunk>)
    requires OwnRows(store) && Numbered(doc, chunks)
    ensures var missing := Missing(store, doc, chunks);
            && DistinctIds(missing)
            && forall c :: c in missing <==> c in chunks && c.id !in store.chunks
  {
    KeptIdsDiffer(IdNotIn(ExistingIds(store, doc)), chunks);
    forall c
      ensures c in Missing(store, doc, chunks) <==> c in chunks && c.id !in store.chunks
    {
      KeptElements(IdNotIn(ExistingIds(store, doc)), chunks, c);
    }
  }

  lemma MissingIds(store: Store, f: File, chunks: seq<Chunk>, id: ChunkId)
    requires OwnRows(store) && Numbered(f.doc, chunks)
    ensures id in IdsOf(Missing(store, f.doc, chunks))
            <==> id.doc == f.doc && id.index < |chunks| && id !in store.chunks
  {
    hide Missing;
    var missing := Missing(store, f.doc, chunks);
    MissingFacts(store, f.doc, chunks);
    if id in IdsOf(missing) {
      var i :| 0 <= i < |missing| && missing[i].id == id;
      assert missing[i] in chunks;
    }
    if id.doc == f.doc && id.index < |chunks| && id !in store.chunks {
      assert chunks[id.index] in chunks && chunks[id.index] in missing;
    }
  }

  lemma MissingText(store: Store, f: File, chunks: seq<Chunk>, id: ChunkId) returns (i: nat)
    requires OwnRows(store) && Numbered(f.doc, chunks) && id.doc == f.doc && id.index < |chunks| && id !in store.chunks
    ensures var missing := Missing(store, f.doc, chunks);
            i < |missing| && missing[i].id == id && missing[i].text == chunks[id.index].text
  {
    hide Missing;
    var missing := Missing(store, f.doc, chunks);
    MissingFacts(store, f.doc, chunks);
    assert chunks[id.index] in chunks && chunks[id.index] in missing;
    i :| 0 <= i < |missing| && missing[i] == chunks[id.index];
  }

  lemma PutsSettle(store: Store, f: File, chunks: seq<Chunk>)
    requires OwnRows(store) && Numbered(f.doc, chunks)
    ensures var rows := Upserted(store.chunks, f.doc, Missing(store, f.doc, chunks));
            && (forall id :: id in rows <==> id in store.chunks || (id.doc == f.doc && id.index < |chunks|))
            && forall id :: id in rows ==>
                 rows[id] == if id in store.chunks then store.chunks[id]
                   else if id.index < |chunks| then Row(f.doc, chunks[id.index].text) else rows[id]
  {
    hide Missing, Upserted, IdsOf, OwnRows;
    var missing := Missing(store, f.doc, chunks);
    MissingFacts(store, f.doc, chunks);
    UpsertNew(store.chunks, f.doc, missing);
    var rows := Upserted(store.chunks, f.doc, missing);
    forall id
      ensures id in rows <==> id in store.chunks || (id.doc == f.doc && id.index < |chunks|)
    {
      MissingIds(store, f, chunks, id);
    }
    forall id | id in rows && id !in store.chunks && id.index < |chunks|
      ensures rows[id] == Row(f.doc, chunks[id.index].text)
    {
      MissingIds(store, f, chunks, id);
      var i := MissingText(store, f, chunks, id);
    }
  }

  lemma SettledStore(store: Store, f: File, chunks: seq<Chunk>)
    requires OwnRows(store) && Numbered(f.doc, chunks)
    ensures var rows := Upserted(store.chunks, f.doc, Missing(store, f.doc, chunks));
            var after := Store(store.documents[f.doc := f.content], rows - (ExistingIds(store, f.doc) - IdsOf(chunks)));
            Settled(store, f, chunks, after) && OwnRows(after)
  {
    hide Upserted, Missing, IdsOf;
    PutsSettle(store, f, chunks);
    IdsOfNumbered(f.doc, chunks);
  }

  lemma ClosingApplies(w: World, f: File, chunks: seq<Chunk>, stale: set<ChunkId>)
    ensures ApplyAll(w, [Drop(stale), Reindex(f.doc, chunks), Mark(f.doc, f.content)])
         == World(Store(w.store.documents[f.doc := f.content], w.store.chunks - stale),
           Replaced(w.memory, f.doc, chunks), w.file)
  {
    hide Replaced;
    var mark, reindex, drop := Mark(f.doc, f.content), Reindex(f.doc, chunks), Drop(stale);
    var w1 := Apply(w, drop);
    var w2 := Apply(w1, reindex);
    ApplyFirst(w2, mark, []);
    ApplyFirst(w1, reindex, [mark]);
    ApplyFirst(w, drop, [reindex, mark]);
    assert [mark] + [] == [mark] && [reindex] + [mark] == [reindex, mark]
      && [drop] + [reindex, mark] == [drop, reindex, mark];
    NoWrites(Apply(w2, mark));
  }

  /** A document that is not up to date settles, whatever was there before. */
  lemma DocSettles(w: World, f: File, chunker: Chunker, size: nat)
    requires size > 0 && Numbers(chunker) && OwnRows(w.store) && !UpToDate(w.store, f)
             && chunker(f.doc, f.content) != []
    ensures var after := ApplyAll(w, DocPlan(w.store, f, chunker, size));
            && Settled(w.store, f, chunker(f.doc, f.content), after.store) && OwnRows(after.store)
            && after.memory == Replaced(w.memory, f.doc, chunker(f.doc, f.content)) && after.file == w.file
  {
    hide ApplyAll, Puts, Batched, Settled, OwnRows, Missing, Replaced, Upserted;
    var chunks := chunker(f.doc, f.content);
    assert Numbered(f.doc, chunks);
    var missing := Missing(w.store, f.doc, chunks);
    var puts := Puts(f.doc, Batched(missing, size));
    ApplyConcat(w, puts, Closing(w.store, f, chunks));
    BatchesPutAll(w, f.doc, missing, size);
    ClosingApplies(Apply(w, Put(f.doc, missing)), f, chunks, ExistingIds(w.store, f.doc) - IdsOf(chunks));
    SettledStore(w.store, f, chunks);
  }

  // ----- what goes wrong when content changes -----

  /** The rows of `doc` are exactly `chunks`, ids and texts. */
  ghost predicate Exact(store: Store, doc: DocId, chunks: seq<Chunk>) {
    forall id: ChunkId :: id.doc == doc ==>
      (id in store.chunks <==> id.index < |chunks|)
        && (id in store.chunks ==> store.chunks[id].text == chunks[id.index].text)
  }

  /** After new content is ingested the store holds its chunking exactly when no chunk that was there
      under the same number had another text: chunk ids say where a chunk is, not what it says. Either
      way the hash is current, so no later run looks again. */
  lemma NewContentIsExactIff(w: World, f: File, chunker: Chunker, size: nat)
    requires size > 0 && Numbers(chunker) && OwnRows(w.store) && !UpToDate(w.store, f)
             && chunker(f.doc, f.content) != []
    ensures var chunks := chunker(f.doc, f.content);
            var after := ApplyAll(w, DocPlan(w.store, f, chunker, size)).store;
            && UpToDate(after, f) && DocPlan(after, f, chunker, size) == []
            && (Exact(after, f.doc, chunks)
                <==> forall id: ChunkId :: id in w.store.chunks && id.doc == f.doc && id.index < |chunks| ==>
                       w.store.chunks[id].text == chunks[id.index].text)
  {
    hide ApplyAll;
    DocSettles(w, f, chunker, size);
    var chunks := chunker(f.doc, f.content);
    var before, after := w.store, ApplyAll(w, DocPlan(w.store, f, chunker, size)).store;
    if Exact(after, f.doc, chunks) {
      forall id: ChunkId | id in before.chunks && id.doc == f.doc && id.index < |chunks|
        ensures before.chunks[id].text == chunks[id.index].text
      {
        assert id in after.chunks;
      }
    }
  }

  lemma {:induction false} PutsKeepHashes(w: World, doc: DocId, batches: seq<seq<Chunk>>, n: nat)
    requires n <= |batches|
    ensures ApplyAll(w, Puts(doc, batches)[..n]).store.documents == w.store.documents
    decreases n
  {
    var puts := Puts(doc, batches);
    if n == 0 {
      assert puts[..0] == [];
    } else {
      assert puts[..n] == [Put(doc, batches[0])] + Puts(doc, batches[1..])[..n - 1];
      ApplyFirst(w, Put(doc, batches[0]), Puts(doc, batches[1..])[..n - 1]);
      PutsKeepHashes(Apply(w, Put(doc, batches[0])), doc, batches[1..], n - 1);
    }
  }

  lemma ClosingKeepsHashes(w: World, f: File, chunks: seq<Chunk>, stale: set<ChunkId>, n: nat)
    requires n < 3
    ensures ApplyAll(w, [Drop(stale), Reindex(f.doc, chunks), Mark(f.doc, f.content)][..n]).store.documents
            == w.store.documents
  {
    hide Replaced;
    var closing := [Drop(stale), Reindex(f.doc, chunks), Mark(f.doc, f.content)];
    assert closing[..0] == [] && closing[..1] == [Drop(stale)] + []
      && closing[..2] == [Drop(stale)] + [Reindex(f.doc, chunks)];
    ApplyFirst(w, Drop(stale), []);
    ApplyFirst(w, Drop(stale), [Reindex(f.doc, chunks)]);
    assert [Reindex(f.doc, chunks)] == [Reindex(f.doc, chunks)] + [];
    ApplyFirst(Apply(w, Drop(stale)), Reindex(f.doc, chunks), []);
  }

  /** A run killed in the middle of a document leaves every hash as it was. So the document's is unset
      exactly if this was its first ingest; on a later one the hash of the old content stays, over
      rows that may already be new. */
  lemma KilledDocumentKeepsItsHash(w: World, f: File, chunker: Chunker, size: nat, n: nat)
    requires size > 0 && n < |DocPlan(w.store, f, chunker, size)|
    ensures var after := ApplyAll(w, DocPlan(w.store, f, chunker, size)[..n]).store;
            after.documents == w.store.documents
  {
    hide ApplyAll;
    var chunks := chunker(f.doc, f.content);
    var batches := Batched(Missing(w.store, f.doc, chunks), size);
    var puts, closing := Puts(f.doc, batches), Closing(w.store, f, chunks);
    var plan := DocPlan(w.store, f, chunker, size);
    assert plan == puts + closing;
    if n <= |puts| {
      assert plan[..n] == puts[..n];
      PutsKeepHashes(w, f.doc, batches, n);
    } else {
      var m := n - |puts|;
      assert plan[..n] == puts + closing[..m] && puts[..|puts|] == puts;
      ApplyConcat(w, puts, closing[..m]);
      PutsKeepHashes(w, f.doc, batches, |batches|);
      ClosingKeepsHashes(ApplyAll(w, puts), f, chunks, ExistingIds(w.store, f.doc) - IdsOf(chunks), m);
    }
  }
}
