/** The texts in the sparse index while contents do not change (services/rag/cli.py).

    Every entry has the text of the chunk its id stands for, through any steps of a run whose files
    have their one content. */
module IndexTexts {
  import opened Chunking
  import opened Bm25
  import opened Ingest
  import S = SafeSteps

  /** Every entry has the text of the chunk its id stands for. */
  ghost predicate RightTexts(index: Index, library: S.Library, chunker: Chunker) {
    forall id :: id in index.entries ==> RightText(id, index.entries[id].text, library, chunker)
  }

  ghost predicate RightText(id: ChunkId, text: string, library: S.Library, chunker: Chunker) {
    id.index < |chunker(id.doc, library(id.doc))| && text == chunker(id.doc, library(id.doc))[id.index].text
  }

  lemma {:induction false} PutAllKeepsTexts(index: Index, chunks: seq<Chunk>, library: S.Library, chunker: Chunker)
    requires RightTexts(index, library, chunker)
    requires forall i :: 0 <= i < |chunks| ==> RightText(chunks[i].id, chunks[i].text, library, chunker)
    ensures RightTexts(PutAll(index, chunks), library, chunker)
  {
    if chunks != [] {
      hide RightText;
      PutAllKeepsTexts(index, chunks[..|chunks| - 1], library, chunker);
    }
  }

  lemma ReindexKeepsTexts(index: Index, doc: DocId, library: S.Library, chunker: Chunker)
    requires Numbers(chunker) && RightTexts(index, library, chunker)
    ensures RightTexts(Replaced(index, doc, chunker(doc, library(doc))), library, chunker)
  {
    var chunks := chunker(doc, library(doc));
    assert Numbered(doc, chunks);
    PutAllKeepsTexts(Removed(index, OldIds(index, doc)), chunks, library, chunker);
  }

  ghost predicate ReindexesOf(xs: seq<Write>, library: S.Library, chunker: Chunker) {
    forall i :: 0 <= i < |xs| && xs[i].Reindex? ==> xs[i].chunks == chunker(xs[i].doc, library(xs[i].doc))
  }

  lemma DocReindexesItself(store: Store, f: File, library: S.Library, chunker: Chunker, size: nat)
    requires size > 0 && f.content == library(f.doc)
    ensures ReindexesOf(DocPlan(store, f, chunker, size), library, chunker)
  {
    var chunks := chunker(f.doc, f.content);
    if !UpToDate(store, f) && chunks != [] {
      PutsArePuts(f.doc, Batched(Missing(store, f.doc, chunks), size));
    }
  }

  lemma {:induction false} RunReindexesItsFiles(w: World, files: seq<File>, library: S.Library, chunker: Chunker,
      size: nat)
    requires size > 0 && S.Fixed(files, library)
    ensures ReindexesOf(RunPlan(w, files, chunker, size), library, chunker)
    decreases files
  {
    if files != [] {
      hide DocPlan, ApplyAll;
      var plan := DocPlan(w.store, files[0], chunker, size);
      DocReindexesItself(w.store, files[0], library, chunker, size);
      RunReindexesItsFiles(ApplyAll(w, plan), files[1..], library, chunker, size);
    }
  }

  lemma {:induction false} PrefixKeepsTexts(w: World, xs: seq<Write>, n: nat, library: S.Library, chunker: Chunker)
    requires Numbers(chunker) && n <= |xs| && ReindexesOf(xs, library, chunker)
    requires RightTexts(w.memory, library, chunker) && (w.file.Some? ==> RightTexts(w.file.value, library, chunker))
    ensures var after := ApplyAll(w, xs[..n]);
            RightTexts(after.memory, library, chunker)
              && (after.file.Some? ==> RightTexts(after.file.value, library, chunker))
    decreases n
  {
    if n == 0 {
      assert xs[..0] == [];
      NoWrites(w);
    } else {
      hide RightTexts, Upserted, Replaced, ApplyAll;
      var x := xs[0];
      if x.Reindex? {
        ReindexKeepsTexts(w.memory, x.doc, library, chunker);
      }
      assert forall i :: 0 <= i < |xs[1..]| ==> xs[1..][i] == xs[i + 1];
      PrefixKeepsTexts(Apply(w, x), xs[1..], n - 1, library, chunker);
      assert xs[..n] == [x] + xs[1..][..n - 1];
      ApplyFirst(w, x, xs[1..][..n - 1]);
    }
  }

  lemma NoTexts(library: S.Library, chunker: Chunker)
    ensures RightTexts(EMPTY, library, chunker)
  {
  }

  lemma AttemptKeepsTexts(w: World, a: Attempt, library: S.Library, chunker: Chunker, size: nat)
    requires size > 0 && Numbers(chunker) && S.Fixed(a.files, library)
    requires RightTexts(Boot(w).memory, library, chunker)
    ensures RightTexts(Boot(Attempted(w, a, chunker, size)).memory, library, chunker)
  {
    hide RightTexts, RunPlan, ApplyAll, ReindexesOf, Numbers;
    NoTexts(library, chunker);
    var plan := PlanOf(w, a.files, chunker, size);
    RunReindexesItsFiles(Boot(w), a.files, library, chunker, size);
    assert plan[..|plan|] == plan;
    var n := if a.steps <= |plan| then a.steps else |plan|;
    assert Executed(w, a, chunker, size) == plan[..n];
    PrefixKeepsTexts(Boot(w), plan, n, library, chunker);
  }
}
