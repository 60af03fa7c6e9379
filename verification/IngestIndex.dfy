/** The saved sparse index beside the store, over whole histories of ingest runs (services/rag/cli.py). */
module IngestIndex {
  import opened Wrappers
  import opened Chunking
  import opened Bm25
  import opened Ingest
  import S = SafeSteps
  import R = IngestRuns
  import opened IndexTexts
  import opened StillRuns

  // ----- crash-free runs -----

  /** The index is well formed and has an entry for exactly the rows of the store. */
  ghost predicate InStep(store: Store, index: Index) {
    && OwnRows(store) && WellOrdered(index) && UnionOfDocs(index) && DisjointDocs(index)
    && index.entries.Keys == store.chunks.Keys
  }

  lemma OldIdsAreOwnEntries(index: Index, doc: DocId, id: ChunkId)
    requires UnionOfDocs(index) && DisjointDocs(index)
    ensures id in OldIds(index, doc) <==> id in index.entries && id.doc == doc
  {
    if id in OldIds(index, doc) {
      assert doc in index.docs && id in index.docs[doc];
      assert Owned(index.docs, id);
    }
    if id in index.entries {
      assert Owned(index.docs, id);
    }
  }

  lemma ReplacedKeys(index: Index, doc: DocId, chunks: seq<Chunk>, id: ChunkId)
    requires UnionOfDocs(index) && DisjointDocs(index) && Numbered(doc, chunks)
    ensures id in Replaced(index, doc, chunks).entries
            <==> if id.doc == doc then id.index < |chunks| else id in index.entries
  {
    PutAllKeys(Removed(index, OldIds(index, doc)), chunks);
    OldIdsAreOwnEntries(index, doc, id);
    IdsOfNumbered(doc, chunks);
  }

  lemma DocStaysInStep(w: World, f: File, chunker: Chunker, size: nat)
    requires size > 0 && Numbers(chunker) && InStep(w.store, w.memory)
    ensures var after := ApplyAll(w, DocPlan(w.store, f, chunker, size));
            InStep(after.store, after.memory) && after.file == w.file
  {
    hide ApplyAll, Replaced, WellOrdered, UnionOfDocs, DisjointDocs, IdsOf, OldIds;
    var chunks := chunker(f.doc, f.content);
    if UpToDate(w.store, f) || chunks == [] {
      NoWrites(w);
    } else {
      assert Numbered(f.doc, chunks);
      DocSettles(w, f, chunker, size);
      ReplacementKeepsAll(w.memory, f.doc, chunks);
      var after := ApplyAll(w, DocPlan(w.store, f, chunker, size));
      forall id
        ensures id in after.memory.entries <==> id in after.store.chunks
      {
        ReplacedKeys(w.memory, f.doc, chunks, id);
      }
    }
  }

  lemma {:induction false} RunStaysInStep(w: World, files: seq<File>, chunker: Chunker, size: nat)
    requires size > 0 && Numbers(chunker) && InStep(w.store, w.memory)
    ensures var after := ApplyAll(w, RunPlan(w, files, chunker, size));
            InStep(after.store, after.memory) && after.file == Some(after.memory)
    decreases files
  {
    if files == [] {
      assert [Save] == [Save] + [];
      ApplyFirst(w, Save, []);
      NoWrites(Apply(w, Save));
    } else {
      hide InStep, DocPlan, ApplyAll;
      var plan := DocPlan(w.store, files[0], chunker, size);
      var w' := ApplyAll(w, plan);
      DocStaysInStep(w, files[0], chunker, size);
      RunStaysInStep(w', files[1..], chunker, size);
      ApplyConcat(w, plan, RunPlan(w', files[1..], chunker, size));
    }
  }

  ghost predicate CrashFree(attempts: seq<Attempt>, chunker: Chunker, size: nat)
    requires size > 0
  {
    forall i :: 0 <= i < |attempts| ==> Completes(After(attempts[..i], chunker, size), attempts[i], chunker, size)
  }

  lemma {:induction false} HistoryStaysInStep(attempts: seq<Attempt>, chunker: Chunker, size: nat)
    requires size > 0 && Numbers(chunker) && CrashFree(attempts, chunker, size)
    ensures var w := After(attempts, chunker, size); InStep(w.store, Boot(w).memory)
  {
    if attempts == [] {
    } else {
      hide InStep, RunPlan, ApplyAll;
      var n := |attempts| - 1;
      var before, a := attempts[..n], attempts[n];
      forall i | 0 <= i < n
        ensures Completes(After(before[..i], chunker, size), before[i], chunker, size)
      {
        assert before[..i] == attempts[..i] && before[i] == attempts[i];
      }
      HistoryStaysInStep(before, chunker, size);
      var w := After(before, chunker, size);
      RunStaysInStep(Boot(w), a.files, chunker, size);
      assert Completes(w, a, chunker, size);
      assert Executed(w, a, chunker, size) == PlanOf(w, a.files, chunker, size);
    }
  }

  /** Across runs that all complete, however content changes in between, the saved index has an entry
      for exactly the chunks in the store. */
  lemma SavedIndexMatchesTheStore(attempts: seq<Attempt>, chunker: Chunker, size: nat)
    requires size > 0 && Numbers(chunker) && CrashFree(attempts, chunker, size) && attempts != []
    ensures var w := After(attempts, chunker, size);
            w.file.Some? && w.file.value.entries.Keys == w.store.chunks.Keys
  {
    hide RunPlan, ApplyAll;
    HistoryStaysInStep(attempts, chunker, size);
    var n := |attempts| - 1;
    var w := After(attempts[..n], chunker, size);
    HistoryPrefix(attempts, chunker, size);
    RunStaysInStep(Boot(w), attempts[n].files, chunker, size);
    assert Completes(w, attempts[n], chunker, size);
    assert Executed(w, attempts[n], chunker, size) == PlanOf(w, attempts[n].files, chunker, size);
  }

  lemma HistoryPrefix(attempts: seq<Attempt>, chunker: Chunker, size: nat)
    requires size > 0 && Numbers(chunker) && CrashFree(attempts, chunker, size) && attempts != []
    ensures var w := After(attempts[..|attempts| - 1], chunker, size); InStep(w.store, Boot(w).memory)
  {
    hide InStep, After;
    var n := |attempts| - 1;
    forall i | 0 <= i < n
      ensures Completes(After(attempts[..n][..i], chunker, size), attempts[..n][i], chunker, size)
    {
      assert attempts[..n][..i] == attempts[..i] && attempts[..n][i] == attempts[i];
    }
    HistoryStaysInStep(attempts[..n], chunker, size);
  }

  // ----- the texts in the index -----

  lemma {:induction false} IndexHasRightTexts(attempts: seq<Attempt>, library: S.Library, chunker: Chunker, size: nat)
    requires size > 0 && Numbers(chunker) && R.AllFixed(attempts, library)
    ensures RightTexts(Boot(After(attempts, chunker, size)).memory, library, chunker)
  {
    if attempts != [] {
      hide RightTexts, Attempted, Boot, S.Fixed;
      var n := |attempts| - 1;
      assert forall i :: 0 <= i < n ==> attempts[..n][i] == attempts[i];
      IndexHasRightTexts(attempts[..n], library, chunker, size);
      AttemptKeepsTexts(After(attempts[..n], chunker, size), attempts[n], library, chunker, size);
    }
  }

  /** While contents do not change, what the saved index and the store both hold has one text in both,
      even after runs that were killed. */
  lemma SavedTextsMatchTheStore(attempts: seq<Attempt>, library: S.Library, chunker: Chunker, size: nat, id: ChunkId)
    requires size > 0 && Numbers(chunker) && R.AllFixed(attempts, library)
    requires var w := After(attempts, chunker, size); id in Boot(w).memory.entries && id in w.store.chunks
    ensures var w := After(attempts, chunker, size); Boot(w).memory.entries[id].text == w.store.chunks[id].text
  {
    hide After;
    IndexHasRightTexts(attempts, library, chunker, size);
    R.AlwaysSound(attempts, library, chunker, size);
  }

  // ----- what a crash costs the index -----

  /** What working through one document leaves of the rest of the world, whatever the world. */
  lemma DocTouchesItself(w: World, f: File, chunker: Chunker, size: nat)
    requires size > 0
    ensures var after := ApplyAll(w, DocPlan(w.store, f, chunker, size));
            && after.file == w.file
            && (if UpToDate(w.store, f) || chunker(f.doc, f.content) == [] then after == w
                else
                  && after.store.documents == w.store.documents[f.doc := f.content]
                  && after.memory == Replaced(w.memory, f.doc, chunker(f.doc, f.content)))
  {
    var chunks := chunker(f.doc, f.content);
    if UpToDate(w.store, f) || chunks == [] {
      NoWrites(w);
    } else {
      hide ApplyAll, Puts, Batched, Replaced, Upserted, Missing;
      var missing := Missing(w.store, f.doc, chunks);
      var puts := Puts(f.doc, Batched(missing, size));
      ApplyConcat(w, puts, Closing(w.store, f, chunks));
      BatchesPutAll(w, f.doc, missing, size);
      ClosingApplies(Apply(w, Put(f.doc, missing)), f, chunks, ExistingIds(w.store, f.doc) - IdsOf(chunks));
    }
  }

  lemma ReplacedDocs(index: Index, doc: DocId, chunks: seq<Chunk>, other: DocId)
    ensures OldIds(Replaced(index, doc, chunks), other) == if other == doc then IdsOf(chunks) else OldIds(index, other)
  {
  }

  lemma {:induction false} RunLeavesOthers(w: World, files: seq<File>, chunker: Chunker, size: nat, doc: DocId)
    requires size > 0 && forall i :: 0 <= i < |files| ==> files[i].doc != doc
    ensures var after := ApplyAll(w, RunPlan(w, files, chunker, size));
            OldIds(after.memory, doc) == OldIds(w.memory, doc) && after.file == Some(after.memory)
    decreases files
  {
    hide OldIds;
    if files == [] {
      assert [Save] == [Save] + [];
      ApplyFirst(w, Save, []);
      NoWrites(Apply(w, Save));
    } else {
      hide DocPlan, ApplyAll, Replaced;
      var plan := DocPlan(w.store, files[0], chunker, size);
      var w' := ApplyAll(w, plan);
      DocTouchesItself(w, files[0], chunker, size);
      ReplacedDocs(w.memory, files[0].doc, chunker(files[0].doc, files[0].content), doc);
      RunLeavesOthers(w', files[1..], chunker, size, doc);
      ApplyConcat(w, plan, RunPlan(w', files[1..], chunker, size));
    }
  }

  lemma {:induction false} RunIndexes(w: World, files: seq<File>, chunker: Chunker, size: nat, i: nat)
    requires size > 0 && DistinctDocs(files) && i < |files|
    ensures var after, f := ApplyAll(w, RunPlan(w, files, chunker, size)), files[i];
            && after.file == Some(after.memory)
            && OldIds(after.memory, f.doc)
               == if UpToDate(w.store, f) || chunker(f.doc, f.content) == [] then OldIds(w.memory, f.doc)
                 else IdsOf(chunker(f.doc, f.content))
    decreases files
  {
    hide DocPlan, ApplyAll, Replaced, OldIds, IdsOf;
    var plan := DocPlan(w.store, files[0], chunker, size);
    var w' := ApplyAll(w, plan);
    DocTouchesItself(w, files[0], chunker, size);
    ReplacedDocs(w.memory, files[0].doc, chunker(files[0].doc, files[0].content), files[i].doc);
    ApplyConcat(w, plan, RunPlan(w', files[1..], chunker, size));
    if i == 0 {
      RunLeavesOthers(w', files[1..], chunker, size, files[0].doc);
    } else {
      assert files[0].doc != files[i].doc;
      RunIndexes(w', files[1..], chunker, size, i - 1);
    }
  }

  /** Exactly which documents a completed run puts in the saved index: those whose stored hash was
      not current. For the others the index it loaded has the last word, right or wrong. */
  lemma IndexCatchesUpIff(w: World, a: Attempt, chunker: Chunker, size: nat, i: nat)
    requires size > 0 && DistinctDocs(a.files) && Completes(w, a, chunker, size) && i < |a.files|
    requires chunker(a.files[i].doc, a.files[i].content) != []
    ensures var f, after := a.files[i], Attempted(w, a, chunker, size);
            && after.file.Some?
            && OldIds(after.file.value, f.doc)
               == if UpToDate(w.store, f) then OldIds(Boot(w).memory, f.doc) else IdsOf(chunker(f.doc, f.content))
  {
    hide RunPlan, ApplyAll, OldIds, IdsOf;
    RunIndexes(Boot(w), a.files, chunker, size, i);
    assert Executed(w, a, chunker, size) == PlanOf(w, a.files, chunker, size);
  }

  ghost predicate NoSave(xs: seq<Write>) {
    forall i :: 0 <= i < |xs| ==> !xs[i].Save?
  }

  lemma DocPlanSavesNothing(store: Store, f: File, chunker: Chunker, size: nat)
    requires size > 0
    ensures NoSave(DocPlan(store, f, chunker, size))
  {
    var chunks := chunker(f.doc, f.content);
    if !UpToDate(store, f) && chunks != [] {
      PutsArePuts(f.doc, Batched(Missing(store, f.doc, chunks), size));
    }
  }

  /** The index is saved once, at the very end. */
  lemma {:induction false} RunSavesLast(w: World, files: seq<File>, chunker: Chunker, size: nat)
    requires size > 0
    ensures SavesLast(RunPlan(w, files, chunker, size))
    decreases files
  {
    if files != [] {
      hide DocPlan, ApplyAll, SavesLast, NoSave;
      var plan := DocPlan(w.store, files[0], chunker, size);
      DocPlanSavesNothing(w.store, files[0], chunker, size);
      RunSavesLast(ApplyAll(w, plan), files[1..], chunker, size);
      SavesLater(plan, RunPlan(ApplyAll(w, plan), files[1..], chunker, size));
    }
  }

  ghost predicate SavesLast(xs: seq<Write>) {
    xs != [] && NoSave(xs[..|xs| - 1])
  }

  lemma SavesLater(xs: seq<Write>, ys: seq<Write>)
    requires NoSave(xs) && SavesLast(ys)
    ensures SavesLast(xs + ys)
  {
    assert (xs + ys)[..|xs + ys| - 1] == xs + ys[..|ys| - 1];
  }

  lemma {:induction false} UnsavedKeepsFile(w: World, xs: seq<Write>)
    requires NoSave(xs)
    ensures ApplyAll(w, xs).file == w.file
    decreases xs
  {
    if xs != [] {
      hide Upserted, Replaced;
      assert !xs[0].Save?;
      assert forall i :: 0 <= i < |xs[1..]| ==> xs[1..][i] == xs[i + 1];
      UnsavedKeepsFile(Apply(w, xs[0]), xs[1..]);
    }
  }

  /** Marks nothing but the files of the run, with their contents. */
  ghost predicate MarksOnly(xs: seq<Write>, files: seq<File>) {
    forall i :: 0 <= i < |xs| && xs[i].Mark? ==> File(xs[i].doc, xs[i].content) in files
  }

  lemma DocPlanMarksItself(store: Store, files: seq<File>, f: File, chunker: Chunker, size: nat)
    requires size > 0 && f in files
    ensures MarksOnly(DocPlan(store, f, chunker, size), files)
  {
    var chunks := chunker(f.doc, f.content);
    if !UpToDate(store, f) && chunks != [] {
      PutsArePuts(f.doc, Batched(Missing(store, f.doc, chunks), size));
    }
  }

  lemma {:induction false} RunMarksItsFiles(w: World, files: seq<File>, all: seq<File>, chunker: Chunker, size: nat)
    requires size > 0 && forall i :: 0 <= i < |files| ==> files[i] in all
    ensures MarksOnly(RunPlan(w, files, chunker, size), all)
    decreases files
  {
    if files != [] {
      hide DocPlan, ApplyAll;
      var plan := DocPlan(w.store, files[0], chunker, size);
      DocPlanMarksItself(w.store, all, files[0], chunker, size);
      RunMarksItsFiles(ApplyAll(w, plan), files[1..], all, chunker, size);
    }
  }

  /** A mark that no other overrides leaves its file current. */
  lemma {:induction false} MarkedIsCurrent(w: World, xs: seq<Write>, f: File)
    requires forall i :: 0 <= i < |xs| && xs[i].Mark? && xs[i].doc == f.doc ==> xs[i].content == f.content
    requires UpToDate(w.store, f) || Mark(f.doc, f.content) in xs
    ensures UpToDate(ApplyAll(w, xs).store, f)
    decreases xs
  {
    if xs != [] {
      hide Upserted, Replaced;
      assert xs == [xs[0]] + xs[1..];
      assert xs[0].Mark? && xs[0].doc == f.doc ==> xs[0].content == f.content;
      MarkedIsCurrent(Apply(w, xs[0]), xs[1..], f);
    }
  }

  /** A run that does not complete saves nothing, whatever it did: the saved index is the one it
      started from. So every file it had marked by then is current in the store, while the index lists
      for it what it did before: nothing, or the chunks of an old version. */
  lemma CrashLeavesTheIndexBehind(w: World, a: Attempt, chunker: Chunker, size: nat)
    requires size > 0 && !Completes(w, a, chunker, size)
    ensures var after := Attempted(w, a, chunker, size);
            && after.file == w.file
            && (forall d :: OldIds(Boot(after).memory, d) == OldIds(Boot(w).memory, d))
            && (DistinctDocs(a.files) ==>
                  forall f :: f in a.files && Mark(f.doc, f.content) in Executed(w, a, chunker, size) ==>
                    UpToDate(after.store, f))
  {
    hide RunPlan, ApplyAll, OldIds;
    var plan := PlanOf(w, a.files, chunker, size);
    RunSavesLast(Boot(w), a.files, chunker, size);
    assert forall i :: 0 <= i < a.steps ==> plan[..|plan| - 1][i] == plan[i];
    UnsavedKeepsFile(Boot(w), plan[..a.steps]);
    RunMarksItsFiles(Boot(w), a.files, a.files, chunker, size);
    if DistinctDocs(a.files) {
      forall f | f in a.files && Mark(f.doc, f.content) in plan[..a.steps]
        ensures UpToDate(Attempted(w, a, chunker, size).store, f)
      {
        MarkedIsCurrent(Boot(w), plan[..a.steps], f);
      }
    }
  }

  /** After runs that completed, whatever became of the contents, one that does not complete leaves the
      saved index with the ids of the store if and only if none of its steps put a chunk or dropped
      one. */
  lemma KilledRunKeepsIndexIff(attempts: seq<Attempt>, a: Attempt, chunker: Chunker, size: nat)
    requires size > 0 && Numbers(chunker) && CrashFree(attempts, chunker, size) && DistinctDocs(a.files)
    requires !Completes(After(attempts, chunker, size), a, chunker, size)
    ensures var w := After(attempts, chunker, size);
            var after := Attempted(w, a, chunker, size);
            Boot(after).memory.entries.Keys == after.store.chunks.Keys <==> AllStill(Executed(w, a, chunker, size))
  {
    hide After, CrashFree;
    HistoryStaysInStep(attempts, chunker, size);
    AttemptKeepsIndexIff(After(attempts, chunker, size), a, chunker, size);
  }

  lemma AttemptKeepsIndexIff(w: World, a: Attempt, chunker: Chunker, size: nat)
    requires size > 0 && Numbers(chunker) && InStep(w.store, Boot(w).memory) && DistinctDocs(a.files)
    requires !Completes(w, a, chunker, size)
    ensures var after := Attempted(w, a, chunker, size);
            Boot(after).memory.entries.Keys == after.store.chunks.Keys <==> AllStill(Executed(w, a, chunker, size))
  {
    hide RunPlan, ApplyAll, AllStill, SameIds, OwnRows, WellOrdered, UnionOfDocs, DisjointDocs;
    CrashLeavesTheIndexBehind(w, a, chunker, size);
    RunIsStillIff(Boot(w), a.files, chunker, size, a.steps);
    var after := Attempted(w, a, chunker, size);
    assert Executed(w, a, chunker, size) == RunPlan(Boot(w), a.files, chunker, size)[..a.steps];
    assert Boot(after).memory.entries.Keys == w.store.chunks.Keys;
    SameKeysIff(after.store, Boot(w).store);
    var done := RunPlan(Boot(w), a.files, chunker, size)[..a.steps];
    assert after == ApplyAll(Boot(w), done);
    assert (forall doc :: SameIds(after.store, Boot(w).store, doc)) <==> AllStill(done);
    assert after.store.chunks.Keys == w.store.chunks.Keys <==> AllStill(done);
  }

  /** What a killed run can have done to a current document: nothing. */
  lemma {:induction false} CurrentDocumentIsSkipped(w: World, xs: seq<Write>, doc: DocId, n: nat)
    requires n <= |xs| && AllLeaveAlone(xs, doc)
    ensures var after := ApplyAll(w, xs[..n]);
            && (doc in after.store.documents <==> doc in w.store.documents)
            && (doc in w.store.documents ==> after.store.documents[doc] == w.store.documents[doc])
            && OldIds(after.memory, doc) == OldIds(w.memory, doc)
            && (after.file == w.file || (after.file.Some? && OldIds(after.file.value, doc) == OldIds(w.memory, doc)))
    decreases n
  {
    hide OldIds, Replaced, Upserted;
    if n == 0 {
      assert xs[..0] == [];
      NoWrites(w);
    } else {
      var x := xs[0];
      assert LeavesAlone(x, doc);
      if x.Reindex? {
        ReplacedDocs(w.memory, x.doc, x.chunks, doc);
      }
      assert forall i :: 0 <= i < |xs[1..]| ==> xs[1..][i] == xs[i + 1];
      CurrentDocumentIsSkipped(Apply(w, x), xs[1..], doc, n - 1);
      assert xs[..n] == [x] + xs[1..][..n - 1];
      ApplyFirst(w, x, xs[1..][..n - 1]);
    }
  }

  ghost predicate AllLeaveAlone(xs: seq<Write>, doc: DocId) {
    forall i :: 0 <= i < |xs| ==> LeavesAlone(xs[i], doc)
  }

  predicate LeavesAlone(x: Write, doc: DocId) { (x.Reindex? ==> x.doc != doc) && (x.Mark? ==> x.doc != doc) }

  lemma DocPlanLeavesAlone(store: Store, f: File, chunker: Chunker, size: nat, doc: DocId)
    requires size > 0 && (f.doc == doc ==> UpToDate(store, f))
    ensures AllLeaveAlone(DocPlan(store, f, chunker, size), doc)
  {
    var chunks := chunker(f.doc, f.content);
    if !UpToDate(store, f) && chunks != [] {
      PutsArePuts(f.doc, Batched(Missing(store, f.doc, chunks), size));
    }
  }

  lemma {:induction false} RunPlanLeavesAlone(w: World, files: seq<File>, chunker: Chunker, size: nat, current: File)
    requires size > 0 && UpToDate(w.store, current)
    requires forall i :: 0 <= i < |files| && files[i].doc == current.doc ==> files[i] == current
    ensures AllLeaveAlone(RunPlan(w, files, chunker, size), current.doc)
    decreases files
  {
    if files != [] {
      hide DocPlan, ApplyAll, LeavesAlone;
      var plan := DocPlan(w.store, files[0], chunker, size);
      DocPlanLeavesAlone(w.store, files[0], chunker, size, current.doc);
      CurrentDocumentIsSkipped(w, plan, current.doc, |plan|);
      assert plan[..|plan|] == plan;
      var rest := RunPlan(ApplyAll(w, plan), files[1..], chunker, size);
      RunPlanLeavesAlone(ApplyAll(w, plan), files[1..], chunker, size, current);
      assert RunPlan(w, files, chunker, size) == plan + rest;
    }
  }

  lemma CurrentStaysAsIndexed(w: World, a: Attempt, chunker: Chunker, size: nat, f: File)
    requires size > 0 && UpToDate(w.store, f)
    requires forall i :: 0 <= i < |a.files| && a.files[i].doc == f.doc ==> a.files[i] == f
    ensures var after := Attempted(w, a, chunker, size);
            UpToDate(after.store, f) && OldIds(Boot(after).memory, f.doc) == OldIds(Boot(w).memory, f.doc)
  {
    hide RunPlan, ApplyAll, OldIds;
    var plan := PlanOf(w, a.files, chunker, size);
    RunPlanLeavesAlone(Boot(w), a.files, chunker, size, f);
    var n := if a.steps <= |plan| then a.steps else |plan|;
    assert plan[..|plan|] == plan;
    assert Executed(w, a, chunker, size) == plan[..n];
    CurrentDocumentIsSkipped(Boot(w), plan, f.doc, n);
  }

  /** And behind it stays, for good: while a current document's content does not change, no runs,
      however many and however killed or completed, alter what the saved index lists for it. */
  lemma {:induction false} BehindForGood(w: World, attempts: seq<Attempt>, chunker: Chunker, size: nat, f: File)
    requires size > 0 && UpToDate(w.store, f)
    requires forall a, i :: a in attempts && 0 <= i < |a.files| && a.files[i].doc == f.doc ==> a.files[i] == f
    ensures var after := Continued(w, attempts, chunker, size);
            UpToDate(after.store, f) && OldIds(Boot(after).memory, f.doc) == OldIds(Boot(w).memory, f.doc)
  {
    if attempts != [] {
      hide Attempted, OldIds;
      var n := |attempts| - 1;
      assert attempts[n] in attempts && forall a :: a in attempts[..n] ==> a in attempts;
      BehindForGood(w, attempts[..n], chunker, size, f);
      CurrentStaysAsIndexed(Continued(w, attempts[..n], chunker, size), attempts[n], chunker, size, f);
    }
  }
}
