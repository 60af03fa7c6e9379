/** Whole histories of ingest runs, crashing and completing (services/rag/cli.py). */
module IngestRuns {
  import opened Aggregates
  import opened Chunking
  import opened Bm25
  import opened Ingest
  import opened SafeSteps
  import opened KilledDocuments

  ghost predicate AllFixed(attempts: seq<Attempt>, library: Library) {
    forall i :: 0 <= i < |attempts| ==> Fixed(attempts[i].files, library)
  }

  lemma AttemptKeepsSound(w: World, a: Attempt, library: Library, chunker: Chunker, size: nat)
    requires size > 0 && Numbers(chunker) && Sound(w.store, library, chunker) && Fixed(a.files, library)
    ensures Sound(Attempted(w, a, chunker, size).store, library, chunker)
  {
    hide Sound, RunPlan, Safe;
    var plan := PlanOf(w, a.files, chunker, size);
    RunPlanIsSafe(Boot(w), a.files, library, chunker, size);
    var n := if a.steps <= |plan| then a.steps else |plan|;
    assert plan[..|plan|] == plan;
    assert Executed(w, a, chunker, size) == plan[..n];
    SafePrefixKeepsSound(Boot(w), plan, n, library, chunker);
  }

  lemma {:induction false} AlwaysSound(attempts: seq<Attempt>, library: Library, chunker: Chunker, size: nat)
    requires size > 0 && Numbers(chunker) && AllFixed(attempts, library)
    ensures Sound(After(attempts, chunker, size).store, library, chunker)
  {
    if attempts != [] {
      var n := |attempts| - 1;
      assert forall i :: 0 <= i < n ==> attempts[..n][i] == attempts[i];
      AlwaysSound(attempts[..n], library, chunker, size);
      AttemptKeepsSound(After(attempts[..n], chunker, size), attempts[n], library, chunker, size);
    }
  }

  /** From an empty store, while no document's content changes: after any runs, each killed at any
      step or completed, a document whose hash is current holds exactly its chunking. */
  lemma CurrentDocumentsAreExact(attempts: seq<Attempt>, library: Library, chunker: Chunker, size: nat, doc: DocId)
    requires size > 0 && Numbers(chunker) && AllFixed(attempts, library)
    requires UpToDate(After(attempts, chunker, size).store, File(doc, library(doc)))
    ensures Exact(After(attempts, chunker, size).store, doc, chunker(doc, library(doc)))
  {
    hide After;
    AlwaysSound(attempts, library, chunker, size);
    SoundIsExact(After(attempts, chunker, size).store, doc, library, chunker);
  }

  // ----- one completed run is enough -----

  lemma {:induction false} RunMarksEveryFile(w: World, files: seq<File>, library: Library, chunker: Chunker, size: nat,
      i: nat)
    requires size > 0 && Numbers(chunker) && Sound(w.store, library, chunker) && Fixed(files, library)
    requires i < |files| && chunker(files[i].doc, files[i].content) != []
    ensures files[i].doc in ApplyAll(w, RunPlan(w, files, chunker, size)).store.documents
    decreases files
  {
    hide Sound, DocPlan, ApplyAll, Safe;
    var plan := DocPlan(w.store, files[0], chunker, size);
    var w' := ApplyAll(w, plan);
    var rest := RunPlan(w', files[1..], chunker, size);
    DocPlanIsSafe(w, files[0], library, chunker, size);
    SafePrefixKeepsSound(w, plan, |plan|, library, chunker);
    assert plan[..|plan|] == plan;
    ApplyConcat(w, plan, rest);
    RunPlanIsSafe(w', files[1..], library, chunker, size);
    if i == 0 {
      DocIsMarked(w, files[0], library, chunker, size);
      SafePrefixKeepsSound(w', rest, |rest|, library, chunker);
      assert rest[..|rest|] == rest;
    } else {
      RunMarksEveryFile(w', files[1..], library, chunker, size, i - 1);
    }
  }

  lemma DocIsMarked(w: World, f: File, library: Library, chunker: Chunker, size: nat)
    requires size > 0 && Numbers(chunker) && Sound(w.store, library, chunker) && chunker(f.doc, f.content) != []
    ensures f.doc in ApplyAll(w, DocPlan(w.store, f, chunker, size)).store.documents
  {
    SoundOwnsRows(w.store, library, chunker);
    if UpToDate(w.store, f) {
      NoWrites(w);
    } else {
      DocSettles(w, f, chunker, size);
    }
  }

  /** Whatever was killed before, one completed run leaves every document it was given that has any
      chunks current, and so exact. */
  lemma OneCompletedRunSuffices(attempts: seq<Attempt>, a: Attempt, library: Library, chunker: Chunker, size: nat,
      i: nat)
    requires size > 0 && Numbers(chunker) && AllFixed(attempts, library) && Fixed(a.files, library)
    requires Completes(After(attempts, chunker, size), a, chunker, size)
    requires i < |a.files| && chunker(a.files[i].doc, a.files[i].content) != []
    ensures var after := Attempted(After(attempts, chunker, size), a, chunker, size).store;
            UpToDate(after, a.files[i]) && Exact(after, a.files[i].doc, chunker(a.files[i].doc, a.files[i].content))
  {
    hide After, RunPlan, ApplyAll;
    var w := After(attempts, chunker, size);
    AlwaysSound(attempts, library, chunker, size);
    AttemptKeepsSound(w, a, library, chunker, size);
    RunMarksEveryFile(Boot(w), a.files, library, chunker, size, i);
    var plan := PlanOf(w, a.files, chunker, size);
    assert Executed(w, a, chunker, size) == plan;
    SoundIsExact(Attempted(w, a, chunker, size).store, a.files[i].doc, library, chunker);
  }

  // ----- nothing is embedded twice -----

  /** The chunks that `xs` embeds. */
  function Embedded(xs: seq<Write>): set<ChunkId> {
    if xs == [] then {}
    else Embedded(xs[..|xs| - 1]) + if xs[|xs| - 1].Put? then IdsOf(xs[|xs| - 1].batch) else {}
  }

  lemma {:induction false} EmbeddedConcat(xs: seq<Write>, ys: seq<Write>)
    ensures Embedded(xs + ys) == Embedded(xs) + Embedded(ys)
  {
    if ys == [] {
      assert xs + ys == xs;
    } else {
      assert (xs + ys)[..|xs + ys| - 1] == xs + ys[..|ys| - 1];
      EmbeddedConcat(xs, ys[..|ys| - 1]);
    }
  }

  lemma {:induction false} PutsEmbed(doc: DocId, batches: seq<seq<Chunk>>, fresh_ids: set<ChunkId>)
    requires forall i :: 0 <= i < |batches| ==> IdsOf(batches[i]) <= fresh_ids
    ensures Embedded(Puts(doc, batches)) <= fresh_ids
    decreases batches
  {
    if batches != [] {
      hide IdsOf;
      var rest := batches[1..];
      PutsEmbed(doc, rest, fresh_ids);
      var head := [Put(doc, batches[0])];
      EmbeddedConcat(head, Puts(doc, rest));
      assert head[..0] == [] && Embedded(head[..0]) == {};
    }
  }

  lemma DocEmbedsWhatIsMissing(w: World, f: File, chunker: Chunker, size: nat)
    requires size > 0 && Numbers(chunker) && OwnRows(w.store)
    ensures forall id :: id in Embedded(DocPlan(w.store, f, chunker, size)) ==> id.doc == f.doc && id !in w.store.chunks
  {
    var chunks := chunker(f.doc, f.content);
    if !UpToDate(w.store, f) && chunks != [] {
      hide Batched, Puts;
      assert Numbered(f.doc, chunks);
      var missing := Missing(w.store, f.doc, chunks);
      var batches := Batched(missing, size);
      MissingFacts(w.store, f.doc, chunks);
      BatchesAreParts(missing, size);
      forall i | 0 <= i < |batches|
        ensures IdsOf(batches[i]) <= IdsOf(missing)
      {
        PartOfIds(batches[i], missing);
      }
      PutsEmbed(f.doc, batches, IdsOf(missing));
      forall id | id in IdsOf(missing)
        ensures id.doc == f.doc && id !in w.store.chunks
      {
        MissingIds(w.store, f, chunks, id);
      }
      EmbeddedConcat(Puts(f.doc, batches), Closing(w.store, f, chunks));
      ClosingEmbedsNothing(w.store, f, chunks);
    }
  }

  lemma PartOfIds(part: seq<Chunk>, all: seq<Chunk>)
    requires forall j :: 0 <= j < |part| ==> part[j] in all
    ensures IdsOf(part) <= IdsOf(all)
  {
    forall id | id in IdsOf(part)
      ensures id in IdsOf(all)
    {
      var j :| 0 <= j < |part| && part[j].id == id;
      var k :| 0 <= k < |all| && all[k] == part[j];
    }
  }

  lemma ClosingEmbedsNothing(store: Store, f: File, chunks: seq<Chunk>)
    ensures Embedded(Closing(store, f, chunks)) == {}
  {
    var xs := Closing(store, f, chunks);
    assert xs[..2][..1][..0] == [];
    assert Embedded(xs[..2][..1]) == {};
    assert Embedded(xs[..2]) == {};
  }

  lemma {:induction false} RunEmbedsWhatIsMissing(w: World, files: seq<File>, library: Library, chunker: Chunker,
      size: nat)
    requires size > 0 && Numbers(chunker) && Sound(w.store, library, chunker) && Fixed(files, library)
    ensures Embedded(RunPlan(w, files, chunker, size)) !! w.store.chunks.Keys
    decreases files
  {
    if files == [] {
      assert [Save][..0] == [];
    } else {
      hide Sound, DocPlan, ApplyAll, Safe, Embedded;
      var plan := DocPlan(w.store, files[0], chunker, size);
      var w' := ApplyAll(w, plan);
      SoundOwnsRows(w.store, library, chunker);
      DocEmbedsWhatIsMissing(w, files[0], chunker, size);
      DocPlanIsSafe(w, files[0], library, chunker, size);
      SafePrefixKeepsSound(w, plan, |plan|, library, chunker);
      assert plan[..|plan|] == plan;
      RunEmbedsWhatIsMissing(w', files[1..], library, chunker, size);
      EmbeddedConcat(plan, RunPlan(w', files[1..], chunker, size));
    }
  }

  /** Whatever runs came before, over whatever contents, every row belongs to the document its id names. */
  lemma {:induction false} AlwaysOwnRows(attempts: seq<Attempt>, chunker: Chunker, size: nat)
    requires size > 0 && Numbers(chunker)
    ensures OwnRows(After(attempts, chunker, size).store)
  {
    if attempts != [] {
      hide RunPlan, ApplyAll, AllPutOwn;
      var n := |attempts| - 1;
      var w, a := After(attempts[..n], chunker, size), attempts[n];
      AlwaysOwnRows(attempts[..n], chunker, size);
      var plan := PlanOf(w, a.files, chunker, size);
      RunPlanPutsOwn(Boot(w), a.files, chunker, size);
      assert plan[..|plan|] == plan;
      PrefixKeepsOwnRows(Boot(w), plan, if a.steps <= |plan| then a.steps else |plan|);
    }
  }

  ghost predicate HoldsStart(store: Store, files: seq<File>, start: set<ChunkId>) {
    forall i, id :: 0 <= i < |files| && id in start && id.doc == files[i].doc ==> id in store.chunks
  }

  /** One document takes no row from the documents still to come. */
  lemma DocKeepsStart(w: World, files: seq<File>, start: set<ChunkId>, chunker: Chunker, size: nat)
    requires size > 0 && Numbers(chunker) && OwnRows(w.store) && files != [] && DistinctDocs(files)
    requires HoldsStart(w.store, files, start)
    ensures var after := ApplyAll(w, DocPlan(w.store, files[0], chunker, size)).store;
            OwnRows(after) && HoldsStart(after, files[1..], start)
  {
    hide ApplyAll;
    var f := files[0];
    var chunks := chunker(f.doc, f.content);
    if UpToDate(w.store, f) || chunks == [] {
      NoWrites(w);
    } else {
      hide DocPlan;
      DocSettles(w, f, chunker, size);
    }
  }

  lemma {:induction false} RunEmbedsNothingHeld(w: World, files: seq<File>, start: set<ChunkId>, chunker: Chunker,
      size: nat)
    requires size > 0 && Numbers(chunker) && OwnRows(w.store) && DistinctDocs(files)
             && HoldsStart(w.store, files, start)
    ensures Embedded(RunPlan(w, files, chunker, size)) !! start
    decreases files
  {
    if files == [] {
      assert [Save][..0] == [];
    } else {
      hide OwnRows, DocPlan, ApplyAll, Embedded;
      var plan := DocPlan(w.store, files[0], chunker, size);
      var w' := ApplyAll(w, plan);
      DocEmbedsWhatIsMissing(w, files[0], chunker, size);
      DocKeepsStart(w, files, start, chunker, size);
      RunEmbedsNothingHeld(w', files[1..], start, chunker, size);
      EmbeddedConcat(plan, RunPlan(w', files[1..], chunker, size));
    }
  }

  /** No chunk that is in the store when a run starts is embedded by it, killed or not, if the run
      names each document once, whatever happened to contents before; or if contents never change. */
  lemma PresentChunksAreNotEmbedded(attempts: seq<Attempt>, a: Attempt, library: Library, chunker: Chunker, size: nat)
    requires size > 0 && Numbers(chunker)
    requires DistinctDocs(a.files) || (AllFixed(attempts, library) && Fixed(a.files, library))
    ensures var w := After(attempts, chunker, size); Embedded(Executed(w, a, chunker, size)) !! w.store.chunks.Keys
  {
    hide After, RunPlan, Embedded;
    var w := After(attempts, chunker, size);
    if DistinctDocs(a.files) {
      AlwaysOwnRows(attempts, chunker, size);
      RunEmbedsNothingHeld(Boot(w), a.files, w.store.chunks.Keys, chunker, size);
    } else {
      AlwaysSound(attempts, library, chunker, size);
      RunEmbedsWhatIsMissing(Boot(w), a.files, library, chunker, size);
    }
    var plan, done := PlanOf(w, a.files, chunker, size), Executed(w, a, chunker, size);
    assert plan == done + plan[|done|..];
    EmbeddedConcat(done, plan[|done|..]);
  }

  // ----- a killed run whose new content is taken back -----

  /** Killed after any of its steps, a document whose rows have no gaps still has none, and its texts
      are those of the growing. */
  lemma KilledDocumentGrows(w: World, f: File, chunker: Chunker, size: nat, n: nat, texts: seq<string>)
    requires size > 0 && Numbers(chunker) && OwnRows(w.store) && n <= |DocPlan(w.store, f, chunker, size)|
    requires Holds(w.store, f.doc, texts)
    ensures var after := ApplyAll(w, DocPlan(w.store, f, chunker, size)[..n]).store;
            OwnRows(after) && Holds(after, f.doc, Grown(texts, TextsOf(chunker(f.doc, f.content)), size, n))
  {
    hide ApplyAll, DocPlan, Batched, Missing, Front, TextsOf, Grown;
    assert Numbered(f.doc, chunker(f.doc, f.content));
    DocPlanSettlesPartly(w, f, chunker, size, n);
    var after := ApplyAll(w, DocPlan(w.store, f, chunker, size)[..n]).store;
    PartlySettledHolds(w.store, f, chunker(f.doc, f.content), texts, size, n, after);
  }

  /** And no other document's rows change. */
  lemma KilledDocumentLeavesOthers(w: World, f: File, chunker: Chunker, size: nat, n: nat, doc: DocId,
      texts: seq<string>)
    requires size > 0 && Numbers(chunker) && OwnRows(w.store) && n <= |DocPlan(w.store, f, chunker, size)|
    requires doc != f.doc && Holds(w.store, doc, texts)
    ensures var after := ApplyAll(w, DocPlan(w.store, f, chunker, size)[..n]).store;
            OwnRows(after) && Holds(after, doc, texts)
  {
    hide ApplyAll, DocPlan, Batched, Missing, Front, PartlySettled, Holds;
    var chunks := chunker(f.doc, f.content);
    DocPlanSettlesPartly(w, f, chunker, size, n);
    OtherRowsStay(w.store, f, chunks, Front(Missing(w.store, f.doc, chunks), size, n),
      n > |Batched(Missing(w.store, f.doc, chunks), size)|,
      ApplyAll(w, DocPlan(w.store, f, chunker, size)[..n]).store, doc, texts);
  }

  lemma HoldsOnce(store: Store, doc: DocId, a: seq<string>, b: seq<string>)
    requires Holds(store, doc, a) && Holds(store, doc, b)
    ensures a == b
  {
    assert ChunkId(doc, |a|).index == |a| && ChunkId(doc, |b|).index == |b|;
    assert |a| == |b|;
    forall i | 0 <= i < |a|
      ensures a[i] == b[i]
    {
      assert ChunkId(doc, i) in store.chunks;
    }
  }

  /** Which killed ingests turn rows with `texts` into rows with `old_texts`: told from the texts. */
  ghost predicate Repairs(texts: seq<string>, old_texts: seq<string>, now: seq<string>, size: nat, n: nat) {
    if texts == old_texts then n == 0 || |now| == |old_texts|
    else if old_texts < texts then n > 0 && |now| == |old_texts|
    else if texts < old_texts then n > 0 && |texts| < |now| && Front(now[|texts|..], size, n) == old_texts[|texts|..]
    else false
  }

  lemma GrownRepairsIff(texts: seq<string>, old_texts: seq<string>, now: seq<string>, size: nat, n: nat)
    requires size > 0
    ensures Grown(texts, now, size, n) == old_texts <==> Repairs(texts, old_texts, now, size, n)
  {
    hide Front;
    var s := |texts|;
    if n == 0 {
      assert Grown(texts, now, size, n) == texts;
    } else if |now| <= s {
      assert Grown(texts, now, size, n) == texts[..|now|];
      if texts[..|now|] == old_texts {
        assert old_texts <= texts;
      }
      if old_texts <= texts && |now| == |old_texts| {
        assert texts[..|now|] == old_texts;
      }
    } else {
      var more := Front(now[s..], size, n);
      FrontIsPrefix(now[s..], size, n);
      assert Grown(texts, now, size, n) == texts + more;
      if texts + more == old_texts {
        assert texts <= old_texts && old_texts[s..] == more;
      }
      if texts <= old_texts && more == old_texts[s..] {
        assert texts + more == old_texts;
      }
    }
  }

  /** A document can be current and wrong. Its ingest is killed after any number of steps, over any
      rows without gaps, and its content put back: its hash is current and it is skipped. Whether it is
      exact then is told by the texts it held before. Exact rows stay so if no step was taken or the
      other version has as many chunks; strays go with the first step of a version of just the right
      length; lost chunks come back with a version that has their very texts, killed before it puts
      more; and no one such run mends a wrong text under an old number. */
  lemma RevertedDocumentIsExactIff(w: World, doc: DocId, was: string, now: string, chunker: Chunker, size: nat, n: nat,
      texts: seq<string>)
    requires size > 0 && Numbers(chunker) && OwnRows(w.store) && Holds(w.store, doc, texts)
    requires UpToDate(w.store, File(doc, was))
    requires was != now && n < |DocPlan(w.store, File(doc, now), chunker, size)|
    ensures var killed := ApplyAll(w, DocPlan(w.store, File(doc, now), chunker, size)[..n]).store;
            && UpToDate(killed, File(doc, was)) && DocPlan(killed, File(doc, was), chunker, size) == []
            && (Exact(killed, doc, chunker(doc, was)) <==>
                  Repairs(texts, TextsOf(chunker(doc, was)), TextsOf(chunker(doc, now)), size, n))
  {
    var f, before := File(doc, now), TextsOf(chunker(doc, was));
    KilledDocumentKeepsItsHash(w, f, chunker, size, n);
    KilledDocumentGrows(w, f, chunker, size, n, texts);
    hide ApplyAll, Exact, OwnRows, Holds, TextsOf, Grown, Repairs, Batched, Puts, Missing, Closing;
    var killed := ApplyAll(w, DocPlan(w.store, f, chunker, size)[..n]).store;
    var grown := Grown(texts, TextsOf(chunker(doc, now)), size, n);
    ExactIsHolds(killed, doc, chunker(doc, was));
    GrownRepairsIff(texts, before, TextsOf(chunker(doc, now)), size, n);
    if Holds(killed, doc, before) {
      HoldsOnce(killed, doc, before, grown);
    }
  }

  lemma {:induction false} RunHasNoGaps(w: World, files: seq<File>, n: nat, chunker: Chunker, size: nat, doc: DocId,
      texts: seq<string>) returns (texts': seq<string>)
    requires size > 0 && Numbers(chunker) && OwnRows(w.store) && Holds(w.store, doc, texts)
    requires n <= |RunPlan(w, files, chunker, size)|
    ensures var after := ApplyAll(w, RunPlan(w, files, chunker, size)[..n]).store;
            OwnRows(after) && Holds(after, doc, texts')
    decreases files
  {
    hide OwnRows, Holds, ApplyAll;
    if files == [] {
      texts' := texts;
      SaveKeepsStore(w, n);
    } else {
      hide DocPlan, Grown;
      var f := files[0];
      var plan := DocPlan(w.store, f, chunker, size);
      var rest := RunPlan(ApplyAll(w, plan), files[1..], chunker, size);
      var m := if n <= |plan| then n else |plan|;
      var here := texts;
      if f.doc == doc {
        here := Grown(texts, TextsOf(chunker(f.doc, f.content)), size, m);
        KilledDocumentGrows(w, f, chunker, size, m, texts);
      } else {
        KilledDocumentLeavesOthers(w, f, chunker, size, m, doc, texts);
      }
      if n <= |plan| {
        assert (plan + rest)[..n] == plan[..n];
        texts' := here;
      } else {
        assert plan[..m] == plan && (plan + rest)[..n] == plan + rest[..n - m];
        ApplyConcat(w, plan, rest[..n - m]);
        texts' := RunHasNoGaps(ApplyAll(w, plan), files[1..], n - m, chunker, size, doc, here);
      }
    }
  }

  lemma SaveKeepsStore(w: World, n: nat)
    requires n <= 1
    ensures ApplyAll(w, [Save][..n]).store == w.store
  {
    assert [Save][..0] == [] && [Save][..1] == [Save] + [];
    NoWrites(w);
    ApplyFirst(w, Save, []);
    NoWrites(Apply(w, Save));
  }

  /** In every history of runs, killed or not and whatever became of the contents, the rows of every
      document are numbered from 0 without gaps: what can be wrong is where they end, and their texts. */
  lemma {:induction false} DocumentsHaveNoGaps(attempts: seq<Attempt>, chunker: Chunker, size: nat, doc: DocId)
    requires size > 0 && Numbers(chunker)
    ensures exists texts :: Holds(After(attempts, chunker, size).store, doc, texts)
  {
    hide Holds, Attempted;
    if attempts == [] {
      NewHoldsNothing(doc);
      assert Holds(After(attempts, chunker, size).store, doc, []);
    } else {
      var n := |attempts| - 1;
      DocumentsHaveNoGaps(attempts[..n], chunker, size, doc);
      var texts :| Holds(After(attempts[..n], chunker, size).store, doc, texts);
      AlwaysOwnRows(attempts[..n], chunker, size);
      var texts' := AttemptHasNoGaps(After(attempts[..n], chunker, size), attempts[n], chunker, size, doc, texts);
      assert Holds(After(attempts, chunker, size).store, doc, texts');
    }
  }

  lemma NewHoldsNothing(doc: DocId)
    ensures Holds(NEW.store, doc, [])
  {
  }

  lemma AttemptHasNoGaps(w: World, a: Attempt, chunker: Chunker, size: nat, doc: DocId, texts: seq<string>)
    returns (texts': seq<string>)
    requires size > 0 && Numbers(chunker) && OwnRows(w.store) && Holds(w.store, doc, texts)
    ensures Holds(Attempted(w, a, chunker, size).store, doc, texts')
  {
    hide RunPlan, ApplyAll, OwnRows, Holds;
    var plan := PlanOf(w, a.files, chunker, size);
    assert plan[..|plan|] == plan;
    var n := if a.steps <= |plan| then a.steps else |plan|;
    assert Executed(w, a, chunker, size) == plan[..n];
    texts' := RunHasNoGaps(Boot(w), a.files, n, chunker, size, doc, texts);
  }

  lemma OneFile(w: World, f: File, steps: nat, chunker: Chunker, size: nat)
    requires size > 0
    ensures Attempted(w, Attempt([f], steps), chunker, size).store
         == ApplyAll(Boot(w), Take(DocPlan(w.store, f, chunker, size), steps)).store
  {
    hide ApplyAll, DocPlan;
    var plan := DocPlan(w.store, f, chunker, size);
    var done := ApplyAll(Boot(w), plan);
    assert [f][1..] == [];
    assert RunPlan(done, [f][1..], chunker, size) == [Save];
    assert PlanOf(w, [f], chunker, size) == plan + [Save];
    if steps <= |plan| {
      assert (plan + [Save])[..steps] == plan[..steps];
    } else {
      assert Executed(w, Attempt([f], steps), chunker, size) == plan + [Save];
      ApplyConcat(Boot(w), plan, [Save]);
      assert [Save] == [Save] + [];
      ApplyFirst(done, Save, []);
      NoWrites(Apply(done, Save));
    }
  }

  /** From an empty store: a version is ingested, another is killed after `n` steps, and the first is
      put back and ingested again, to its end or not. The store says it is current; it is exact if and
      only if no step of the other was taken or it had as many chunks. */
  lemma RevertedHistory(doc: DocId, was: string, now: string, chunker: Chunker, size: nat, first: nat, n: nat,
      last: nat)
    requires size > 0 && Numbers(chunker) && chunker(doc, was) != [] && was != now
    requires first >= |DocPlan(NEW.store, File(doc, was), chunker, size)|
    requires n < |DocPlan(After([Attempt([File(doc, was)], first)], chunker, size).store, File(doc, now), chunker,
             size)|
    ensures var attempts := [Attempt([File(doc, was)], first), Attempt([File(doc, now)], n),
            Attempt([File(doc, was)], last)];
            var after := After(attempts, chunker, size).store;
            && UpToDate(after, File(doc, was))
            && (Exact(after, doc, chunker(doc, was)) <==> n == 0 || |chunker(doc, now)| == |chunker(doc, was)|)
  {
    hide ApplyAll, DocPlan, Attempted, Exact, OwnRows;
    var a, b, c := Attempt([File(doc, was)], first), Attempt([File(doc, now)], n), Attempt([File(doc, was)], last);
    assert [a, b, c][..2] == [a, b] && [a, b][..1] == [a] && [a][..0] == [];
    var w1 := After([a], chunker, size);
    var w2 := After([a, b], chunker, size);
    FirstIngest(File(doc, was), first, chunker, size);
    OneFile(w1, File(doc, now), n, chunker, size);
    ExactIsHolds(w1.store, doc, chunker(doc, was));
    RevertedDocumentIsExactIff(Boot(w1), doc, was, now, chunker, size, n, TextsOf(chunker(doc, was)));
    OneFile(w2, File(doc, was), last, chunker, size);
    NoWrites(Boot(w2));
  }

  lemma FirstIngest(f: File, first: nat, chunker: Chunker, size: nat)
    requires size > 0 && Numbers(chunker) && chunker(f.doc, f.content) != []
    requires first >= |DocPlan(NEW.store, f, chunker, size)|
    ensures var store := After([Attempt([f], first)], chunker, size).store;
            OwnRows(store) && UpToDate(store, f) && Exact(store, f.doc, chunker(f.doc, f.content))
  {
    hide ApplyAll, DocPlan, Attempted, Settled;
    var a := Attempt([f], first);
    assert [a][..0] == [];
    assert Continued(NEW, [a], chunker, size) == Attempted(Continued(NEW, [], chunker, size), a, chunker, size);
    OneFile(NEW, f, first, chunker, size);
    DocSettles(Boot(NEW), f, chunker, size);
    NewContentIsExactIff(Boot(NEW), f, chunker, size);
  }
}
