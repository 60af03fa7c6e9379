/** What is left of one document whose ingest is killed after any of its steps (services/rag/cli.py).

    Over any store: the missing chunks come in in order, as many as the batches put so far hold; the
    rows past the new version's end go with the first step after them; texts that are there stay. */
module KilledDocuments {
  import opened Aggregates
  import opened Chunking
  import opened Bm25
  import opened Ingest

  /** What the first `n` batches hold. */
  function Front<A>(xs: seq<A>, size: nat, n: nat): seq<A> { Take(xs, n * size) }

  lemma TakeBatches(items: seq<Chunk>, size: nat, n: nat)
    requires 0 < n && size < |items|
    ensures Front(items, size, n) == items[..size] + Front(items[size..], size, n - 1)
  {
    assert n * size == size + (n - 1) * size;
  }

  lemma TakeNone(items: seq<Chunk>, size: nat)
    ensures Front(items, size, 0) == []
  {
  }

  lemma OneBatch(doc: DocId, items: seq<Chunk>, size: nat)
    requires 0 < |items| <= size
    ensures Batched(items, size) == [items] && Front(items, size, 1) == items
  {
  }

  /** The first `n` batches together put what one batch of as many chunks would. */
  lemma {:induction false} BatchesPutPrefix(w: World, doc: DocId, items: seq<Chunk>, size: nat, n: nat)
    requires size > 0 && n <= |Batched(items, size)|
    ensures ApplyAll(w, Puts(doc, Batched(items, size))[..n]) == Apply(w, Put(doc, Front(items, size, n)))
    decreases n
  {
    hide ApplyAll, Front;
    var puts := Puts(doc, Batched(items, size));
    if n == 0 {
      assert puts[..0] == [];
      TakeNone(items, size);
      NoWrites(w);
    } else if |items| <= size {
      OneBatch(doc, items, size);
      assert puts[..n] == puts;
      BatchesPutAll(w, doc, items, size);
    } else {
      hide Puts, Batched, Upserted;
      var first, rest := items[..size], items[size..];
      FirstBatch(doc, items, size);
      BatchesLeft(items, size);
      assert puts[..n] == [Put(doc, first)] + Puts(doc, Batched(rest, size))[..n - 1];
      ApplyFirst(w, Put(doc, first), Puts(doc, Batched(rest, size))[..n - 1]);
      BatchesPutPrefix(Apply(w, Put(doc, first)), doc, rest, size, n - 1);
      UpsertConcat(w.store.chunks, doc, first, Front(rest, size, n - 1));
      TakeBatches(items, size, n);
    }
  }

  lemma BatchesLeft(items: seq<Chunk>, size: nat)
    requires 0 < size < |items|
    ensures |Batched(items, size)| == 1 + |Batched(items[size..], size)|
  {
  }

  lemma {:induction false} BatchesHoldAll(items: seq<Chunk>, size: nat)
    requires size > 0
    ensures Front(items, size, |Batched(items, size)|) == items
    decreases |items|
  {
    if |items| > size {
      hide Batched, Front;
      BatchesHoldAll(items[size..], size);
      BatchesLeft(items, size);
      TakeBatches(items, size, |Batched(items, size)|);
      assert items == items[..size] + items[size..];
    } else if items != [] {
      OneBatch("", items, size);
    }
  }

  /** More than enough batches hold all, too. */
  lemma MoreBatchesHoldAll(items: seq<Chunk>, size: nat, n: nat)
    requires size > 0 && n >= |Batched(items, size)|
    ensures Front(items, size, n) == items
  {
    hide Batched, Front;
    BatchesHoldAll(items, size);
    MoreOfAll(items, size, |Batched(items, size)|, n);
  }

  lemma MoreOfAll(items: seq<Chunk>, size: nat, m: nat, n: nat)
    requires m <= n && Front(items, size, m) == items
    ensures Front(items, size, n) == items
  {
    MoreTimes(m, n, size);
    AllWithMore(items, m * size, n * size);
  }

  lemma MoreTimes(m: nat, n: nat, size: nat)
    requires m <= n
    ensures m * size <= n * size
  {
  }

  lemma AllWithMore(items: seq<Chunk>, k: nat, l: nat)
    requires k <= l && Take(items, k) == items
    ensures Take(items, l) == items
  {
  }

  lemma FrontIsPrefix<A>(xs: seq<A>, size: nat, n: nat)
    ensures Front(xs, size, n) <= xs
    ensures xs != [] && size > 0 && n > 0 ==> Front(xs, size, n) != []
    ensures xs == [] ==> Front(xs, size, n) == []
  {
    assert n > 0 ==> n * size >= size;
  }

  /** What the closing steps leave of the rows. */
  lemma ClosingDropsOnce(w: World, f: File, chunks: seq<Chunk>, stale: set<ChunkId>, n: nat)
    requires n <= 3
    ensures ApplyAll(w, [Drop(stale), Reindex(f.doc, chunks), Mark(f.doc, f.content)][..n]).store.chunks
         == if n == 0 then w.store.chunks else w.store.chunks - stale
  {
    hide Replaced;
    var closing := [Drop(stale), Reindex(f.doc, chunks), Mark(f.doc, f.content)];
    var drop, reindex := closing[0], closing[1];
    assert closing[..0] == [] && closing[..1] == [drop] + [] && closing[..2] == [drop] + ([reindex] + []);
    assert closing[..3] == closing;
    ApplyFirst(w, drop, []);
    ApplyFirst(w, drop, [reindex] + []);
    ApplyFirst(Apply(w, drop), reindex, []);
    ClosingApplies(w, f, chunks, stale);
  }

  /** The rows after `n` steps of a plan. */
  lemma PlanPrefixRows(w: World, f: File, chunks: seq<Chunk>, size: nat, n: nat)
    requires size > 0 && n <= |Batched(Missing(w.store, f.doc, chunks), size)| + 3
    ensures var missing := Missing(w.store, f.doc, chunks);
            var put := Upserted(w.store.chunks, f.doc, Front(missing, size, n));
            ApplyAll(w, (Puts(f.doc, Batched(missing, size)) + Closing(w.store, f, chunks))[..n]).store.chunks
            == if n > |Batched(missing, size)| then put - (ExistingIds(w.store, f.doc) - IdsOf(chunks)) else put
  {
    hide ApplyAll, Batched, Missing, Front, Upserted, IdsOf, ExistingIds;
    var missing := Missing(w.store, f.doc, chunks);
    var puts, closing := Puts(f.doc, Batched(missing, size)), Closing(w.store, f, chunks);
    if n <= |puts| {
      assert (puts + closing)[..n] == puts[..n];
      BatchesPutPrefix(w, f.doc, missing, size, n);
    } else {
      var m := n - |puts|;
      assert (puts + closing)[..n] == puts + closing[..m];
      ApplyConcat(w, puts, closing[..m]);
      BatchesPutAll(w, f.doc, missing, size);
      MoreBatchesHoldAll(missing, size, n);
      ClosingDropsOnce(ApplyAll(w, puts), f, chunks, ExistingIds(w.store, f.doc) - IdsOf(chunks), m);
    }
  }

  /** What some of a document's steps do to the store's rows, whatever it held before: the chunks of
      `put` are in; if `dropped`, the rows past the end are gone; nothing else changes. */
  ghost predicate PartlySettled(before: Store, f: File, chunks: seq<Chunk>, put: seq<Chunk>, dropped: bool,
      after: Store) {
    && (forall id :: id in after.chunks <==>
          if id.doc == f.doc then (id in before.chunks && (dropped ==> id.index < |chunks|)) || id in IdsOf(put)
          else id in before.chunks)
    && forall id :: id in after.chunks ==>
         if id in before.chunks then after.chunks[id] == before.chunks[id]
         else id.index < |chunks| && after.chunks[id] == Row(id.doc, chunks[id.index].text)
  }

  lemma PutRows(store: Store, f: File, chunks: seq<Chunk>, put: seq<Chunk>)
    requires OwnRows(store) && Numbered(f.doc, chunks) && put <= Missing(store, f.doc, chunks)
    ensures var rows := Upserted(store.chunks, f.doc, put);
            && rows.Keys == store.chunks.Keys + IdsOf(put)
            && (forall id :: id in store.chunks ==> id in rows && rows[id] == store.chunks[id])
            && forall id :: id in IdsOf(put) ==>
                 && id.doc == f.doc && id.index < |chunks| && id !in store.chunks
                 && id in rows && rows[id] == Row(f.doc, chunks[id.index].text)
  {
    hide Missing, Upserted, OwnRows, DistinctIds;
    PutIsMissing(store, f, chunks, put);
    UpsertNew(store.chunks, f.doc, put);
    forall id | id in IdsOf(put)
      ensures && id.doc == f.doc && id.index < |chunks| && id !in store.chunks
              && Upserted(store.chunks, f.doc, put)[id] == Row(f.doc, chunks[id.index].text)
    {
      var i :| 0 <= i < |put| && put[i].id == id;
    }
  }

  lemma PutIsMissing(store: Store, f: File, chunks: seq<Chunk>, put: seq<Chunk>)
    requires OwnRows(store) && Numbered(f.doc, chunks) && put <= Missing(store, f.doc, chunks)
    ensures DistinctIds(put)
    ensures forall i :: 0 <= i < |put| ==>
              && put[i].id !in store.chunks && put[i].id.doc == f.doc && put[i].id.index < |chunks|
              && put[i].text == chunks[put[i].id.index].text
  {
    hide Missing, OwnRows;
    var missing := Missing(store, f.doc, chunks);
    MissingFacts(store, f.doc, chunks);
    forall i | 0 <= i < |put|
      ensures && put[i].id !in store.chunks && put[i].id.doc == f.doc && put[i].id.index < |chunks|
              && put[i].text == chunks[put[i].id.index].text
    {
      assert put[i] == missing[i] && missing[i] in missing;
      var j :| 0 <= j < |chunks| && chunks[j] == put[i];
      assert chunks[j].id == ChunkId(f.doc, j);
    }
  }

  /** Killed after any of its steps, over any store. */
  lemma DocPlanSettlesPartly(w: World, f: File, chunker: Chunker, size: nat, n: nat)
    requires size > 0 && Numbers(chunker) && OwnRows(w.store) && n <= |DocPlan(w.store, f, chunker, size)|
    ensures var chunks := chunker(f.doc, f.content);
            var missing := Missing(w.store, f.doc, chunks);
            var after := ApplyAll(w, DocPlan(w.store, f, chunker, size)[..n]).store;
            && OwnRows(after)
            && PartlySettled(w.store, f, chunks, Front(missing, size, n), n > |Batched(missing, size)|, after)
  {
    var chunks := chunker(f.doc, f.content);
    NumbersNumber(chunker, f.doc, f.content);
    hide *;
    if UpToDate(w.store, f) || chunks == [] {
      SkippedDocument(w, f, chunker, size, n);
    } else {
      WorkedDocument(w, f, chunker, size, n);
    }
  }

  lemma NumbersNumber(chunker: Chunker, doc: DocId, content: string)
    requires Numbers(chunker)
    ensures Numbered(doc, chunker(doc, content))
  {
  }

  lemma SkippedDocument(w: World, f: File, chunker: Chunker, size: nat, n: nat)
    requires size > 0 && OwnRows(w.store) && n <= |DocPlan(w.store, f, chunker, size)|
    requires UpToDate(w.store, f) || chunker(f.doc, f.content) == []
    ensures var chunks := chunker(f.doc, f.content);
            var missing := Missing(w.store, f.doc, chunks);
            var after := ApplyAll(w, DocPlan(w.store, f, chunker, size)[..n]).store;
            && OwnRows(after)
            && PartlySettled(w.store, f, chunks, Front(missing, size, n), n > |Batched(missing, size)|, after)
  {
    hide ApplyAll, Batched, Missing, Front, PartlySettled, OwnRows, Puts, Closing;
    assert DocPlan(w.store, f, chunker, size)[..n] == [];
    NoWrites(w);
    TakeNone(Missing(w.store, f.doc, chunker(f.doc, f.content)), size);
    NothingSettled(w.store, f, chunker(f.doc, f.content));
  }

  lemma WorkedDocument(w: World, f: File, chunker: Chunker, size: nat, n: nat)
    requires size > 0 && Numbered(f.doc, chunker(f.doc, f.content)) && OwnRows(w.store)
    requires n <= |DocPlan(w.store, f, chunker, size)| && !UpToDate(w.store, f) && chunker(f.doc, f.content) != []
    ensures var chunks := chunker(f.doc, f.content);
            var missing := Missing(w.store, f.doc, chunks);
            var after := ApplyAll(w, DocPlan(w.store, f, chunker, size)[..n]).store;
            && OwnRows(after)
            && PartlySettled(w.store, f, chunks, Front(missing, size, n), n > |Batched(missing, size)|, after)
  {
    hide *;
    var chunks := chunker(f.doc, f.content);
    var missing := Missing(w.store, f.doc, chunks);
    PlanOfWork(w.store, f, chunker, size);
    PlanPrefixRows(w, f, chunks, size, n);
    FrontIsPrefix(missing, size, n);
    RowsArePartlySettled(w.store, f, chunks, Front(missing, size, n), n > |Batched(missing, size)|,
      ApplyAll(w, DocPlan(w.store, f, chunker, size)[..n]).store);
  }

  lemma NothingSettled(store: Store, f: File, chunks: seq<Chunk>)
    ensures PartlySettled(store, f, chunks, [], false, store)
  {
    NoIds();
  }

  lemma PlanOfWork(store: Store, f: File, chunker: Chunker, size: nat)
    requires size > 0 && !UpToDate(store, f) && chunker(f.doc, f.content) != []
    ensures var chunks := chunker(f.doc, f.content);
            var batches := Batched(Missing(store, f.doc, chunks), size);
            && DocPlan(store, f, chunker, size) == Puts(f.doc, batches) + Closing(store, f, chunks)
            && |DocPlan(store, f, chunker, size)| == |batches| + 3
  {
    hide Batched, Missing, Puts, IdsOf, ExistingIds;
  }

  lemma RowsArePartlySettled(store: Store, f: File, chunks: seq<Chunk>, put: seq<Chunk>, dropped: bool, after: Store)
    requires OwnRows(store) && Numbered(f.doc, chunks) && put <= Missing(store, f.doc, chunks)
    requires var rows := Upserted(store.chunks, f.doc, put);
             after.chunks == if dropped then rows - (ExistingIds(store, f.doc) - IdsOf(chunks)) else rows
    ensures OwnRows(after) && PartlySettled(store, f, chunks, put, dropped, after)
  {
    hide Missing, Upserted, IdsOf;
    PutRows(store, f, chunks, put);
    IdsOfNumbered(f.doc, chunks);
  }

  // ----- rows without gaps -----

  function TextIn(): Chunk -> string { (c: Chunk) => c.text }

  function TextsOf(chunks: seq<Chunk>): seq<string> { Mapped(TextIn(), chunks) }

  /** The rows of `doc` are numbered from 0 and have these texts. */
  ghost predicate Holds(store: Store, doc: DocId, texts: seq<string>) {
    forall id: ChunkId :: id.doc == doc ==>
      (id in store.chunks <==> id.index < |texts|) && (id in store.chunks ==> store.chunks[id].text == texts[id.index])
  }

  lemma ExactIsHolds(store: Store, doc: DocId, chunks: seq<Chunk>)
    ensures Exact(store, doc, chunks) <==> Holds(store, doc, TextsOf(chunks))
  {
  }

  /** The texts of a document after `n` steps of the ingest of another version: rows the new version
      is too short for are gone with the first step; what it has more comes in batch by batch. */
  function Grown(texts: seq<string>, now: seq<string>, size: nat, n: nat): seq<string> {
    if n == 0 then texts
    else if |now| <= |texts| then texts[..|now|]
    else texts + Front(now[|texts|..], size, n)
  }

  lemma MissingPastTheEnd(store: Store, f: File, chunks: seq<Chunk>, texts: seq<string>)
    requires OwnRows(store) && Numbered(f.doc, chunks) && Holds(store, f.doc, texts)
    ensures Missing(store, f.doc, chunks) == if |chunks| <= |texts| then [] else chunks[|texts|..]
  {
    hide Kept;
    var p := IdNotIn(ExistingIds(store, f.doc));
    var s := if |chunks| <= |texts| then |chunks| else |texts|;
    forall i | 0 <= i < |chunks|
      ensures p(chunks[i]) <==> i >= s
    {
      MissingIffPast(store, f, chunks, texts, i);
    }
    KeptFrom(p, chunks, s);
  }

  lemma MissingIffPast(store: Store, f: File, chunks: seq<Chunk>, texts: seq<string>, i: nat)
    requires OwnRows(store) && Numbered(f.doc, chunks) && Holds(store, f.doc, texts) && i < |chunks|
    ensures chunks[i].id in ExistingIds(store, f.doc) <==> i < |texts|
  {
    assert chunks[i].id == ChunkId(f.doc, i);
  }

  lemma KeptFrom(p: Chunk -> bool, chunks: seq<Chunk>, s: nat)
    requires s <= |chunks| && forall i :: 0 <= i < |chunks| ==> (p(chunks[i]) <==> i >= s)
    ensures Kept(p, chunks) == chunks[s..]
  {
    hide Kept;
    assert chunks == chunks[..s] + chunks[s..];
    KeptConcat(p, chunks[..s], chunks[s..]);
    KeptNone(p, chunks[..s]);
    KeptEach(p, chunks[s..]);
  }

  lemma {:induction false} KeptNone(p: Chunk -> bool, chunks: seq<Chunk>)
    requires forall i :: 0 <= i < |chunks| ==> !p(chunks[i])
    ensures Kept(p, chunks) == []
  {
    if chunks != [] {
      KeptNone(p, chunks[1..]);
    }
  }

  lemma {:induction false} KeptEach(p: Chunk -> bool, chunks: seq<Chunk>)
    requires forall i :: 0 <= i < |chunks| ==> p(chunks[i])
    ensures Kept(p, chunks) == chunks
  {
    if chunks != [] {
      KeptEach(p, chunks[1..]);
    }
  }

  lemma NoBatches(size: nat)
    requires size > 0
    ensures Batched([], size) == []
  {
  }

  /** The ids of some chunks from number `s` on. */
  lemma IdsOfTail(doc: DocId, chunks: seq<Chunk>, s: nat, put: seq<Chunk>)
    requires Numbered(doc, chunks) && s <= |chunks| && put <= chunks[s..]
    ensures forall id: ChunkId :: id in IdsOf(put) <==> id.doc == doc && s <= id.index < s + |put|
  {
    assert forall i :: 0 <= i < |put| ==> put[i] == chunks[s + i] && put[i].id == ChunkId(doc, s + i);
    forall id: ChunkId | id.doc == doc && s <= id.index < s + |put|
      ensures id in IdsOf(put)
    {
      assert put[id.index - s].id == id;
    }
  }

  lemma PartlySettledHolds(before: Store, f: File, chunks: seq<Chunk>, texts: seq<string>, size: nat,
      n: nat, after: Store)
    requires size > 0 && OwnRows(before) && Numbered(f.doc, chunks) && Holds(before, f.doc, texts)
    requires var missing := Missing(before, f.doc, chunks);
             PartlySettled(before, f, chunks, Front(missing, size, n), n > |Batched(missing, size)|, after)
    ensures Holds(after, f.doc, Grown(texts, TextsOf(chunks), size, n))
  {
    hide Missing, Batched, IdsOf, OwnRows, PartlySettled, Holds, Front, TextsOf, Grown, Numbered;
    MissingPastTheEnd(before, f, chunks, texts);
    if |chunks| <= |texts| {
      NoBatches(size);
      FrontIsPrefix<Chunk>([], size, n);
      CutHolds(before, f, chunks, texts, size, n, after);
    } else {
      if n == 0 {
        TakeNone(chunks[|texts|..], size);
      }
      AddedHolds(before, f, chunks, texts, size, n, n > |Batched(chunks[|texts|..], size)|, after);
    }
  }

  lemma CutHolds(before: Store, f: File, chunks: seq<Chunk>, texts: seq<string>, size: nat, n: nat, after: Store)
    requires |chunks| <= |texts| && Holds(before, f.doc, texts) && PartlySettled(before, f, chunks, [], n > 0, after)
    ensures Holds(after, f.doc, Grown(texts, TextsOf(chunks), size, n))
  {
    NoIds();
  }

  lemma AddedHolds(before: Store, f: File, chunks: seq<Chunk>, texts: seq<string>, size: nat, n: nat, dropped: bool,
      after: Store)
    requires |chunks| > |texts| && Holds(before, f.doc, texts) && Numbered(f.doc, chunks)
    requires PartlySettled(before, f, chunks, Front(chunks[|texts|..], size, n), dropped, after)
    ensures Holds(after, f.doc, Grown(texts, TextsOf(chunks), size, n))
  {
    hide Front, IdsOf, TextsOf;
    var put := Front(chunks[|texts|..], size, n);
    FrontIsPrefix(chunks[|texts|..], size, n);
    IdsOfTail(f.doc, chunks, |texts|, put);
    TextsOfTail(chunks, |texts|, size, n);
    TakeNone(chunks[|texts|..], size);
    var grown := texts + TextsOf(put);
    assert Grown(texts, TextsOf(chunks), size, n) == grown;
    assert Holds(after, f.doc, grown);
  }

  lemma TextsOfTail(chunks: seq<Chunk>, s: nat, size: nat, n: nat)
    requires s <= |chunks|
    ensures var put := Front(chunks[s..], size, n);
            && |TextsOf(put)| == |put| && |TextsOf(chunks)| == |chunks|
            && Front(TextsOf(chunks)[s..], size, n) == TextsOf(put)
            && forall i :: 0 <= i < |put| ==> TextsOf(put)[i] == chunks[s + i].text
  {
  }

  lemma NoIds()
    ensures IdsOf([]) == {}
  {
  }

  lemma OtherRowsStay(before: Store, f: File, chunks: seq<Chunk>, put: seq<Chunk>, dropped: bool, after: Store,
      doc: DocId, texts: seq<string>)
    requires PartlySettled(before, f, chunks, put, dropped, after) && doc != f.doc
    ensures Holds(after, doc, texts) <==> Holds(before, doc, texts)
  {
  }
}
