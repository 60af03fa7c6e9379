/** services/rag/bm25.py: the sparse index, with its lazily built and invalidated scorer. */
module Bm25 {
  import opened Wrappers
  import opened Aggregates
  import opened Sorting
  import opened Chunking

  datatype Entry = Entry(project: string, text: string)

  /** The persisted part. `order` is the insertion order of the dictionary `entries`. */
  datatype Index = Index(order: seq<ChunkId>, entries: map<ChunkId, Entry>, docs: map<DocId, set<ChunkId>>)

  const EMPTY := Index([], map[], map[])

  /** No key twice in the order, and every key in it. */
  ghost predicate WellOrdered(index: Index) {
    Distinct(index.order) && forall id :: id in index.entries <==> id in index.order
  }

  function NotIn(ids: set<ChunkId>): ChunkId -> bool { (id: ChunkId) => id !in ids }

  /** The dictionary without `ids`. */
  function Removed(index: Index, ids: set<ChunkId>): Index {
    index.(order := Kept(NotIn(ids), index.order), entries := index.entries - ids)
  }

  /** `entries[id] = entry`: an old key keeps its place, a new one goes last. */
  function Put(index: Index, id: ChunkId, entry: Entry): Index {
    index.(order := if id in index.entries then index.order else index.order + [id],
      entries := index.entries[id := entry])
  }

  function PutAll(index: Index, chunks: seq<Chunk>): Index {
    if chunks == [] then index
    else
      var last := chunks[|chunks| - 1];
      Put(PutAll(index, chunks[..|chunks| - 1]), last.id, Entry(last.project, last.text))
  }

  function IdsOf(chunks: seq<Chunk>): set<ChunkId> { set i | 0 <= i < |chunks| :: chunks[i].id }

  function OldIds(index: Index, doc: DocId): set<ChunkId> { if doc in index.docs then index.docs[doc] else {} }

  /** `replace_chunks`. */
  function Replaced(index: Index, doc: DocId, chunks: seq<Chunk>): Index {
    PutAll(Removed(index, OldIds(index, doc)), chunks).(docs := index.docs[doc := IdsOf(chunks)])
  }

  // ----- searching -----

  /** The score of document number `i` of a corpus; `rank_bm25` itself is not modelled. */
  type Okapi = (seq<string>, string, nat) -> real

  type Hit = (ChunkId, real)

  function Higher(): Before<Hit> { (a: Hit, b: Hit) => a.1 > b.1 }

  function TextOf(entries: map<ChunkId, Entry>): ChunkId -> string {
    (id: ChunkId) => if id in entries then entries[id].text else ""
  }

  function CorpusOf(index: Index): seq<string> { Mapped(TextOf(index.entries), index.order) }

  predicate Wanted(index: Index, id: ChunkId, project: Option<string>) {
    project.None? || (id in index.entries && index.entries[id].project == project.value)
  }

  /** The scored chunks of the project, in insertion order. */
  function Hits(index: Index, okapi: Okapi, query: string, project: Option<string>, n: nat): seq<Hit>
    requires n <= |index.order|
  {
    if n == 0 then []
    else
      var id := index.order[n - 1];
      Hits(index, okapi, query, project, n - 1)
      + if Wanted(index, id, project) then [(id, okapi(CorpusOf(index), query, n - 1))] else []
  }

  /** A search through a scorer built from the entries as they are now. */
  function SearchOver(index: Index, okapi: Okapi, query: string, k: nat, project: Option<string>): seq<Hit> {
    Take(Sort(Higher(), Hits(index, okapi, query, project, |index.order|)), k)
  }

  class BM25Index {
    const okapi: Okapi
    var order: seq<ChunkId>
    var entries: map<ChunkId, Entry>
    var docs: map<DocId, set<ChunkId>>
    /** The corpus the cached scorer was built from, if there is one. */
    var scorer: Option<seq<string>>
    var chunkIds: seq<ChunkId>

    function Contents(): Index
      reads this
    {
      Index(order, entries, docs)
    }

    /** A cached scorer is the one that would be built now. */
    ghost predicate Valid()
      reads this
    {
      && WellOrdered(Contents())
      && (scorer.Some? ==> order != [] && chunkIds == order && scorer.value == CorpusOf(Contents()))
    }

    /** `load`: a missing file is an empty index. */
    constructor Load(saved: Option<Index>, rank: Okapi)
      requires saved.Some? ==> WellOrdered(saved.value)
      ensures Valid() && okapi == rank && Contents() == if saved.None? then EMPTY else saved.value
    {
      okapi := rank;
      order := if saved.None? then [] else saved.value.order;
      entries := if saved.None? then map[] else saved.value.entries;
      docs := if saved.None? then map[] else saved.value.docs;
      scorer, chunkIds := None, [];
    }

    method Save() returns (saved: Index)
      ensures saved == Contents()
    {
      saved := Index(order, entries, docs);
    }

    method ReplaceChunks(doc: DocId, chunks: seq<Chunk>)
      requires Valid()
      modifies this
      ensures Valid() && Contents() == Replaced(old(Contents()), doc, chunks)
    {
      hide WellOrdered, Removed, PutAll, IdsOf, CorpusOf;
      ghost var before := Contents();
      var stale := if doc in docs then docs[doc] else {};
      RemoveNothing(before);
      RemovalKeepsOrder(before, stale);
      var remaining, gone := stale, {};
      while remaining != {}
        invariant gone + remaining == stale && Contents() == Removed(before, gone) && docs == before.docs
        decreases |remaining|
      {
        var id :| id in remaining;
        RemoveOneMore(before, gone, id);
        order := Kept(NotIn({id}), order);
        entries := entries - {id};
        remaining, gone := remaining - {id}, gone + {id};
      }
      assert gone == stale;
      PutNothing(Removed(before, stale));
      var newIds: set<ChunkId> := {};
      for i := 0 to |chunks|
        invariant Contents() == PutAll(Removed(before, stale), chunks[..i]) && WellOrdered(Contents())
        invariant newIds == IdsOf(chunks[..i]) && docs == before.docs
      {
        PutOneMore(Removed(before, stale), chunks, i);
        PutKeepsOrder(Contents(), chunks[i].id, Entry(chunks[i].project, chunks[i].text));
        if chunks[i].id !in entries {
          order := order + [chunks[i].id];
        }
        entries := entries[chunks[i].id := Entry(chunks[i].project, chunks[i].text)];
        newIds := newIds + {chunks[i].id};
      }
      assert chunks[..|chunks|] == chunks;
      OrderIgnoresDocs(Contents(), docs[doc := newIds]);
      docs := docs[doc := newIds];
      scorer := None;
    }

    /** Rebuilds only what a replacement has invalidated. */
    method EnsureBuilt()
      requires Valid()
      modifies this`scorer, this`chunkIds
      ensures Valid() && (scorer.Some? <==> order != [])
    {
      hide WellOrdered, CorpusOf;
      if scorer.Some? || order == [] {
        return;
      }
      chunkIds := order;
      scorer := Some(CorpusOf(Contents()));
    }

    /** Whatever was searched and replaced before, a search through the cached scorer finds what a
        rebuilt index would, ties included; and it changes no entry. */
    method Search(query: string, k: nat, project: Option<string>) returns (hits: seq<Hit>)
      requires Valid()
      modifies this`scorer, this`chunkIds
      ensures Valid() && Contents() == old(Contents())
      ensures hits == SearchOver(Contents(), okapi, query, k, project)
    {
      hide WellOrdered, CorpusOf, Sort;
      EnsureBuilt();
      if scorer.None? {
        SortNothing();
        return [];
      }
      var pairs := [];
      for i := 0 to |chunkIds|
        invariant pairs == Hits(Contents(), okapi, query, project, i)
      {
        if Wanted(Contents(), chunkIds[i], project) {
          pairs := pairs + [(chunkIds[i], okapi(scorer.value, query, i))];
        }
      }
      hits := Take(Sort(Higher(), pairs), k);
    }
  }

  lemma SortNothing()
    ensures Sort(Higher(), []) == []
  {
  }

  // ----- dictionary facts -----

  lemma {:induction false} KeepAll(order: seq<ChunkId>)
    ensures Kept(NotIn({}), order) == order
  {
    if order != [] {
      KeepAll(order[1..]);
    }
  }

  lemma RemoveNothing(index: Index)
    ensures Removed(index, {}) == index
  {
    KeepAll(index.order);
    assert index.entries - {} == index.entries;
  }

  lemma {:induction false} KeepTwice(ids: set<ChunkId>, id: ChunkId, order: seq<ChunkId>)
    ensures Kept(NotIn({id}), Kept(NotIn(ids), order)) == Kept(NotIn(ids + {id}), order)
  {
    if order != [] {
      KeepTwice(ids, id, order[1..]);
      KeptConcat(NotIn({id}), if NotIn(ids)(order[0]) then [order[0]] else [], Kept(NotIn(ids), order[1..]));
      assert [order[0]][1..] == [];
      assert Kept(NotIn({id}), [order[0]]) == if order[0] != id then [order[0]] else [] by {
        assert Kept(NotIn({id}), [order[0]][1..]) == [];
      }
    }
  }

  lemma RemoveOneMore(index: Index, ids: set<ChunkId>, id: ChunkId)
    ensures var removed := Removed(index, ids);
            Removed(index, ids + {id})
              == removed.(order := Kept(NotIn({id}), removed.order), entries := removed.entries - {id})
  {
    KeepTwice(ids, id, index.order);
    assert index.entries - (ids + {id}) == index.entries - ids - {id};
  }

  lemma {:induction false} KeptIsDistinct(ids: set<ChunkId>, order: seq<ChunkId>)
    requires Distinct(order)
    ensures Distinct(Kept(NotIn(ids), order))
  {
    if order != [] {
      KeptIsDistinct(ids, order[1..]);
      KeptElements(NotIn(ids), order[1..], order[0]);
    }
  }

  lemma RemovalKeepsOrder(index: Index, ids: set<ChunkId>)
    requires WellOrdered(index)
    ensures WellOrdered(Removed(index, ids))
  {
    KeptIsDistinct(ids, index.order);
    forall id
      ensures id in index.entries - ids <==> id in Kept(NotIn(ids), index.order)
    {
      KeptElements(NotIn(ids), index.order, id);
    }
  }

  lemma PutKeepsOrder(index: Index, id: ChunkId, entry: Entry)
    requires WellOrdered(index)
    ensures WellOrdered(Put(index, id, entry))
  {
  }

  lemma {:induction false} PutAllKeepsOrder(index: Index, chunks: seq<Chunk>)
    requires WellOrdered(index)
    ensures WellOrdered(PutAll(index, chunks))
  {
    hide WellOrdered;
    if chunks != [] {
      var last := chunks[|chunks| - 1];
      PutAllKeepsOrder(index, chunks[..|chunks| - 1]);
      PutKeepsOrder(PutAll(index, chunks[..|chunks| - 1]), last.id, Entry(last.project, last.text));
    }
  }

  lemma PutNothing(index: Index)
    ensures PutAll(index, []) == index && IdsOf([]) == {}
  {
  }

  lemma PutOneMore(index: Index, chunks: seq<Chunk>, i: nat)
    requires i < |chunks|
    ensures chunks[..0] == []
    ensures PutAll(index, chunks[..i + 1])
            == Put(PutAll(index, chunks[..i]), chunks[i].id, Entry(chunks[i].project, chunks[i].text))
    ensures IdsOf(chunks[..i + 1]) == IdsOf(chunks[..i]) + {chunks[i].id}
  {
    assert chunks[..i + 1][..i] == chunks[..i];
    assert chunks[..i + 1] == chunks[..i] + [chunks[i]];
    forall id | id in IdsOf(chunks[..i]) + {chunks[i].id}
      ensures id in IdsOf(chunks[..i + 1])
    {
      if id in IdsOf(chunks[..i]) {
        var j :| 0 <= j < i && chunks[..i][j].id == id;
        assert chunks[..i + 1][j].id == id;
      } else {
        assert chunks[..i + 1][i].id == id;
      }
    }
  }

  lemma OrderIgnoresDocs(index: Index, docs: map<DocId, set<ChunkId>>)
    ensures WellOrdered(index) ==> WellOrdered(index.(docs := docs))
  {
  }

  // ----- what the entries are -----

  /** The entries are exactly the chunks that documents have. */
  ghost predicate UnionOfDocs(index: Index) {
    forall id :: id in index.entries <==> Owned(index.docs, id)
  }

  ghost predicate Owned(docs: map<DocId, set<ChunkId>>, id: ChunkId) {
    exists d :: d in docs && id in docs[d]
  }

  lemma {:induction false} PutAllKeys(index: Index, chunks: seq<Chunk>)
    ensures PutAll(index, chunks).entries.Keys == index.entries.Keys + IdsOf(chunks)
    ensures PutAll(index, chunks).docs == index.docs
  {
    if chunks == [] {
      PutNothing(index);
    } else {
      var n := |chunks| - 1;
      PutAllKeys(index, chunks[..n]);
      PutOneMore(index, chunks, n);
      assert chunks[..n + 1] == chunks;
    }
  }

  /** Replacing the chunks of one document takes an entry from another exactly when the two share a
      chunk id that the new version no longer has. */
  lemma ReplacementKeepsUnionIff(index: Index, doc: DocId, chunks: seq<Chunk>)
    requires UnionOfDocs(index)
    ensures UnionOfDocs(Replaced(index, doc, chunks))
       <==> forall d, id :: d in index.docs && d != doc && id in index.docs[d] && id in OldIds(index, doc) ==>
         id in IdsOf(chunks)
  {
    hide IdsOf, PutAll;
    var after := Replaced(index, doc, chunks);
    PutAllKeys(Removed(index, OldIds(index, doc)), chunks);
    assert after.entries.Keys == index.entries.Keys - OldIds(index, doc) + IdsOf(chunks);
    assert after.docs == index.docs[doc := IdsOf(chunks)];
    if UnionOfDocs(after) {
      forall d, id | d in index.docs && d != doc && id in index.docs[d] && id in OldIds(index, doc)
        ensures id in IdsOf(chunks)
      {
        assert d in after.docs && id in after.docs[d];
        assert Owned(after.docs, id);
      }
    }
    if forall d, id :: d in index.docs && d != doc && id in index.docs[d] && id in OldIds(index, doc) ==>
         id in IdsOf(chunks) {
      forall id
        ensures id in after.entries <==> Owned(after.docs, id)
      {
        ReplacedOwner(index, doc, IdsOf(chunks), id);
      }
    }
  }

  lemma ReplacedOwner(index: Index, doc: DocId, ids: set<ChunkId>, id: ChunkId)
    requires UnionOfDocs(index)
    requires forall d, x :: d in index.docs && d != doc && x in index.docs[d] && x in OldIds(index, doc) ==> x in ids
    ensures Owned(index.docs[doc := ids], id) <==> id in index.entries.Keys - OldIds(index, doc) + ids
  {
    var docs := index.docs[doc := ids];
    if Owned(docs, id) {
      var d :| d in docs && id in docs[d];
      if d != doc {
        assert d in index.docs && id in index.docs[d];
        assert Owned(index.docs, id);
      }
    }
    if id in ids {
      assert doc in docs && id in docs[doc];
    } else if id in index.entries && id !in OldIds(index, doc) {
      var d :| d in index.docs && id in index.docs[d];
      assert d != doc && d in docs && id in docs[d];
    }
  }

  // ----- any history -----

  datatype Op = Replace(doc: DocId, chunks: seq<Chunk>) | Search | SaveAndLoad

  function IndexAfter(ops: seq<Op>): Index {
    if ops == [] then EMPTY
    else
      var before := IndexAfter(ops[..|ops| - 1]);
      match ops[|ops| - 1]
      case Replace(doc, chunks) => Replaced(before, doc, chunks)
      case Search => before
      case SaveAndLoad => before
  }

  /** Every chunk is replaced under the document its id names. */
  ghost predicate OwnIds(ops: seq<Op>) {
    forall i, j :: 0 <= i < |ops| && ops[i].Replace? && 0 <= j < |ops[i].chunks| ==>
      ops[i].chunks[j].id.doc == ops[i].doc
  }

  ghost predicate DisjointDocs(index: Index) {
    forall d, id :: d in index.docs && id in index.docs[d] ==> id.doc == d
  }

  /** After any replacements, searches, saves and loads, when chunk ids belong to one document each:
      the entries are the disjoint union of what the documents have, in a well-formed order. */
  lemma {:induction false} EntriesAreDocuments(ops: seq<Op>)
    requires OwnIds(ops)
    ensures WellOrdered(IndexAfter(ops)) && UnionOfDocs(IndexAfter(ops)) && DisjointDocs(IndexAfter(ops))
  {
    if ops != [] {
      var n := |ops| - 1;
      assert OwnIds(ops[..n]) by {
        assert forall i :: 0 <= i < n ==> ops[..n][i] == ops[i];
      }
      EntriesAreDocuments(ops[..n]);
      if ops[n].Replace? {
        ReplacementKeepsAll(IndexAfter(ops[..n]), ops[n].doc, ops[n].chunks);
      }
    }
  }

  lemma ReplacementKeepsAll(index: Index, doc: DocId, chunks: seq<Chunk>)
    requires WellOrdered(index) && UnionOfDocs(index) && DisjointDocs(index)
    requires forall j :: 0 <= j < |chunks| ==> chunks[j].id.doc == doc
    ensures var after := Replaced(index, doc, chunks); WellOrdered(after) && UnionOfDocs(after) && DisjointDocs(after)
  {
    var removed := Removed(index, OldIds(index, doc));
    RemovalKeepsOrder(index, OldIds(index, doc));
    PutAllKeepsOrder(removed, chunks);
    OrderIgnoresDocs(PutAll(removed, chunks), index.docs[doc := IdsOf(chunks)]);
    assert forall id :: id in OldIds(index, doc) ==> id.doc == doc;
    ReplacementKeepsUnionIff(index, doc, chunks);
    PutAllKeys(removed, chunks);
  }

  /** What is returned is wanted, and in descending score. */
  lemma {:induction false} HitsAreWanted(index: Index, okapi: Okapi, query: string, project: Option<string>, n: nat,
      hit: Hit)
    requires n <= |index.order|
    ensures hit in Hits(index, okapi, query, project, n)
       <==> exists i ::
              && 0 <= i < n && hit == (index.order[i], okapi(CorpusOf(index), query, i))
              && Wanted(index, index.order[i], project)
  {
    hide CorpusOf, Wanted;
    if n > 0 {
      HitsAreWanted(index, okapi, query, project, n - 1, hit);
    }
  }

  lemma HigherIsWeak()
    ensures Weak(Higher())
  {
  }

  /** A search returns the best of the project's chunks: in descending score, none left out for a
      worse one, and equal scores in insertion order. */
  lemma SearchReturnsTheBest(index: Index, okapi: Okapi, query: string, k: nat, project: Option<string>, z: Hit)
    ensures var all := Hits(index, okapi, query, project, |index.order|);
            var ranked := Sort(Higher(), all);
            && SearchOver(index, okapi, query, k, project) == Take(ranked, k)
            && multiset(ranked) == multiset(all)
            && Sorting.Ordered(Higher(), ranked)
            && Kept(Tied(Higher(), z), ranked) == Kept(Tied(Higher(), z), all)
  {
    var all := Hits(index, okapi, query, project, |index.order|);
    HigherIsWeak();
    SortPermutes(Higher(), all);
    SortOrders(Higher(), all);
    SortIsStable(Higher(), all, z);
  }

  // ----- what the entries hold -----

  lemma {:induction false} PutAllHolds(index: Index, chunks: seq<Chunk>)
    requires forall i, j :: 0 <= i < j < |chunks| ==> chunks[i].id != chunks[j].id
    ensures var entries := PutAll(index, chunks).entries;
            && (forall i :: 0 <= i < |chunks| ==>
                  chunks[i].id in entries && entries[chunks[i].id] == Entry(chunks[i].project, chunks[i].text))
            && forall id :: id in index.entries && (forall i :: 0 <= i < |chunks| ==> chunks[i].id != id) ==>
                 id in entries && entries[id] == index.entries[id]
  {
    if chunks != [] {
      PutAllHolds(index, chunks[..|chunks| - 1]);
    }
  }

  /** After a replacement each new chunk has its own project and text, and every entry that is neither
      new nor an old one of the document has what it had. */
  lemma ReplacementHoldsTheChunks(index: Index, doc: DocId, chunks: seq<Chunk>)
    requires forall i, j :: 0 <= i < j < |chunks| ==> chunks[i].id != chunks[j].id
    ensures var entries := Replaced(index, doc, chunks).entries;
            && (forall i :: 0 <= i < |chunks| ==>
                  chunks[i].id in entries && entries[chunks[i].id] == Entry(chunks[i].project, chunks[i].text))
            && forall id :: id in index.entries && id !in OldIds(index, doc)
                            && (forall i :: 0 <= i < |chunks| ==> chunks[i].id != id) ==>
                 id in entries && entries[id] == index.entries[id]
  {
    hide PutAll;
    PutAllHolds(Removed(index, OldIds(index, doc)), chunks);
  }

  /** The corpus that is scored is the entries' texts, in the order of the entries. */
  lemma CorpusIsTheTexts(index: Index, i: nat)
    requires WellOrdered(index) && i < |index.order|
    ensures |CorpusOf(index)| == |index.order| && index.order[i] in index.entries
    ensures CorpusOf(index)[i] == index.entries[index.order[i]].text
  {
    assert index.order[i] in index.order;
  }
}
