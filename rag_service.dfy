/**
 * The retrieval service over an in-memory vector store. The store is the list of indexed
 * chunks; its similarity search scores every chunk (the score function stands for the
 * embedding comparison), sorts best first and cuts to `k`. `retrieve` then applies the
 * threshold to those top `k` hits.
 */
module Rag {
  import opened Wrappers
  import opened Documents
  import opened Ranking
  import opened VectorSearch

  /** The defaults of `retrieve(query, maxResults = 5, minScore = 0.75)`. */
  const DefaultMaxResults: int := 5
  const DefaultMinScore: real := 0.75

  /** Every stored chunk with its score, in store order. */
  function ScoreDocs(docs: seq<Document>, score: Document -> real): (r: seq<Scored<Document>>)
    ensures |r| == |docs|
    ensures forall i :: 0 <= i < |r| ==> r[i] == Scored(docs[i], score(docs[i]))
  {
    if docs == [] then []
    else
      var d := docs[|docs| - 1];
      ScoreDocs(docs[..|docs| - 1], score) + [Scored(d, score(d))]
  }

  /** The store's hits, best first: every chunk scored and sorted by descending score. */
  function Ranked(docs: seq<Document>, score: Document -> real): (r: seq<Scored<Document>>)
    ensures SortedDesc(r)
    ensures multiset(r) == multiset(ScoreDocs(docs, score))
  {
    SortDesc(ScoreDocs(docs, score))
  }

  /**
   * `retrieve` on the scored hits: nothing without a store or when the search fails;
   * otherwise the top `maxResults` hits, filtered by `score >= minScore`.
   */
  function Retrieved(store: Option<seq<Document>>, fails: bool, maxResults: int, minScore: real,
                     score: Document -> real): (r: seq<Scored<Document>>)
    ensures store.None? || fails ==> r == []
    ensures 0 <= maxResults ==> |r| <= maxResults
    ensures forall i :: 0 <= i < |r| ==> r[i].score >= minScore
    ensures store.Some? && !fails ==>
              |r| <= |store.value| && r == Ranked(store.value, score)[..|r|]
  {
    if store.None? || fails then []
    else
      var sorted := Ranked(store.value, score);
      var top := SliceTo(sorted, maxResults);
      var p := PassingPrefix(top, minScore, false);
      assert top[..p] == sorted[..p];
      Filter(top, minScore, false)
  }

  /**
   * Filtering the top `k` hits gives the first `k` of the hits meeting the threshold:
   * because the hits are sorted, taking the top `k` first loses no qualifying hit that a
   * filter-then-cut would have returned.
   */
  lemma RetrieveFiltersTopK(store: seq<Document>, k: nat, minScore: real, score: Document -> real)
    ensures Retrieved(Some(store), false, k, minScore, score)
            == SliceTo(Filter(Ranked(store, score), minScore, false), k)
  {
    FilterSliceCommute(Ranked(store, score), k, minScore, false);
  }

  /** The chunks `initialize` indexes from a listing: None when there are no documents. */
  function IndexedChunks(docsPath: string, listing: Option<seq<FileEntry>>,
                         split: seq<Document> -> seq<Document>): (r: Option<seq<Document>>)
    ensures listing.None? ==> r.None?
    ensures r.Some? ==> r.value == PrefixChunks(split(LoadedDocuments(docsPath, listing.value)), SourceLabel)
  {
    if listing.None? || LoadedDocuments(docsPath, listing.value) == [] then None
    else Some(PrefixChunks(split(LoadedDocuments(docsPath, listing.value)), SourceLabel))
  }

  class RagService {
    /** The in-memory vector store's chunks, or None before a successful `initialize`. */
    var vectorStore: Option<seq<Document>>
    var initialized: bool

    constructor ()
      ensures vectorStore.None? && !initialized
    {
      vectorStore := None;
      initialized := false;
    }

    /** `loadDocuments`: the readable `.md` / `.txt` files; none when the directory is missing. */
    method ReadDocuments(docsPath: string, listing: Option<seq<FileEntry>>) returns (documents: seq<Document>)
      ensures listing.None? ==> documents == []
      ensures listing.Some? ==> documents == LoadedDocuments(docsPath, listing.value)
    {
      if listing.None? {
        return [];
      }
      documents := LoadDocuments(docsPath, listing.value);
    }

    /**
     * `initialize`: a second call does nothing. The first loads and splits the documents,
     * labels every chunk with the last segment of its source path, and builds the store;
     * `fails` stands for the store construction throwing. The flag is set on every path,
     * including no documents and failure, so initialization is never retried.
     */
    method Initialize(docsPath: string, listing: Option<seq<FileEntry>>,
                      split: seq<Document> -> seq<Document>, fails: bool)
      modifies this
      ensures initialized
      ensures old(initialized) ==> vectorStore == old(vectorStore)
      ensures !old(initialized) ==>
                vectorStore == if fails || IndexedChunks(docsPath, listing, split).None? then old(vectorStore)
                               else IndexedChunks(docsPath, listing, split)
    {
      if initialized {
        return;
      }
      var documents := ReadDocuments(docsPath, listing);
      if |documents| == 0 {
        initialized := true;
        return;
      }
      var splitDocs := split(documents);
      var transformedDocs := PrefixChunks(splitDocs, SourceLabel);
      if fails {
        initialized := true;
        return;
      }
      vectorStore := Some(transformedDocs);
      initialized := true;
    }

    /** `retrieve`: the documents of the top `maxResults` hits scoring at least `minScore`. */
    method Retrieve(maxResults: int, minScore: real, score: Document -> real, fails: bool)
      returns (docs: seq<Document>)
      ensures docs == Items(Retrieved(vectorStore, fails, maxResults, minScore, score))
    {
      if vectorStore.None? {
        return [];
      }
      if fails {
        return [];
      }
      var results := SliceTo(Ranked(vectorStore.value, score), maxResults);
      var filteredResults := Filter(results, minScore, false);
      docs := Items(filteredResults);
    }

    /** `addDocuments`: append to the store; nothing when there is no store. */
    method AddDocuments(documents: seq<Document>)
      modifies this
      ensures vectorStore == if old(vectorStore).None? then None else Some(old(vectorStore).value + documents)
      ensures initialized == old(initialized)
    {
      if vectorStore.None? {
        return;
      }
      vectorStore := Some(vectorStore.value + documents);
    }
  }
}
