/**
 * The persistent vector store: a `documents` table (here the sequence `rows`) behind an
 * optional database handle. Searches score every row and keep those at or above the
 * threshold (`>=`); chunk labels use `file_name || "unknown"`.
 */
module PersistentVectorStore {
  import opened Wrappers
  import opened Documents
  import opened Similarity
  import opened Ranking
  import opened VectorSearch

  /** The defaults of `similaritySearch(query, maxResults = 5, minScore = 0.75)`. */
  const DefaultMaxResults: int := 5
  const DefaultMinScore: real := 0.75

  class PersistentVectorStoreService {
    /** Whether `db` is open (not null). */
    var hasDb: bool
    /** The `documents` table, in insertion order. */
    var rows: seq<Row>
    var initialized: bool

    constructor ()
      ensures !hasDb && rows == [] && !initialized
    {
      hasDb := false;
      rows := [];
      initialized := false;
    }

    /**
     * `initDatabase`: open the database file, whose table holds `stored`; when that fails
     * (`stored` is None) fall back to a fresh in-memory table. Either way the store is open
     * and initialized.
     */
    method InitDatabase(stored: Option<seq<Row>>)
      modifies this
      ensures hasDb && initialized
      ensures rows == if stored.Some? then stored.value else []
    {
      match stored
      case Some(table) =>
        hasDb := true;
        rows := table;
        initialized := true;
      case None =>
        hasDb := true;
        rows := [];
        initialized := true;
    }

    /** `onModuleDestroy`: close the database. */
    method OnModuleDestroy()
      modifies this
      ensures !hasDb && rows == old(rows) && initialized == old(initialized)
    {
      hasDb := false;
    }

    /** `isInitialized`. */
    method IsInitialized() returns (r: bool)
      ensures r == initialized
    {
      r := initialized;
    }

    /** `addDocuments`: one row per document, in order; nothing without a database or documents. */
    method AddDocuments(documents: seq<Document>, embed: string -> seq<real>)
      modifies this
      ensures rows == if !hasDb || documents == [] then old(rows) else old(rows) + RowsOf(documents, embed)
      ensures hasDb == old(hasDb) && initialized == old(initialized)
    {
      if !hasDb || |documents| == 0 {
        return;
      }
      var i := 0;
      while i < |documents|
        invariant 0 <= i <= |documents|
        invariant rows == old(rows) + RowsOf(documents[..i], embed)
        invariant hasDb == old(hasDb) && initialized == old(initialized)
      {
        var doc := documents[i];
        assert documents[..i + 1][..i] == documents[..i];
        rows := rows + [Row(doc.pageContent, doc.metadata, embed(doc.pageContent))];
        i := i + 1;
      }
      assert documents[..i] == documents;
    }

    /**
     * `similaritySearch`: score every row, keep those with `score >= minScore`, sort by
     * descending score and return the first `maxResults` documents.
     */
    method SimilaritySearch(queryEmbedding: Option<seq<real>>, maxResults: int, minScore: real,
                            ratio: (real, real, real) -> real)
      returns (docs: seq<Document>)
      ensures docs == SearchResult(hasDb, rows, queryEmbedding, maxResults, minScore, false, ratio)
    {
      if !hasDb {
        return [];
      }
      if queryEmbedding.None? {
        return [];
      }
      var query := queryEmbedding.value;
      if |rows| == 0 {
        return [];
      }
      var results: seq<Scored<Document>> := [];
      var i := 0;
      while i < |rows|
        invariant 0 <= i <= |rows|
        invariant results == Filter(ScoreAll(rows[..i], query, ratio), minScore, false)
      {
        var row := rows[i];
        ScoreAllStep(rows, i, query, ratio);
        var score := CosineSimilarity(query, row.embedding, ratio);
        if score >= minScore {
          results := results + [Scored(RowDocument(row), score)];
        }
        i := i + 1;
      }
      assert rows[..i] == rows;
      var sorted := SortDesc(results);
      docs := Items(SliceTo(sorted, maxResults));
    }

    /** `similaritySearchWithScore`: every row with its score, best first, at most `maxResults`. */
    method SimilaritySearchWithScore(queryEmbedding: Option<seq<real>>, maxResults: int,
                                     ratio: (real, real, real) -> real)
      returns (pairs: seq<Scored<Document>>)
      ensures pairs == ScoredSearchResult(hasDb, rows, queryEmbedding, maxResults, ratio)
    {
      if !hasDb {
        return [];
      }
      if queryEmbedding.None? {
        return [];
      }
      var query := queryEmbedding.value;
      if |rows| == 0 {
        return [];
      }
      var results: seq<Scored<Document>> := [];
      var i := 0;
      while i < |rows|
        invariant 0 <= i <= |rows|
        invariant results == ScoreAll(rows[..i], query, ratio)
      {
        var row := rows[i];
        ScoreAllStep(rows, i, query, ratio);
        var score := CosineSimilarity(query, row.embedding, ratio);
        results := results + [Scored(RowDocument(row), score)];
        i := i + 1;
      }
      assert rows[..i] == rows;
      pairs := SliceTo(SortDesc(results), maxResults);
    }

    /** `clear`: empty the table (when there is a database). */
    method Clear()
      modifies this
      ensures rows == if hasDb then [] else old(rows)
      ensures hasDb == old(hasDb) && initialized == old(initialized)
    {
      if !hasDb {
        return;
      }
      rows := [];
    }

    /** `getDocumentCount`: the number of rows, or 0 without a database. */
    method GetDocumentCount() returns (count: nat)
      ensures count == if hasDb then |rows| else 0
    {
      if !hasDb {
        return 0;
      }
      count := |rows|;
    }

    /**
     * `loadDocumentsFromDirectory`: read the `.md` / `.txt` files of the listing (None when
     * the directory does not exist), split them with `split`, prefix every chunk with its
     * `file_name || "unknown"` label, store the chunks and return how many there were.
     */
    method LoadDocumentsFromDirectory(docsPath: string, listing: Option<seq<FileEntry>>,
                                      split: seq<Document> -> seq<Document>, embed: string -> seq<real>)
      returns (count: nat)
      modifies this
      ensures listing.None? || LoadedDocuments(docsPath, listing.value) == [] ==>
                count == 0 && rows == old(rows)
      ensures listing.Some? && LoadedDocuments(docsPath, listing.value) != [] ==>
                var chunks := PrefixChunks(split(LoadedDocuments(docsPath, listing.value)), OrLabel);
                && count == |chunks|
                && rows == if !hasDb || chunks == [] then old(rows) else old(rows) + RowsOf(chunks, embed)
      ensures hasDb == old(hasDb) && initialized == old(initialized)
    {
      if listing.None? {
        return 0;
      }
      var documents := LoadDocuments(docsPath, listing.value);
      if |documents| == 0 {
        return 0;
      }
      var splitDocs := split(documents);
      var transformedDocs := PrefixChunks(splitDocs, OrLabel);
      AddDocuments(transformedDocs, embed);
      count := |transformedDocs|;
    }
  }
}
