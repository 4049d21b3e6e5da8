/**
 * The vector store used by the chat service: the same `documents` table as the persistent
 * store, but searches keep only rows scoring strictly above the threshold (`>`), chunk
 * labels use `file_name ?? "unknown"`, and opening the database also loads the base
 * documents.
 */
module VectorStore {
  import opened Wrappers
  import opened Documents
  import opened Similarity
  import opened Ranking
  import opened VectorSearch

  /** The defaults of `similaritySearch(query, maxResults = 5, minScore = 0.75)`. */
  const DefaultMaxResults: int := 5
  const DefaultMinScore: real := 0.75

  /** The directory `initDatabase` loads from: `resources/docs/base` under the working directory. */
  function BaseDocsPath(cwd: string): string {
    JoinPath(cwd, "resources/docs/base")
  }

  /** The rows a load of `listing` adds: its chunks, labelled with `??`, when there are any. */
  function LoadedRows(docsPath: string, listing: Option<seq<FileEntry>>,
                      split: seq<Document> -> seq<Document>, embed: string -> seq<real>): (r: seq<Row>)
    ensures listing.None? ==> r == []
  {
    if listing.None? || LoadedDocuments(docsPath, listing.value) == [] then []
    else RowsOf(PrefixChunks(split(LoadedDocuments(docsPath, listing.value)), NullishLabel), embed)
  }

  class VectorStoreService {
    /** Whether `db` is open (not null). */
    var hasDb: bool
    /** The `documents` table, in insertion order. */
    var rows: seq<Row>

    constructor ()
      ensures !hasDb && rows == []
    {
      hasDb := false;
      rows := [];
    }

    /**
     * `initDatabase`: open the database file, whose table holds `stored`, and load the base
     * documents from `listing` into it; when opening fails (`stored` is None) fall back to a
     * fresh, empty in-memory table and load nothing.
     */
    method InitDatabase(stored: Option<seq<Row>>, cwd: string, listing: Option<seq<FileEntry>>,
                        split: seq<Document> -> seq<Document>, embed: string -> seq<real>)
      modifies this
      ensures hasDb
      ensures stored.None? ==> rows == []
      ensures stored.Some? ==> rows == stored.value + LoadedRows(BaseDocsPath(cwd), listing, split, embed)
    {
      match stored
      case Some(table) =>
        hasDb := true;
        rows := table;
        var _ := LoadDocumentsFromDirectory(BaseDocsPath(cwd), listing, split, embed);
      case None =>
        hasDb := true;
        rows := [];
    }

    /** `addDocuments`: one row per document, in order; nothing without a database or documents. */
    method AddDocuments(documents: seq<Document>, embed: string -> seq<real>)
      modifies this
      ensures rows == if !hasDb || documents == [] then old(rows) else old(rows) + RowsOf(documents, embed)
      ensures hasDb == old(hasDb)
    {
      if !hasDb || |documents| == 0 {
        return;
      }
      var i := 0;
      while i < |documents|
        invariant 0 <= i <= |documents|
        invariant rows == old(rows) + RowsOf(documents[..i], embed)
        invariant hasDb == old(hasDb)
      {
        var doc := documents[i];
        assert documents[..i + 1][..i] == documents[..i];
        rows := rows + [Row(doc.pageContent, doc.metadata, embed(doc.pageContent))];
        i := i + 1;
      }
      assert documents[..i] == documents;
    }

    /**
     * `loadDocumentsFromDirectory`: read the `.md` / `.txt` files of the listing (None when
     * the directory does not exist), split them, prefix every chunk with its
     * `file_name ?? "unknown"` label, store the chunks and return how many there were.
     */
    method LoadDocumentsFromDirectory(docsPath: string, listing: Option<seq<FileEntry>>,
                                      split: seq<Document> -> seq<Document>, embed: string -> seq<real>)
      returns (count: nat)
      modifies this
      ensures listing.None? || LoadedDocuments(docsPath, listing.value) == [] ==> count == 0
      ensures listing.Some? && LoadedDocuments(docsPath, listing.value) != [] ==>
                count == |split(LoadedDocuments(docsPath, listing.value))|
      ensures rows == if hasDb then old(rows) + LoadedRows(docsPath, listing, split, embed) else old(rows)
      ensures hasDb == old(hasDb)
    {
      if listing.None? {
        return 0;
      }
      var documents := LoadDocuments(docsPath, listing.value);
      if |documents| == 0 {
        return 0;
      }
      var splitDocs := split(documents);
      var transformedDocs := PrefixChunks(splitDocs, NullishLabel);
      AddDocuments(transformedDocs, embed);
      count := |transformedDocs|;
    }

    /**
     * `similaritySearch`: score every row, keep those with `score > minScore`, sort by
     * descending score and return the first `maxResults` documents.
     */
    method SimilaritySearch(queryEmbedding: Option<seq<real>>, maxResults: int, minScore: real,
                            ratio: (real, real, real) -> real)
      returns (docs: seq<Document>)
      ensures docs == SearchResult(hasDb, rows, queryEmbedding, maxResults, minScore, true, ratio)
    {
      if !hasDb {
        return [];
      }
      if queryEmbedding.None? {
        return [];
      }
      var query := queryEmbedding.value;
      if |rows| == 0 {
        return [];
      }
      var results: seq<Scored<Document>> := [];
      var i := 0;
      while i < |rows|
        invariant 0 <= i <= |rows|
        invariant results == Filter(ScoreAll(rows[..i], query, ratio), minScore, true)
      {
        var row := rows[i];
        ScoreAllStep(rows, i, query, ratio);
        var score := CosineSimilarity(query, row.embedding, ratio);
        if score > minScore {
          results := results + [Scored(RowDocument(row), score)];
        }
        i := i + 1;
      }
      assert rows[..i] == rows;
      var sorted := SortDesc(results);
      docs := Items(SliceTo(sorted, maxResults));
    }

    /** `similaritySearchWithScore`: every row with its score, best first, at most `maxResults`. */
    method SimilaritySearchWithScore(queryEmbedding: Option<seq<real>>, maxResults: int,
                                     ratio: (real, real, real) -> real)
      returns (pairs: seq<Scored<Document>>)
      ensures pairs == ScoredSearchResult(hasDb, rows, queryEmbedding, maxResults, ratio)
    {
      if !hasDb {
        return [];
      }
      if queryEmbedding.None? {
        return [];
      }
      var query := queryEmbedding.value;
      if |rows| == 0 {
        return [];
      }
      var results: seq<Scored<Document>> := [];
      var i := 0;
      while i < |rows|
        invariant 0 <= i <= |rows|
        invariant results == ScoreAll(rows[..i], query, ratio)
      {
        var row := rows[i];
        ScoreAllStep(rows, i, query, ratio);
        var score := CosineSimilarity(query, row.embedding, ratio);
        results := results + [Scored(RowDocument(row), score)];
        i := i + 1;
      }
      assert rows[..i] == rows;
      pairs := SliceTo(SortDesc(results), maxResults);
    }

    /** `clear`: empty the table (when there is a database). */
    method Clear()
      modifies this
      ensures rows == if hasDb then [] else old(rows)
      ensures hasDb == old(hasDb)
    {
      if !hasDb {
        return;
      }
      rows := [];
    }

    /** `getDocumentCount`: the number of rows, or 0 without a database. */
    method GetDocumentCount() returns (count: nat)
      ensures count == if hasDb then |rows| else 0
    {
      if !hasDb {
        return 0;
      }
      count := |rows|;
    }
  }
}
