/**
 * What the two SQLite-backed vector stores share: the table row, the scoring of every row
 * against the query embedding, and the results their searches return.
 */
module VectorSearch {
  import opened Wrappers
  import opened Documents
  import opened Similarity
  import opened Ranking

  /** One row of the `documents` table: content, metadata, and the stored embedding. */
  datatype Row = Row(content: string, metadata: Metadata, embedding: seq<real>)

  /** The document a row is read back as. */
  function RowDocument(row: Row): Document {
    Document(row.content, row.metadata)
  }

  /** The rows inserted for `documents`, one per document in order, each with its embedding. */
  function RowsOf(documents: seq<Document>, embed: string -> seq<real>): (r: seq<Row>)
    ensures |r| == |documents|
    ensures forall i :: 0 <= i < |r| ==>
              RowDocument(r[i]) == documents[i] && r[i].embedding == embed(documents[i].pageContent)
  {
    if documents == [] then []
    else
      var front := documents[..|documents| - 1];
      var d := documents[|documents| - 1];
      RowsOf(front, embed) + [Row(d.pageContent, d.metadata, embed(d.pageContent))]
  }

  /** Every row with its cosine score against `query`, in table order. */
  function ScoreAll(rows: seq<Row>, query: seq<real>, ratio: (real, real, real) -> real)
    : (r: seq<Scored<Document>>)
    ensures |r| == |rows|
    ensures forall i :: 0 <= i < |r| ==>
              r[i] == Scored(RowDocument(rows[i]), Cosine(query, rows[i].embedding, ratio))
  {
    if rows == [] then []
    else
      var row := rows[|rows| - 1];
      ScoreAll(rows[..|rows| - 1], query, ratio) + [Scored(RowDocument(row), Cosine(query, row.embedding, ratio))]
  }

  /** Scoring one more row appends its scored document. */
  lemma ScoreAllStep(rows: seq<Row>, i: nat, query: seq<real>, ratio: (real, real, real) -> real)
    requires i < |rows|
    ensures ScoreAll(rows[..i + 1], query, ratio)
            == ScoreAll(rows[..i], query, ratio) + [Scored(RowDocument(rows[i]), Cosine(query, rows[i].embedding, ratio))]
  {
    assert rows[..i + 1][..i] == rows[..i];
  }

  /** `map((r) => r.doc)`. */
  function Items(s: seq<Scored<Document>>): (r: seq<Document>)
    ensures |r| == |s|
    ensures forall i :: 0 <= i < |s| ==> r[i] == s[i].item
  {
    if s == [] then [] else [s[0].item] + Items(s[1..])
  }

  /**
   * `similaritySearch`: nothing without a database, when embedding the query fails, or on an
   * empty table; otherwise the top `maxResults` rows meeting the threshold, best first
   * (`SearchResultCount` and `SearchResultRows` spell out what that yields).
   */
  function SearchResult(hasDb: bool, rows: seq<Row>, query: Option<seq<real>>, maxResults: int,
                        minScore: real, strict: bool, ratio: (real, real, real) -> real)
    : (r: seq<Document>)
    ensures !hasDb || query.None? || rows == [] ==> r == []
    ensures 0 <= maxResults ==> |r| <= maxResults
    ensures hasDb && query.Some? && rows != [] ==>
              r == Items(TopScoring(ScoreAll(rows, query.value, ratio), maxResults, minScore, strict))
  {
    if !hasDb || query.None? || rows == [] then []
    else Items(TopScoring(ScoreAll(rows, query.value, ratio), maxResults, minScore, strict))
  }

  /** Once the limit cuts in, exactly `maxResults` documents come back; otherwise every passing row. */
  lemma SearchResultCount(rows: seq<Row>, query: seq<real>, maxResults: int, minScore: real, strict: bool,
                          ratio: (real, real, real) -> real)
    requires 0 <= maxResults
    ensures var passing := |Filter(ScoreAll(rows, query, ratio), minScore, strict)|;
            |SearchResult(true, rows, Some(query), maxResults, minScore, strict, ratio)|
            == if maxResults < passing then maxResults else passing
  {
    if rows == [] {
      assert ScoreAll(rows, query, ratio) == [];
    }
  }

  /**
   * Every document returned is a row whose score meets the threshold, and the documents
   * come in non-increasing score order, no passing row left out scoring higher.
   */
  lemma SearchResultRows(rows: seq<Row>, query: seq<real>, maxResults: int, minScore: real, strict: bool,
                         ratio: (real, real, real) -> real)
    ensures var hits := TopScoring(ScoreAll(rows, query, ratio), maxResults, minScore, strict);
            && SearchResult(true, rows, Some(query), maxResults, minScore, strict, ratio) == Items(hits)
            && SortedDesc(hits)
            && (forall i :: 0 <= i < |hits| ==>
                  exists j :: 0 <= j < |rows| && hits[i] == Scored(RowDocument(rows[j]), Cosine(query, rows[j].embedding, ratio))
                                              && Passes(hits[i].score, minScore, strict))
            && (forall i, j :: 0 <= i < |hits| && 0 <= j < |rows| &&
                               Passes(Cosine(query, rows[j].embedding, ratio), minScore, strict) &&
                               Scored(RowDocument(rows[j]), Cosine(query, rows[j].embedding, ratio)) !in hits
                               ==> hits[i].score >= Cosine(query, rows[j].embedding, ratio))
  {
    var scored := ScoreAll(rows, query, ratio);
    var hits := TopScoring(scored, maxResults, minScore, strict);
    assert SearchResult(true, rows, Some(query), maxResults, minScore, strict, ratio) == Items(hits) by {
      if rows == [] {
        assert scored == [];
      }
    }
    TopScoringMembers(scored, maxResults, minScore, strict);
    HitsAreRows(rows, query, ratio, hits, minScore, strict);
  }

  /** Hits drawn from the scored rows are scored rows; a passing row left out scores no higher. */
  lemma HitsAreRows(rows: seq<Row>, query: seq<real>, ratio: (real, real, real) -> real,
                    hits: seq<Scored<Document>>, minScore: real, strict: bool)
    requires forall i :: 0 <= i < |hits| ==> hits[i] in ScoreAll(rows, query, ratio)
    requires forall i, x :: 0 <= i < |hits| && x in ScoreAll(rows, query, ratio) &&
                           Passes(x.score, minScore, strict) && x !in hits
                           ==> hits[i].score >= x.score
    requires forall i :: 0 <= i < |hits| ==> Passes(hits[i].score, minScore, strict)
    ensures forall i :: 0 <= i < |hits| ==>
              exists j :: 0 <= j < |rows| && hits[i] == Scored(RowDocument(rows[j]), Cosine(query, rows[j].embedding, ratio))
                                          && Passes(hits[i].score, minScore, strict)
    ensures forall i, j :: 0 <= i < |hits| && 0 <= j < |rows| &&
                           Passes(Cosine(query, rows[j].embedding, ratio), minScore, strict) &&
                           Scored(RowDocument(rows[j]), Cosine(query, rows[j].embedding, ratio)) !in hits
                           ==> hits[i].score >= Cosine(query, rows[j].embedding, ratio)
  {
    var scored := ScoreAll(rows, query, ratio);
    forall i | 0 <= i < |hits|
      ensures exists j :: 0 <= j < |rows| && hits[i] == Scored(RowDocument(rows[j]), Cosine(query, rows[j].embedding, ratio))
                                          && Passes(hits[i].score, minScore, strict)
    {
      var j :| 0 <= j < |scored| && scored[j] == hits[i];
    }
    forall i, j | 0 <= i < |hits| && 0 <= j < |rows| &&
                  Passes(Cosine(query, rows[j].embedding, ratio), minScore, strict) &&
                  Scored(RowDocument(rows[j]), Cosine(query, rows[j].embedding, ratio)) !in hits
      ensures hits[i].score >= Cosine(query, rows[j].embedding, ratio)
    {
      assert scored[j] in scored;
    }
  }

  /**
   * `similaritySearchWithScore`: every row scored, best first, cut to `maxResults` with no
   * threshold; nothing without a database, on an embedding failure, or on an empty table
   * (`ScoredSearchResultBest` states which pairs these are).
   */
  function ScoredSearchResult(hasDb: bool, rows: seq<Row>, query: Option<seq<real>>, maxResults: int,
                              ratio: (real, real, real) -> real)
    : (r: seq<Scored<Document>>)
    ensures !hasDb || query.None? || rows == [] ==> r == []
    ensures hasDb && query.Some? && 0 <= maxResults ==>
              |r| == if maxResults < |rows| then maxResults else |rows|
    ensures hasDb && query.Some? && rows != [] && maxResults < 0 ==>
              |r| == if |rows| + maxResults < 0 then 0 else |rows| + maxResults
    ensures SortedDesc(r)
  {
    if !hasDb || query.None? || rows == [] then []
    else
      var sorted := SortDesc(ScoreAll(rows, query.value, ratio));
      var r := SliceTo(sorted, maxResults);
      SelectionCount(|rows|, sorted, r, maxResults);
      r
  }

  /** The pairs returned are scored rows, and no row left out scores higher than one returned. */
  lemma ScoredSearchResultBest(rows: seq<Row>, query: seq<real>, maxResults: int, ratio: (real, real, real) -> real)
    ensures var r := ScoredSearchResult(true, rows, Some(query), maxResults, ratio);
            && multiset(r) <= multiset(ScoreAll(rows, query, ratio))
            && forall i, x :: 0 <= i < |r| && x in multiset(ScoreAll(rows, query, ratio)) - multiset(r)
                              ==> r[i].score >= x.score
  {
    if rows != [] {
      var all := ScoreAll(rows, query, ratio);
      var sorted := SortDesc(all);
      var r := SliceTo(sorted, maxResults);
      assert r == ScoredSearchResult(true, rows, Some(query), maxResults, ratio);
      SliceOfSortedIsBest(all, sorted, r, maxResults);
    }
  }
}
