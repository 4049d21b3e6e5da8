# ai-code assistant core, modelled in Dafny

This project models the request-handling core of the `ai-code` programming assistant, a
NestJS service with a small Java guardrail. It covers:

- the input guardrails that reject messages containing banned words:
  - the main TypeScript guardrail with its mutable banned-word set;
  - an alternate TypeScript guardrail;
  - the Java guardrail;
- the per-conversation chat memory, capped at the newest ten messages;
- the chat-model listener service, which sends request, response and error events to every
  registered listener and measures latency;
- the two SQLite-backed vector stores and the in-memory retrieval service;
- the structured-output (JSON report) extraction;
- the tool registry;
- the orchestrating AI service. Every entry point runs the guardrail first. The chat entry
  points bracket each model call with one request event and one response or error event.
  The streaming chat writes the exchange to memory only after the stream completes.

The external world becomes parameters:

- the model's reply, or the fragments of a stream followed by an optional failure;
- the directory listing (file names and contents);
- the text splitter and the embedder;
- `JSON.parse` and `JSON.stringify`;
- the final floating-point step of the cosine similarity;
- the current time and the random part of a request id.

Listener deliveries are recorded in a ghost log, so the contracts can state which events
reach which listener, in which order, and with what outcome.

One module per source service (`ChatMemory`, `InputGuardrail`, `SeparatorGuardrail`,
`JavaGuardrail`, `ChatModelListener`, `PersistentVectorStore`, `VectorStore`, `Rag`,
`StructuredOutput`, `ToolProvider`, `Ai`), plus shared modules:

- `Wrappers`;
- `Seqs`;
- `Text` (the ASCII `\w` class, lower-casing, and `String.prototype.split` by `\W+` / `\w+`);
- `Messages`;
- `Documents` (loading, chunk labels);
- `Similarity`;
- `Ranking` (stable descending sort, JavaScript `slice`, threshold filter);
- `VectorSearch`.

Services whose fields change are classes with `modifies` clauses. The source's loops are
methods with loop invariants. Each method is proved against a function of its inputs and
old state, and the properties are proved as lemmas about those functions.

## Model

| member | source | states |
|---|---|---|
| ChatMemory.Newest | ai-js/src/ai/memory/chat-memory.service.ts:8-34 | the history kept after a push has at most `MaxMessages` (10) entries: all of them when there are at most 10, otherwise exactly 10 |
| ChatMemory.NewestIsSuffix | ai-js/src/ai/memory/chat-memory.service.ts:27-31 | the kept entries are the newest ones, a suffix of the history in its original order |
| ChatMemory.NewestStep | ai-js/src/ai/memory/chat-memory.service.ts:20-34 | trimming after every push keeps the same messages as one trim of the whole history plus the new message |
| ChatMemory.Replay | ai-js/src/ai/memory/chat-memory.service.ts:20-34 | repeated `addMessage` calls on one conversation keep a capped history ending with the last message added |
| ChatMemory.ReplayIsNewest | ai-js/src/ai/memory/chat-memory.service.ts:20-34 | any sequence of appends leaves exactly the newest 10 of all messages appended, in order (by induction) |
| ChatMemory.NewestTwice | ai-js/src/ai/memory/chat-memory.service.ts:27-31 | trimming is idempotent |
| ChatMemory.ChatMemoryService.constructor | ai-js/src/ai/memory/chat-memory.service.ts:5-8 | the store starts empty and valid |
| ChatMemory.ChatMemoryService.GetHistory | ai-js/src/ai/memory/chat-memory.service.ts:13-15 | an unknown id has the empty history; every history has at most 10 messages |
| ChatMemory.ChatMemoryService.AddMessage | ai-js/src/ai/memory/chat-memory.service.ts:20-34 | the conversation becomes the newest 10 of its old history plus the message; a new id is appended to the key order; other conversations are unchanged; validity is kept |
| ChatMemory.ChatMemoryService.ClearHistory | ai-js/src/ai/memory/chat-memory.service.ts:39-42 | the id is removed from the store and from the key order, the other ids keeping their order; its history becomes empty; other histories are unchanged |
| ChatMemory.ChatMemoryService.GetAllMemoryIds | ai-js/src/ai/memory/chat-memory.service.ts:47-49 | exactly the stored ids, each once, in insertion order |
| Seqs.IndexOf | ai-js/src/ai/listener/chat-model-listener.service.ts:73 | `indexOf`: -1 exactly when absent, otherwise the first position holding the element |
| Seqs.RemoveFirst | ai-js/src/ai/listener/chat-model-listener.service.ts:72-77 | `splice(indexOf(x), 1)`: exactly the first occurrence of x is cut out, everything before and after it kept in order (multiset minus x); the list is unchanged when x is absent; a duplicate-free list stays duplicate-free and loses x |
| Seqs.RemoveAtKeepsDistinct | ai-js/src/ai/guardrail/safe-input.guardrail.ts:60-63 | deleting one position of a duplicate-free list keeps it duplicate-free and removes that element |
| Text.LowerChar | ai-js/src/ai/guardrail/safe-input.guardrail.ts:30 | lower-casing keeps a character's word class and leaves no upper-case letter |
| Text.Lower | ai-js/src/ai/guardrail/safe-input.guardrail.ts:30 | `toLowerCase` on ASCII letters: maps every character and keeps the length |
| Text.LowerConcat | ai-js/src/ai/guardrail/safe-input.guardrail.ts:30 | lower-casing distributes over concatenation |
| Text.LowerOfLowercase | ai-js/src/ai/guardrail/safe-input.guardrail.ts:30 | a string without upper-case letters is unchanged |
| Text.LowerIdempotent | ai-js/src/ai/guardrail/safe-input.guardrail.ts:30 | lower-casing twice equals lower-casing once |
| Text.PieceLen | ai-js/src/ai/guardrail/safe-input.guardrail.ts:33 | the separator-free prefix is maximal: it stops at the first separator |
| Text.RunLen | ai-js/src/ai/guardrail/safe-input.guardrail.ts:33 | one greedy regex match consumes a maximal separator run |
| Text.Split | ai-js/src/ai/guardrail/safe-input.guardrail.ts:33 | `split` yields at least one piece, and no piece contains a separator |
| Text.OnePiece | ai-js/src/ai/guardrail/safe-input.guardrail.ts:33 | a string without separators splits into itself alone |
| Text.WordIsPiece | ai-js/src/ai/guardrail/safe-input.guardrail.ts:33-37 | a non-empty word standing between separators or the string's ends is one of the pieces |
| Text.WordLeadsSplit | ai-js/src/ai/guardrail/safe-input.guardrail.ts:33 | a word followed by a separator or nothing is the first piece |
| Text.SkipFirstPiece | ai-js/src/ai/guardrail/safe-input.guardrail.ts:33 | splitting emits one piece and continues on a strictly shorter remainder |
| Text.SplitStep | ai-js/src/ai/guardrail/safe-input.guardrail.ts:33 | one step of the split: the first piece, then the split after its separator run |
| Text.FirstMember | ai-js/src/ai/guardrail/safe-input.guardrail.ts:36-46 | the early-return scan finds no token exactly when no token is banned; otherwise the first banned token |
| InputGuardrail.Tokens | ai-js/src/ai/guardrail/safe-input.guardrail.ts:30-33 | the tokens of the lower-cased input contain no non-word character |
| InputGuardrail.Verdict | ai-js/src/ai/guardrail/safe-input.guardrail.ts:28-47 | unsafe exactly when some token is banned; the reason names the first banned token; a safe result has no reason |
| InputGuardrail.VerdictIgnoresCase | ai-js/src/ai/guardrail/safe-input.guardrail.ts:30 | the verdict is case-insensitive |
| InputGuardrail.LowerKeepsNoSep | ai-js/src/ai/guardrail/safe-input.guardrail.ts:30-33 | lower-casing keeps a word a word |
| InputGuardrail.WholeWordFlagged | ai-js/src/ai/guardrail/safe-input.guardrail.ts:28-47 | a banned word on its own, in any letter case, makes the input unsafe |
| InputGuardrail.SingleTokenVerdict | ai-js/src/ai/guardrail/safe-input.guardrail.ts:28-47 | an input without non-word characters is unsafe exactly when its lower-case form is banned |
| InputGuardrail.SubstringNotFlagged | ai-js/src/ai/guardrail/safe-input.guardrail.ts:9 | "skilled" contains "kill" but passes the default set: matching is by whole token |
| InputGuardrail.SafeInputGuardrail.Banned | ai-js/src/ai/guardrail/safe-input.guardrail.ts:16-23 | the banned set has exactly the words of the ordered word list |
| InputGuardrail.SafeInputGuardrail.constructor | ai-js/src/ai/guardrail/safe-input.guardrail.ts:9-23 | a fresh guardrail bans exactly "kill" and "evil" |
| InputGuardrail.SafeInputGuardrail.Validate | ai-js/src/ai/guardrail/safe-input.guardrail.ts:28-47 | the token loop returns the verdict for the current banned set |
| InputGuardrail.SafeInputGuardrail.AddSensitiveWord | ai-js/src/ai/guardrail/safe-input.guardrail.ts:52-55 | the lower-cased word joins the set once, at the end of the insertion order |
| InputGuardrail.SafeInputGuardrail.RemoveSensitiveWord | ai-js/src/ai/guardrail/safe-input.guardrail.ts:60-63 | the lower-cased word leaves the set; the order of the rest is kept |
| InputGuardrail.SafeInputGuardrail.GetSensitiveWords | ai-js/src/ai/guardrail/safe-input.guardrail.ts:68-70 | every banned word, each once, in insertion order |
| SeparatorGuardrail.Pieces | ai-js/src/ai/guardrail/safe-input-guardrail.ts:14-17 | splitting on `\w+` yields pieces with no word character |
| SeparatorGuardrail.Failures | ai-js/src/ai/guardrail/safe-input-guardrail.ts:18-23 | one failure message exactly for each banned piece |
| SeparatorGuardrail.NoFailuresWithoutSeparatorWords | ai-js/src/ai/guardrail/safe-input-guardrail.ts:11-23 | pieces without word characters never match words that have one |
| SeparatorGuardrail.FailuresAlwaysEmpty | ai-js/src/ai/guardrail/safe-input-guardrail.ts:11-24 | as written, `failures` is empty for every input |
| SeparatorGuardrail.BannedWordPassesAsWritten | ai-js/src/ai/guardrail/safe-input-guardrail.ts:13-25 | a banned word sent alone passes as written but is rejected by the intended guardrail |
| SeparatorGuardrail.IntendedValidate | ai-js/src/ai/guardrail/safe-input-guardrail.ts:13-25 | corrected: unsafe exactly when there is a failure |
| SeparatorGuardrail.IntendedAgreesWithMain | ai-js/src/ai/guardrail/safe-input-guardrail.ts:13-25 | the corrected guardrail and the main guardrail agree on safety |
| SeparatorGuardrail.IntendedFlagsWholeWord | ai-js/src/ai/guardrail/safe-input-guardrail.ts:13-25 | corrected: a banned word on its own, in any letter case, is rejected |
| SeparatorGuardrail.SafeInputGuardrail.constructor | ai-js/src/ai/guardrail/safe-input-guardrail.ts:11 | the banned set is fixed |
| SeparatorGuardrail.SafeInputGuardrail.Validate | ai-js/src/ai/guardrail/safe-input-guardrail.ts:13-25 | the loop collects the failures of the `\w+` pieces; `safe` is always true |
| JavaGuardrail.DropTrailingEmpty | src/main/java/com/github/tianchenghang/ai/guardrail/SafeInputGuardrail.java:14 | Java's `split` drops trailing empty strings: the result is a prefix, and only empties are dropped |
| JavaGuardrail.JavaSplit | src/main/java/com/github/tianchenghang/ai/guardrail/SafeInputGuardrail.java:14 | the Java pieces have no non-word character |
| JavaGuardrail.Validate | src/main/java/com/github/tianchenghang/ai/guardrail/SafeInputGuardrail.java:12-20 | fatal exactly when some word is banned, with the message naming the first one |
| JavaGuardrail.FirstMemberIgnoresTrailingEmpty | src/main/java/com/github/tianchenghang/ai/guardrail/SafeInputGuardrail.java:14-19 | dropping trailing empty strings does not change the first banned word |
| JavaGuardrail.FirstMemberOfPrefix | src/main/java/com/github/tianchenghang/ai/guardrail/SafeInputGuardrail.java:15-19 | a prefix followed only by unbanned entries has the same first banned entry |
| JavaGuardrail.AgreesWithJsSplit | src/main/java/com/github/tianchenghang/ai/guardrail/SafeInputGuardrail.java:12-20 | the Java verdict equals the scan of the JavaScript-style split: the two splits never disagree on a verdict |
| JavaGuardrail.EmptyTextSucceeds | src/main/java/com/github/tianchenghang/ai/guardrail/SafeInputGuardrail.java:12-20 | the empty message succeeds |
| JavaGuardrail.ValidateIgnoresCase | src/main/java/com/github/tianchenghang/ai/guardrail/SafeInputGuardrail.java:13 | the verdict is case-insensitive |
| ChatModelListener.Listener.constructor | ai-js/src/ai/listener/chat-model-listener.service.ts:41-50 | a listener holds its three optional reactions |
| ChatModelListener.OutcomeOf | ai-js/src/ai/listener/chat-model-listener.service.ts:91-97 | an absent handler is skipped; a throwing handler is caught |
| ChatModelListener.Deliveries | ai-js/src/ai/listener/chat-model-listener.service.ts:91-97 | one delivery per listener, in registration order, each with its outcome |
| ChatModelListener.DeliveriesAppend | ai-js/src/ai/listener/chat-model-listener.service.ts:91-97 | delivering to two lists of listeners is delivering to each in turn |
| ChatModelListener.Decimal | ai-js/src/ai/listener/chat-model-listener.service.ts:178-180 | a non-empty string of decimal digits that spells `n`, with no leading zero |
| ChatModelListener.RequestId | ai-js/src/ai/listener/chat-model-listener.service.ts:178-180 | the id starts with `req_` and ends with the random part |
| ChatModelListener.Latency | ai-js/src/ai/listener/chat-model-listener.service.ts:109-110 | 0 without a start time or with a zero start time (JavaScript falsiness); otherwise now minus start |
| ChatModelListener.LatencyAfterRequest | ai-js/src/ai/listener/chat-model-listener.service.ts:84-110 | right after a request recorded at a non-zero time, the latency is the elapsed time |
| ChatModelListener.BracketRestoresStarts | ai-js/src/ai/listener/chat-model-listener.service.ts:84-111 | a request followed by its response leaves the start-time map as it was |
| ChatModelListener.ChatModelListenerService.constructor | ai-js/src/ai/listener/chat-model-listener.service.ts:57-60 | one default listener that reacts to all three events |
| ChatModelListener.ChatModelListenerService.AddListener | ai-js/src/ai/listener/chat-model-listener.service.ts:65-67 | appends the listener |
| ChatModelListener.ChatModelListenerService.RemoveListener | ai-js/src/ai/listener/chat-model-listener.service.ts:72-77 | removes the first occurrence only; no-op when absent |
| ChatModelListener.ChatModelListenerService.Dispatch | ai-js/src/ai/listener/chat-model-listener.service.ts:91-97 | the loop delivers the event to every listener in order; a throwing handler does not stop it |
| ChatModelListener.ChatModelListenerService.OnRequest | ai-js/src/ai/listener/chat-model-listener.service.ts:82-100 | records the start time under a fresh id and delivers the request event to every listener |
| ChatModelListener.ChatModelListenerService.OnResponse | ai-js/src/ai/listener/chat-model-listener.service.ts:105-126 | delivers the response with its latency and forgets the start time |
| ChatModelListener.ChatModelListenerService.OnError | ai-js/src/ai/listener/chat-model-listener.service.ts:131-149 | delivers the error and forgets the start time |
| Similarity.SumSquares | ai-js/src/ai/rag/persistent-vector-store.service.ts:351-354 | the squared norm is never negative |
| Similarity.ZeroVectorHasZeroNorm | ai-js/src/ai/rag/persistent-vector-store.service.ts:351-356 | a zero vector has a zero norm |
| Similarity.Cosine | ai-js/src/ai/rag/persistent-vector-store.service.ts:343-358 | 0 for vectors of different lengths or a zero vector; otherwise the ratio of the dot product to the norms |
| Similarity.CosineSimilarity | ai-js/src/ai/rag/persistent-vector-store.service.ts:343-358 | the accumulation loop computes `Cosine` |
| Ranking.InsertDesc | ai-js/src/ai/rag/persistent-vector-store.service.ts:285 | inserting into a descending list keeps it descending and adds exactly the new element |
| Ranking.SortDesc | ai-js/src/ai/rag/persistent-vector-store.service.ts:285 | `sort((a, b) => b.score - a.score)`: descending, and a permutation of its input |
| Ranking.Filter | ai-js/src/ai/rag/persistent-vector-store.service.ts:273 | every kept entry meets the threshold |
| Ranking.FilterKeepsPassing | ai-js/src/ai/rag/persistent-vector-store.service.ts:273 | the filter keeps every passing entry, as often as it occurs, and nothing else |
| Ranking.SliceTo | ai-js/src/ai/rag/persistent-vector-store.service.ts:286 | `slice(0, end)`: a prefix of length `min(end, n)`, or `n + end` for a negative end |
| Ranking.TopScoring | ai-js/src/ai/rag/persistent-vector-store.service.ts:266-286 | exactly `maxResults` hits when more pass (all of them otherwise; `slice` counting from the back for a negative limit), all passing, descending, drawn from the passing hits; no passing hit left out beats a returned one |
| Ranking.TopScoringMembers | ai-js/src/ai/rag/persistent-vector-store.service.ts:266-286 | every hit returned is an input entry, and no passing entry left out scores higher than a returned one |
| Ranking.SliceOfSortedIsBest | ai-js/src/ai/rag/persistent-vector-store.service.ts:330-331 | a leading slice of the sorted entries is drawn from them and outscores what it leaves out |
| Ranking.SortedPrefixIsBest | ai-js/src/ai/rag/persistent-vector-store.service.ts:285-286 | a prefix of a descending list scores at least as well as everything after it |
| Ranking.FilterSliceCommute | ai-js/src/ai/rag/rag.service.ts:163-171 | on a descending list, filtering the top k equals taking the top k of the filtered list |
| Ranking.PassingPrefix | ai-js/src/ai/rag/rag.service.ts:169-171 | on a descending list the passing entries form a prefix, and the filter returns exactly it |
| Documents.LoadedDocuments | ai-js/src/ai/rag/rag.service.ts:116-148 | every document comes from a readable `.md` / `.txt` entry, and every such entry is loaded |
| Documents.LoadDocuments | ai-js/src/ai/rag/rag.service.ts:116-148 | the loader loop computes `LoadedDocuments` |
| Documents.OrLabel | ai-js/src/ai/rag/persistent-vector-store.service.ts:199 | `file_name \|\| "unknown"`: the name, or "unknown" when it is missing or empty |
| Documents.NullishLabel | ai-js/src/ai/rag/vector-store.service.ts:167 | `file_name ?? "unknown"`: the name (even empty), or "unknown" when it is missing |
| Documents.LabelsDifferOnEmptyName | ai-js/src/ai/rag/vector-store.service.ts:167 | the `\|\|` and `??` labels differ exactly on an empty file name; on every file the stores actually load they agree, since loaded names come from directory entries (see Documents.SourceLabelOfLoaded) |
| Documents.LastSegment | ai-js/src/ai/rag/rag.service.ts:93 | `split("/").pop()`: the suffix after the last `/` |
| Documents.SourceLabel | ai-js/src/ai/rag/rag.service.ts:93 | the last path segment, or "unknown" when the source is missing or ends in `/`; never empty |
| Documents.LastSegmentOfJoin | ai-js/src/ai/rag/rag.service.ts:93 | the last segment of `dir/name` is `name` |
| Documents.SourceLabelOfLoaded | ai-js/src/ai/rag/rag.service.ts:93 | for a loaded file the path label and the `\|\|` label are both the file name |
| Documents.Prefixed | ai-js/src/ai/rag/rag.service.ts:95 | `${tag}\n${content}`: the tag, a newline, then the content, recoverable from it |
| Documents.PrefixChunks | ai-js/src/ai/rag/rag.service.ts:92-98 | same number and order of chunks; each keeps its metadata and gets its label in front |
| VectorSearch.RowsOf | ai-js/src/ai/rag/persistent-vector-store.service.ts:218-243 | one row per document, in order, each with its embedding |
| VectorSearch.ScoreAll | ai-js/src/ai/rag/persistent-vector-store.service.ts:266-276 | every row scored against the query, in table order |
| VectorSearch.ScoreAllStep | ai-js/src/ai/rag/persistent-vector-store.service.ts:266-276 | scoring one more row appends one scored document |
| VectorSearch.Items | ai-js/src/ai/rag/persistent-vector-store.service.ts:286 | `map((r) => r.doc)` keeps order and length |
| VectorSearch.SearchResult | ai-js/src/ai/rag/persistent-vector-store.service.ts:248-296 | empty without a database, when embedding the query fails, or on an empty table; otherwise the documents of the top-scoring passing rows, at most `maxResults` |
| VectorSearch.SearchResultCount | ai-js/src/ai/rag/persistent-vector-store.service.ts:285-286 | exactly `maxResults` documents when more rows pass the threshold, otherwise every passing row |
| VectorSearch.SearchResultRows | ai-js/src/ai/rag/persistent-vector-store.service.ts:269-286 | each document returned is a table row whose score meets the threshold, in non-increasing score order, and no passing row left out scores higher |
| VectorSearch.ScoredSearchResult | ai-js/src/ai/rag/persistent-vector-store.service.ts:301-338 | best first, exactly `min(maxResults, rows)` pairs (a negative limit counted from the back), with no threshold |
| VectorSearch.ScoredSearchResultBest | ai-js/src/ai/rag/persistent-vector-store.service.ts:317-331 | the pairs are scored rows, and no row left out scores higher than a returned one |
| PersistentVectorStore.PersistentVectorStoreService.constructor | ai-js/src/ai/rag/persistent-vector-store.service.ts:29-38 | no database, no rows, not initialized |
| PersistentVectorStore.PersistentVectorStoreService.InitDatabase | ai-js/src/ai/rag/persistent-vector-store.service.ts:102-152 | opens the stored table, or falls back to an empty in-memory table; initialized either way |
| PersistentVectorStore.PersistentVectorStoreService.OnModuleDestroy | ai-js/src/ai/rag/persistent-vector-store.service.ts:56-61 | closes the database and keeps the rows |
| PersistentVectorStore.PersistentVectorStoreService.IsInitialized | ai-js/src/ai/rag/persistent-vector-store.service.ts:380-382 | reports the flag |
| PersistentVectorStore.PersistentVectorStoreService.AddDocuments | ai-js/src/ai/rag/persistent-vector-store.service.ts:218-243 | appends one embedded row per document; nothing without a database or documents |
| PersistentVectorStore.PersistentVectorStoreService.SimilaritySearch | ai-js/src/ai/rag/persistent-vector-store.service.ts:248-296 | the scoring loop returns the top `maxResults` documents with `score >= minScore`, best first |
| PersistentVectorStore.PersistentVectorStoreService.SimilaritySearchWithScore | ai-js/src/ai/rag/persistent-vector-store.service.ts:301-338 | every row with its score, best first, at most `maxResults` |
| PersistentVectorStore.PersistentVectorStoreService.Clear | ai-js/src/ai/rag/persistent-vector-store.service.ts:363-367 | empties the table when there is a database |
| PersistentVectorStore.PersistentVectorStoreService.GetDocumentCount | ai-js/src/ai/rag/persistent-vector-store.service.ts:372-378 | the number of rows, or 0 without a database |
| PersistentVectorStore.PersistentVectorStoreService.LoadDocumentsFromDirectory | ai-js/src/ai/rag/persistent-vector-store.service.ts:157-213 | 0 for a missing directory or no documents; otherwise stores the `\|\|`-labelled chunks and returns how many (the embedder is taken to succeed; see "## Left out") |
| VectorStore.BaseDocsPath | ai-js/src/ai/rag/vector-store.service.ts:114-116 | the base documents live under `resources/docs/base` of the working directory |
| VectorStore.LoadedRows | ai-js/src/ai/rag/vector-store.service.ts:129-179 | no rows for a missing directory; otherwise the `??`-labelled chunks, embedded |
| VectorStore.VectorStoreService.constructor | ai-js/src/ai/rag/vector-store.service.ts:26-41 | no database and no rows |
| VectorStore.VectorStoreService.InitDatabase | ai-js/src/ai/rag/vector-store.service.ts:99-127 | on success the stored table plus the base documents; on failure an empty in-memory table |
| VectorStore.VectorStoreService.AddDocuments | ai-js/src/ai/rag/vector-store.service.ts:181-203 | appends one embedded row per document; nothing without a database or documents |
| VectorStore.VectorStoreService.LoadDocumentsFromDirectory | ai-js/src/ai/rag/vector-store.service.ts:129-179 | returns the number of chunks and stores their rows (the embedder is taken to succeed; see "## Left out") |
| VectorStore.VectorStoreService.SimilaritySearch | ai-js/src/ai/rag/vector-store.service.ts:206-244 | like the persistent store but with a strict threshold (`score > minScore`) |
| VectorStore.VectorStoreService.SimilaritySearchWithScore | ai-js/src/ai/rag/vector-store.service.ts:246-279 | every row with its score, best first, at most `maxResults` |
| VectorStore.VectorStoreService.Clear | ai-js/src/ai/rag/vector-store.service.ts:300-306 | empties the table when there is a database |
| VectorStore.VectorStoreService.GetDocumentCount | ai-js/src/ai/rag/vector-store.service.ts:308-316 | the number of rows, or 0 without a database |
| Rag.ScoreDocs | ai-js/src/ai/rag/rag.service.ts:163-166 | each stored chunk with its score, in store order |
| Rag.Ranked | ai-js/src/ai/rag/rag.service.ts:163-166 | the store's hits, best first, a permutation of the scored chunks |
| Rag.Retrieved | ai-js/src/ai/rag/rag.service.ts:153-181 | nothing without a store or on failure; at most `maxResults` hits, all at least `minScore`, forming a prefix of the ranked hits |
| Rag.RetrieveFiltersTopK | ai-js/src/ai/rag/rag.service.ts:163-171 | retrieve returns the first k of the ranked hits that meet the threshold |
| Rag.IndexedChunks | ai-js/src/ai/rag/rag.service.ts:69-104 | the chunks indexed from a listing, each labelled with its path's last segment |
| Rag.RagService.constructor | ai-js/src/ai/rag/rag.service.ts:13-19 | no store, not initialized |
| Rag.RagService.ReadDocuments | ai-js/src/ai/rag/rag.service.ts:116-148 | the readable document files; none for a missing directory |
| Rag.RagService.Initialize | ai-js/src/ai/rag/rag.service.ts:69-114 | a second call changes nothing; the flag is set on every path; the store is built only when there are documents and no failure |
| Rag.RagService.Retrieve | ai-js/src/ai/rag/rag.service.ts:153-181 | the documents of `Retrieved` |
| Rag.RagService.AddDocuments | ai-js/src/ai/rag/rag.service.ts:186-194 | appends to an existing store; no-op without one |
| StructuredOutput.FirstIndex | ai-js/src/ai/structured-output/structured-output.service.ts:65 | the first occurrence of a character, or None when absent |
| StructuredOutput.LastIndex | ai-js/src/ai/structured-output/structured-output.service.ts:65 | the last occurrence of a character, or None when absent |
| StructuredOutput.ExtractJson | ai-js/src/ai/structured-output/structured-output.service.ts:65-68 | `/\{[\s\S]*\}/`: no match exactly when no `{` precedes a `}`; a match starts with `{` and ends with `}` |
| StructuredOutput.ExtractFromProse | ai-js/src/ai/structured-output/structured-output.service.ts:65 | text around a JSON object without braces is stripped, and the object itself is returned |
| StructuredOutput.StringItems | ai-js/src/ai/structured-output/structured-output.service.ts:17-20 | an array of strings is read back exactly; any non-string item is rejected |
| StructuredOutput.ValidateReport | ai-js/src/ai/structured-output/structured-output.service.ts:17-20 | `ReportSchema.parse` accepts exactly objects with a string `name` and a string-array `suggestionList`, and reads back that name and those strings in order |
| StructuredOutput.ReportToJson | ai-js/src/ai/structured-output/structured-output.service.ts:9-12 | a report is an object with exactly the two fields |
| StructuredOutput.ValidateReportToJson | ai-js/src/ai/structured-output/structured-output.service.ts:9-20 | every report survives the schema round trip |
| StructuredOutput.ParseStructuredOutput | ai-js/src/ai/structured-output/structured-output.service.ts:90-119 | a model failure, a reply without JSON, text that does not parse and a value the schema rejects are each their own error; when every stage succeeds the result is the schema's value |
| StructuredOutput.ChatForReport | ai-js/src/ai/structured-output/structured-output.service.ts:35-85 | any failure yields the fixed fallback report; otherwise the validated report |
| StructuredOutput.ChatForReportReadsReport | ai-js/src/ai/structured-output/structured-output.service.ts:35-85 | a reply that embeds a report's JSON in prose gives back that report |
| StructuredOutput.ChatForReportWithoutJson | ai-js/src/ai/structured-output/structured-output.service.ts:65-84 | a reply without a `{ ... }` gives the fallback report |
| ToolProvider.NotFound | ai-js/src/ai/tools/tool-provider.service.ts:43-46 | the not-found error message |
| ToolProvider.Render | ai-js/src/ai/tools/tool-provider.service.ts:49-51 | a string result is returned as is; anything else is stringified |
| ToolProvider.ToolsOf | ai-js/src/ai/tools/tool-provider.service.ts:106-108 | the tools in registration order |
| ToolProvider.ToolProviderService.constructor | ai-js/src/ai/tools/tool-provider.service.ts:21-32 | the built-in code-question tool is registered |
| ToolProvider.ToolProviderService.RegisterTool | ai-js/src/ai/tools/tool-provider.service.ts:34-37 | the tool is set under its name; a new name is appended to the order, a re-registration keeps its place |
| ToolProvider.ToolProviderService.ExecuteTool | ai-js/src/ai/tools/tool-provider.service.ts:39-56 | an unknown name or a failing tool is an error; otherwise the rendered result |
| ToolProvider.ToolProviderService.GetAllTools | ai-js/src/ai/tools/tool-provider.service.ts:106-108 | every registered tool exactly once, in registration order |
| Ai.Rejection | ai-js/src/ai/ai.service.ts:71-73 | the rejection text is the prefix followed by the reason |
| Ai.ReportRejection | ai-js/src/ai/ai.service.ts:111-118 | the rejection report: "验证失败" with the reason, or the default text when the reason is missing or empty |
| Ai.PageContents | ai-js/src/ai/ai.service.ts:145-150 | the page contents in order |
| Ai.ContextBlock | ai-js/src/ai/ai.service.ts:145-150 | empty exactly when nothing was retrieved; otherwise starts with the header |
| Ai.ContextBlockAppend | ai-js/src/ai/ai.service.ts:145-150 | one more document adds the separator and its content at the end |
| Ai.SourceOf | ai-js/src/ai/ai.service.ts:223-225 | the source when non-empty, else the file name when non-empty, else "unknown" |
| Ai.Sources | ai-js/src/ai/ai.service.ts:223-225 | one source label per retrieved document, in order |
| Ai.Prompt | ai-js/src/ai/ai.service.ts:164-168 | system prompt plus context first, then the history unchanged, then the user message |
| Ai.NonEmpty | ai-js/src/ai/ai.service.ts:180-188 | exactly the non-empty fragments are passed on |
| Ai.NonEmptyStep | ai-js/src/ai/ai.service.ts:182-187 | one more fragment is passed on after the earlier ones exactly when it is non-empty |
| Ai.NonEmptyAppend | ai-js/src/ai/ai.service.ts:182-187 | the fragments passed on keep the stream's order and repetitions: those of the first part, then those of the rest |
| Ai.ConcatNonEmpty | ai-js/src/ai/ai.service.ts:180-188 | skipping empty fragments loses no text of the reply |
| Ai.StreamFragments | ai-js/src/ai/ai.service.ts:180-188 | the loop emits the non-empty fragments and accumulates the whole reply |
| Ai.Terminal | ai-js/src/ai/ai.service.ts:87-102 | a response event for a reply, an error event for a failure |
| Ai.Bracket | ai-js/src/ai/ai.service.ts:81-102 | one request event and one closing event per listener |
| Ai.AppendTwo | ai-js/src/ai/ai.service.ts:204-205 | saving the user message and then the reply keeps the newest 10 of the history plus both |
| Ai.AiService.constructor | ai-js/src/ai/ai.service.ts:35-45 | wires the collaborators; the prompt is empty until module init |
| Ai.AiService.OnModuleInit | ai-js/src/ai/ai.service.ts:47-63 | the prompt file's text, or the built-in prompt when it cannot be read; then retrieval is initialized: on a first call the store holds the labelled chunks unless reading or indexing fails, on later calls it is unchanged |
| Ai.AiService.CallModel | ai-js/src/ai/ai.service.ts:81-104 | exactly the bracket's events; the start-time entry is added and removed again |
| Ai.AiService.Close | ai-js/src/ai/ai.service.ts:87-103 | `onResponse` for a reply, `onError` for a failure |
| Ai.AiService.Chat | ai-js/src/ai/ai.service.ts:69-106 | rejected input gets the rejection text and sends no events; otherwise the reply, bracketed by one request event and one response or error event |
| Ai.AiService.ChatForReport | ai-js/src/ai/ai.service.ts:111-124 | the rejection report for rejected input; otherwise the structured-output report |
| Ai.AiService.SaveExchange | ai-js/src/ai/ai.service.ts:204-205 | the conversation becomes the newest 10 of its history plus the user message and the reply; a new id joins the end of the id order |
| Ai.AiService.StreamModel | ai-js/src/ai/ai.service.ts:170-201 | emits the non-empty fragments between one request event and one response (whole reply) or error event; the stream is taken to open (see "## Left out") |
| Ai.AiService.ChatStream | ai-js/src/ai/ai.service.ts:129-208 | rejected input yields only the rejection and changes neither memory (histories and id order) nor telemetry; otherwise the bracketed stream over the retrieval-augmented prompt, and memory is written only when the stream completes |
| Ai.AiService.AnswerStream | ai-js/src/ai/ai.service.ts:140-205 | the accepted path of the stream: the prompt, the bracketed stream, and the write-back (histories and id order) on completion; memory untouched on failure; without the nested tool call's events and its "Model does not support tools" exit (see "## Left out") |
| Ai.AiService.ChatWithRag | ai-js/src/ai/ai.service.ts:213-262 | rejected input gets the rejection and no sources; otherwise the reply with one source per retrieved document, bracketed by the events |
| Ai.AiService.AnswerWithRag | ai-js/src/ai/ai.service.ts:222-261 | the accepted path: retrieval, the context prompt, the bracketed call, the sources |
| Ai.AiService.ChatWithTools | ai-js/src/ai/ai.service.ts:267-280 | rejected input is rejected; otherwise the request goes on to the tool provider |
| Ai.AiService.ChatWithMcp | ai-js/src/ai/ai.service.ts:285-313 | rejected input gets the rejection text; otherwise the model's reply |
| Ai.AiService.AddChatModelListener | ai-js/src/ai/ai.service.ts:318-337 | appends one listener and sends no events |

## Left out

- Floating point: scores, norms and thresholds are mathematical reals. The final
  `dot / (sqrt(normA) * sqrt(normB))` is a parameter. Rounding, underflow and NaN are not
  modelled.
- Similarity.ZeroVectorHasZeroNorm: only the zero-vector direction is stated. Over floats,
  tiny components can also give a zero norm.
- I/O and asynchrony: file reads, directory listings, SQLite and the embedding and model
  services are parameters. Awaits, concurrency and cancellation are not modelled. In
  particular, the base-documents load in the vector store's `initDatabase` is not awaited in
  the source; the model completes it before `initDatabase` returns.
- The SQL statements, the JSON (de)serialisation of metadata and embeddings into table
  columns, and the SQL snippet files the vector store reads are not modelled; a row holds its
  values directly.
- Documents.JoinPath: `path.join` is modelled as `dir + "/" + name`, without normalisation of
  `..`, repeated or trailing slashes.
- Ranking.SortDesc: stability of JavaScript's `sort` is not proved; the contract states
  order and permutation only.
- The in-memory vector store's similarity search is modelled as score, stable sort and
  `slice`. Its library code is not part of this model.
- PersistentVectorStore.PersistentVectorStoreService.AddDocuments, VectorStore.VectorStoreService.AddDocuments,
  VectorStore.LoadedRows, VectorStore.VectorStoreService.InitDatabase, Rag.RagService.AddDocuments,
  PersistentVectorStore.PersistentVectorStoreService.LoadDocumentsFromDirectory,
  VectorStore.VectorStoreService.LoadDocumentsFromDirectory:
  an embedding call that throws (ai-js/src/ai/rag/persistent-vector-store.service.ts:222,
  ai-js/src/ai/rag/vector-store.service.ts:186) is not modelled; the embedder is a total function,
  so these members never fail on an embedding error.
- PersistentVectorStore.PersistentVectorStoreService.LoadDocumentsFromDirectory: the source awaits
  `addDocuments` (ai-js/src/ai/rag/persistent-vector-store.service.ts:207), so an embedder failure
  rejects the returned promise: no chunk count comes back and no row is inserted. The model
  always stores the rows and returns the chunk count.
- VectorStore.VectorStoreService.LoadDocumentsFromDirectory: the same gap. The source awaits
  `addDocuments` (ai-js/src/ai/rag/vector-store.service.ts:174), so an embedder failure rejects
  the returned promise and no chunk count comes back; the model always returns the chunk count.
- ChatModelListener.ChatModelListenerService.OnRequest, OnResponse: the clock is one parameter,
  read once per event. The source reads it separately for the request id
  (ai-js/src/ai/listener/chat-model-listener.service.ts:179), the start time (:84) and the
  event timestamp (:88), and for the latency (:110) and the response timestamp (:115), so
  readings that differ by a few milliseconds within one event are not modelled.
- Ranking.SliceTo: a non-integer `maxResults` is not modelled (the limit is an `int`).
- ChatModelListener.ChatModelListenerService.OnError: the error event does not carry the
  `messages` the callers attach. Listeners' own side effects (logging) are not modelled,
  only whether each handler is absent, returns or throws.
- Ai.AiService.ChatWithTools: the tool-calling conversation in `ToolProviderService.chatWithTools`
  is not modelled. Neither is that method's listener traffic, which passes its context as the
  request id and so never clears the start-time entry.
- Ai.AiService.ChatStream, Ai.AiService.AnswerStream, Ai.AiService.StreamModel: the nested `toolProviderService.chatWithTools` call made before the
  prompt is built is not modelled, and the contract describes a stream without it. In the
  source that call (ai-js/src/ai/tools/tool-provider.service.ts:58-104) sends one more request event to every
  listener, then a response or error event whose request id is the context object, so the
  latency is 0 and the start-time entry it recorded is never removed. When the chat model has
  no `bindTools` it throws "Model does not support tools", which ends `chatStream` before the
  prompt, the stream and the memory write. None of these events, that entry or that exit is
  in `ChatStream`'s `deliveries` and `requestStartTime` clauses. The stream is also assumed
  to open; a failure to open it, which happens outside the `try`, would leave the request
  without a closing event. StreamModel shares only this last gap; AnswerStream shares all of
  them, as the next two lines say.
- Ai.AiService.AnswerStream: this is the accepted path of `chatStream`, and it includes the nested
  `toolProviderService.chatWithTools` call (ai-js/src/ai/ai.service.ts:153-157). Its `deliveries`
  clause has only the stream's own request and closing events, without that call's request event
  and its closing event keyed by the context object. Its `requestStartTime` clause restores the
  map, without the entry that call leaves behind. Its memory write happens whenever the stream
  completes, without the "Model does not support tools" exit, which in the source throws before
  the stream and the memory write.
- Ai.AiService.StreamModel: the contract always closes the bracket with a response or an error
  event. In the source `streamingModel.stream(messages)` (ai-js/src/ai/ai.service.ts:178) is
  awaited outside the `try`, so a failure to open the stream rejects with the request event
  sent and no response or error event, and the start-time entry stays behind.
- Text.Lower: case mapping covers ASCII letters only. JavaScript's `toLowerCase` (and Java's)
  also maps other letters, some onto ASCII ones: the Kelvin sign U+212A lower-cases to `k`,
  so "\u212AILL" becomes "kill" and the source rejects it, while the model keeps U+212A,
  treats it as a separator and lets the input through. Text.LowerChar and every guardrail
  built on them share this limit.
- Ai.AiService.constructor: before `onModuleInit` the source's system prompt is `undefined`;
  the model starts from the empty string.
- `JSON.parse` and `JSON.stringify` are parameters. The zod library's behaviour beyond the
  report schema's two fields (unknown keys, coercions, error messages) is not modelled.
- Logging, configuration (model providers, API keys, embedding back-ends) and the HTTP
  controllers are not modelled.

## Findings

| source | as written | input that shows it | evidently intended | confidence | as-written member | corrected member |
|---|---|---|---|---|---|---|
| ai-js/src/ai/guardrail/safe-input-guardrail.ts:15-24 | splits the input on runs of word characters (`/\w+/`), so the pieces never contain a letter and no banned word is ever found; `safe` is initialised to true and never changed | any banned word sent on its own, e.g. `fuck` | split on runs of non-word characters (`/\W+/`) and report unsafe when any failure was collected | medium, not executed | SeparatorGuardrail.BannedWordPassesAsWritten | SeparatorGuardrail.IntendedFlagsWholeWord |
