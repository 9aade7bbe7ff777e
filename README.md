# finrag-analyst: the retrieval and ingestion core, in Dafny

This project models the core of finrag-analyst, a retrieval-augmented question
answering service over SEC filings (10-K and 10-Q), and proves properties of
that model.

Ingestion takes EDGAR full-submission bundles. It pulls out the primary
document, splits the parsed text into chunks, labels each chunk with its SEC
section, derives metadata from the filing's path, and stores the chunks with
their vectors in a vector index.

Answering a question has five steps:

1. Embed the question.
2. Search the index, optionally filtered by ticker, form type and filing year.
3. Rerank the candidates to five.
4. Build a numbered context and ask the chat model.
5. Estimate the cost, score lexical faithfulness and cite the chunks used.

Modules:

- `Wrappers`: `Option` and `Result`.
- `PyStr`: the Python `str` builtins the core uses, with their contracts. These are `strip`, `split()`, `split(".")`, `lower`, `replace`, `join` and slicing.
- `PyFormat`: `str(int)` and `f"{i:04d}"`, and reading their digits back.
- `Values`: payload values (`str` or `int`) and `dict.get`.
- `Config`: the SEC section table and the filing types.
- `VectorStore`: `search` and `upsert_chunks` of `src/vector_store.py`.
- `RagPipeline`: `_rerank`, `_build_context`, `_faithfulness_score` and `answer_question` of `src/rag_pipeline.py`.
- `Ingest`: the following functions of `src/ingest.py`:
  - `extract_primary_document`
  - `detect_section`
  - `extract_metadata`
  - `chunk_text`
  - `embed_and_store`

Every external service is a function parameter (an oracle). An oracle that
returns an `Option` answers `None` where the client raises; the upsert
oracle answers `false` instead. The oracles are:

- the query embedder;
- the index query;
- the reranker;
- the chat model;
- the semantic splitter;
- the batch embedder;
- the upsert;
- `uuid5`.

`answer_question` also returns the log of the calls it made to these
services. That log shows, for example, that an empty search result stops
before reranking and generation. The clock that `extract_metadata` reads is a
parameter too.

The scanner, the context builder, the faithfulness score (its vocabulary
loop), the section detector and the chunk loop update variables step by step
in the source. Each of them is a `method` with a loop. The filter builder
appends to a list under three conditions, with no loop; it is a `method` with
conditional appends. Each of these methods is proved equal to a specification
function, and the properties are lemmas about that function. `search` itself
makes one call and a projection, so it is a `method` without a loop.

## Model

| member | source | states |
|---|---|---|
| VectorStore.TruthyStr | src/vector_store.py:89-92 | Python truthiness of an optional string: false for `None` and for `""`. This is a specification predicate; `ConditionsFor` and `BuildConditions` use it. |
| VectorStore.TruthyInt | src/vector_store.py:93 | Python truthiness of an optional int: false for `None` and for 0, so `filing_year=0` adds no condition. This is a specification predicate. |
| VectorStore.Holds | src/vector_store.py:90 | A match condition holds when the payload has the key with exactly that value. This is a specification predicate for the index's filtering. |
| VectorStore.AllHold | src/vector_store.py:96 | A `must` list holds when every condition in it holds. This is a specification predicate. |
| VectorStore.Satisfies | src/vector_store.py:96-101 | No filter admits every payload; a filter admits the payloads meeting all its `must` conditions. `QueryFilter` and `BuildConditions` relate it to the arguments. |
| VectorStore.Constrains | src/vector_store.py:88-96 | The restriction the caller asks for: each truthy argument must be matched by the payload's field, the others are free. `BuildConditions` states that the built filter admits exactly these payloads. |
| VectorStore.BuildConditions | src/vector_store.py:88-94 | One condition per truthy argument, in the order ticker, form_type, filing_year. A payload satisfies them all exactly when it has each requested field with the requested value; unrequested fields are unconstrained. |
| VectorStore.ConditionsFor | src/vector_store.py:88-94 | One condition per truthy argument, in argument order. This is a specification function; `BuildConditions` is proved equal to it. |
| VectorStore.Append | src/vector_store.py:90-94 | Appending a condition adds its key at the end and adds its test as one more conjunct. |
| VectorStore.QueryFilter | src/vector_store.py:96 | No filter exactly when there are no conditions. A payload passes the filter exactly when it meets every condition. |
| VectorStore.ProjectHit | src/vector_store.py:106-111 | The text is the payload's `text` entry, or "" without one. The metadata is every other entry, unchanged. The score is the hit's score. |
| VectorStore.ProjectHits | src/vector_store.py:106-113 | One record per hit, in hit order. |
| VectorStore.Search | src/vector_store.py:74-113 | The index is asked with the query vector, `limit = top_k` and the filter. The filter is absent exactly when no argument is truthy, and it admits exactly the payloads that match the arguments. An index failure propagates; otherwise the hits are projected. |
| VectorStore.PointPayload | src/vector_store.py:62-66 | The keys are `chunk_id`, `text` and the metadata keys; a metadata entry wins over `chunk_id` or `text`. |
| VectorStore.UpsertPoints | src/vector_store.py:58-69 | One point per zipped chunk and vector, so as many as the shorter list. The id is `uuid5(namespace, chunk_id)`, so equal chunk ids give equal point ids. In the store, a re-ingested chunk would overwrite its earlier point; the model does not capture the store. |
| VectorStore.UpsertChunks | src/vector_store.py:51-71 | On success the count is the number of zipped pairs; a failing upsert propagates. |
| VectorStore.UpsertPayloadTextIsString | src/vector_store.py:62-66 | A stored payload's `text` is a string unless the metadata overrides it with a non-string. |
| VectorStore.SearchReadsBackUpsert | src/vector_store.py:58-69 | For metadata without a `text` key, reading back a stored point gives the chunk's text, its metadata plus `chunk_id`, and the hit's score. |
| RagPipeline.RerankRequestFor | src/rag_pipeline.py:48-54 | The request carries the query and the rerank model. It has one document per candidate, each the first 2000 characters of its text. `top_n` is `min(top_n, len(chunks))`. |
| RagPipeline.Select | src/rag_pipeline.py:55 | One chunk per result index, in the service's order. |
| RagPipeline.Usable | src/rag_pipeline.py:55-58 | A reply the pipeline keeps: the service answered and every index names a candidate. An index past the end raises `IndexError` inside the `try` and falls back. `Rerank` states both outcomes. |
| RagPipeline.Rerank | src/rag_pipeline.py:43-58 | No candidates gives no result. A failing service or an out-of-range index gives the first `top_n` candidates. Otherwise the result is the candidates the service named, in its order. |
| RagPipeline.RerankedAreCandidates | src/rag_pipeline.py:43-58 | Every reranked chunk is one of the candidates, unchanged. |
| RagPipeline.RerankIsSelection | src/rag_pipeline.py:55 | When the service names distinct indices, the result is a sub-multiset of the candidates (no duplicates are introduced). |
| RagPipeline.SelectIsSubMultiset | src/rag_pipeline.py:55 | Selecting by distinct in-range indices gives a sub-multiset. |
| RagPipeline.RerankLength | src/rag_pipeline.py:53-58 | When the service returns `top_n` results as requested, or fails, the result has `min(top_n, len(chunks))` chunks. |
| RagPipeline.FieldOrPlaceholder | src/rag_pipeline.py:66-68 | `m.get(key, '?')` as the f-string prints it: the rendered entry, or `?` without one. This is a specification function. |
| RagPipeline.Block | src/rag_pipeline.py:65-70 | One block: the header, a newline, then the chunk's stripped text. This is a specification function; `Blocks` and `ContextBlockAt` place it. |
| RagPipeline.Header | src/rag_pipeline.py:65-69 | The header `[i] ticker \| form_type filing_year \| section`, each missing field read as `?`. This is a specification function; `Blocks` states its place. |
| RagPipeline.Context | src/rag_pipeline.py:61-71 | The blocks joined by `\n\n---\n\n`. This is a specification function; `BuildContext` and `ContextBlockAt` state its properties. |
| RagPipeline.Blocks | src/rag_pipeline.py:63-70 | Block k is `[k+1] ticker \| form_type filing_year \| section`, then a newline, then the stripped text. Missing fields read `?`. |
| RagPipeline.BuildContext | src/rag_pipeline.py:61-71 | The loop's result is the blocks joined by `\n\n---\n\n`; it is empty for no chunks. |
| RagPipeline.ContextBlockAt | src/rag_pipeline.py:71 | Block k sits in the context between the earlier blocks and the later ones, each set off by exactly one separator. |
| RagPipeline.Vocabulary | src/rag_pipeline.py:78-80 | The union of the word sets of the lowercased chunk texts. This is a specification function; `VocabularyMembers` characterises its members and `GrowVocabulary` is proved equal to it. |
| RagPipeline.VocabularyMembers | src/rag_pipeline.py:78-80 | A word is in the context vocabulary exactly when it is a whitespace-separated word of some chunk's lowercased text. |
| RagPipeline.LongPieces | src/rag_pipeline.py:82 | Each kept sentence is a stripped piece of the answer longer than 20 characters, and every such piece is kept. There are at most as many sentences as pieces. |
| RagPipeline.LongPiecesConcat | src/rag_pipeline.py:82 | Filtering a concatenation filters each part in turn, which fixes the order and the number of the kept sentences. |
| RagPipeline.Sentences | src/rag_pipeline.py:82 | The answer's newlines become spaces, it is split on `.`, and the stripped pieces longer than 20 characters are kept. This is a specification function with no contract of its own; `LongPieces` and `SentencesHaveWords` state its properties. |
| RagPipeline.Supported | src/rag_pipeline.py:88-89 | A sentence is supported when its lowercased word set is non-empty (the walrus test) and at least 30% of it is in the vocabulary, compared as `10·overlap >= 3·words`. This is a specification predicate; `SupportedCount`, `SupportedCountIsCardinality` and `FullOverlapIsFaithful` use it. |
| RagPipeline.SupportedCount | src/rag_pipeline.py:86-90 | The count is at most the number of sentences. It equals that number exactly when every sentence is supported, and is 0 exactly when none is. |
| RagPipeline.SupportedCountIsCardinality | src/rag_pipeline.py:86-90 | The count equals the number of positions whose sentence is supported. |
| RagPipeline.Faithfulness | src/rag_pipeline.py:74-91 | The score: 1 for no chunks, a blank answer or no sentences, else supported sentences over all sentences. This is a specification function; `FaithfulnessRange` and `FullOverlapIsFaithful` state its properties. |
| RagPipeline.SentencesHaveWords | src/rag_pipeline.py:82-89 | Every kept sentence has at least one word, so the `words` guard never drops one and the ratio is defined. |
| RagPipeline.FaithfulnessRange | src/rag_pipeline.py:74-91 | The score is in [0, 1]. It is 1 exactly when there are no chunks, the answer is blank, or every sentence is supported. It is 0 exactly when there are sentences and none is supported. |
| RagPipeline.FullOverlapIsFaithful | src/rag_pipeline.py:86-91 | An answer whose every sentence draws all its words from the context scores 1. |
| RagPipeline.GrowVocabulary | src/rag_pipeline.py:78-80 | The loop's set equals the context vocabulary: the union of the lowercased words of every chunk text. |
| RagPipeline.FaithfulnessScore | src/rag_pipeline.py:74-91 | The loop's score equals the specification score and lies in [0, 1]. |
| RagPipeline.ApproxTokens | src/rag_pipeline.py:142-143 | `len(text) // 4`. This is a specification function; `CostZeroIff` states when it is zero. |
| RagPipeline.EstimateCost | src/rag_pipeline.py:144 | The cost is never negative, and is zero exactly when both token counts are zero. |
| RagPipeline.EstimateCostLinear | src/rag_pipeline.py:144 | The cost is linear in the token counts. |
| RagPipeline.CostZeroIff | src/rag_pipeline.py:142-144 | The cost is zero exactly when the prompt and the answer are both shorter than 4 characters. |
| RagPipeline.CitationOf | src/rag_pipeline.py:150-158 | Each field is the metadata entry or its default (`""`, or 0 for the year). The excerpt is the first 400 characters of the text. The score is the chunk's. |
| RagPipeline.Citations | src/rag_pipeline.py:149-160 | One citation per final chunk, in order. |
| RagPipeline.UserPrompt | src/rag_pipeline.py:130 | `_USER_TMPL` formatted with the context and the question. This is a specification function; `AnswerQuestion` states that the chat model receives it. |
| RagPipeline.ChatFor | src/rag_pipeline.py:132-138 | The chat request: the prompt, the model `command-r7b-12-2024`, the system preamble, temperature 0.1 and 1024 tokens. This is a specification function; `AnswerQuestion` states that the chat model receives it. |
| RagPipeline.AnswerQuestion | src/rag_pipeline.py:94-167 | Failures of embedding, search and generation propagate. An empty search result returns the fixed no-filings answer (cost 0, faithfulness 1) without calling rerank or chat. Otherwise there is exactly one rerank (top 5 of 20) and one chat call with the templated prompt, model, preamble, temperature and token limit. The result holds the stripped reply, citations and faithfulness of the reranked chunks, and the cost of the prompt and answer lengths. |
| Ingest.Step | src/ingest.py:111-127 | One line of the loop. A stopped scan stays as it is, and the collected lines either stay the same or grow by that line, unstripped. |
| Ingest.Run | src/ingest.py:110-127 | The scan of a list of lines. A stopped scan stays as it is, and the lines collected so far remain a prefix of the result. |
| Ingest.Extracted | src/ingest.py:104-132 | The collected lines, or the error return when there are none. This is a specification function; the scanner lemmas below state its properties. |
| Ingest.ExtractPrimaryDocument | src/ingest.py:104-132 | The loop's result equals the specification scan of the lines. It is absent (the error return) when nothing was collected. |
| Ingest.RunConcat | src/ingest.py:110-127 | Scanning a concatenation is scanning its parts one after the other. |
| Ingest.RunStaysStopped | src/ingest.py:121-122 | After the `break` no line changes anything. |
| Ingest.OutsideLinesIgnored | src/ingest.py:111-115 | Lines outside a `<DOCUMENT>` are never collected and change nothing. |
| Ingest.SecondaryDocumentSkipped | src/ingest.py:111-125 | A document without a `<SEQUENCE>1` line (such as `<SEQUENCE>10`) is skipped whole. Its `</DOCUMENT>` leaves the scanner outside, with nothing collected. |
| Ingest.InsideSecondaryDocument | src/ingest.py:115-127 | Inside a document not yet marked primary, lines other than the delimiters change nothing. |
| Ingest.HeaderFindsSequence1 | src/ingest.py:116-117 | The header's lines set `found_sequence_1` exactly when one of them is `<SEQUENCE>1`, and collect nothing. |
| Ingest.BodyCollected | src/ingest.py:126-127 | Inside the text block every non-delimiter line is appended unstripped, in order. |
| Ingest.PrimaryTextReached | src/ingest.py:111-120 | `<DOCUMENT>`, a header with `<SEQUENCE>1` and then `<TEXT>` leave the scanner in the primary text block with nothing collected. |
| Ingest.TextBlockClosed | src/ingest.py:121-127 | In the text block, a body and then `</TEXT>` or `</DOCUMENT>` collect exactly the body and stop the scan. |
| Ingest.PrimaryDocumentCollected | src/ingest.py:104-127 | For `<DOCUMENT>`, a header with `<SEQUENCE>1`, `<TEXT>`, a body and `</TEXT>` or `</DOCUMENT>`, exactly the body is collected, whatever follows. |
| Ingest.NothingWithoutPrimary | src/ingest.py:111-132 | Without a `<DOCUMENT>` line, or without a `<SEQUENCE>1` line, nothing is collected and the result is the error return. |
| Ingest.CollectedLinesAreContent | src/ingest.py:126-127 | Every collected line is a line of the bundle whose stripped form is none of `<DOCUMENT>`, `</DOCUMENT>` and `</TEXT>`. A `<SEQUENCE>1` line inside the text block is collected. A `<TEXT>` line there is skipped, unless a nested `<DOCUMENT>` line came before it with no `<SEQUENCE>1` line since. `TextBlockDelimiters` states each case. |
| Ingest.TextBlockDelimiters | src/ingest.py:111-127 | Inside the primary text block: `<DOCUMENT>` only clears `found_sequence_1`; `<SEQUENCE>1` is collected and sets it; `<TEXT>` changes nothing while it is set and is collected once it is clear. |
| Ingest.MatchesAt | src/ingest.py:171-172 | `item`, the greedy separator run and the suffix start at position `i`, with the word boundary after them in the corrected pattern. This is a specification predicate. |
| Ingest.MatchesFrom | src/ingest.py:172 | `re.search` from position `i`: a match at some later position. `MatchPosition` and `MatchesFromAny` state both directions. |
| Ingest.Matches | src/ingest.py:172 | `re.search` over the whole snippet. `MatchesIffPatternOccurs` states that it accepts exactly the strings where the pattern occurs. |
| Ingest.PatternOccurs | src/ingest.py:171 | The regular language `item[\s.:]*<suffix>` occurring anywhere, stated without the greedy matcher. This is the reference definition for `MatchesIffPatternOccurs`. |
| Ingest.SkipSeparators | src/ingest.py:171 | The greedy run of `[\s.:]` characters: everything skipped is a separator and the next character is not. |
| Ingest.MatchesIffPatternOccurs | src/ingest.py:171-172 | The greedy matcher succeeds exactly when `item`, separators and the suffix occur somewhere in the string (the regular expression's language). |
| Ingest.MatchGivesPattern | src/ingest.py:171-172 | A successful greedy search is an occurrence of the pattern. |
| Ingest.PatternGivesMatch | src/ingest.py:171-172 | An occurrence of the pattern makes the greedy search succeed, since the suffix does not start with a separator. |
| Ingest.SkipSeparatorsRun | src/ingest.py:171 | A run of separators that ends at a non-separator is exactly what the greedy skip passes over. |
| Ingest.MatchPosition | src/ingest.py:172 | A successful search has a match position. |
| Ingest.MatchesFromAny | src/ingest.py:172 | A match at any position makes the search succeed. |
| Ingest.ShorterSuffixMatches | src/ingest.py:171-172 | Without a boundary, any string the pattern for `item_1a` matches is also matched by the pattern for `item_1`. |
| Ingest.SectionFrom | src/ingest.py:170-174 | The label of the first table entry from `k` on whose pattern matches, else `General`. This is a specification function; `SectionFromFirstMatch`, `SectionFromSkips` and `SectionFromNone` state its result. |
| Ingest.SectionOf | src/ingest.py:168-174 | `detect_section` as written: the table tried in order on the lowercased snippet. This is a specification function; `SectionFromFirstMatch`, `DetectSection` and `ShadowedSections` state its properties. |
| Ingest.SectionOfBounded | src/ingest.py:168-174 | The same search with each pattern ending at a word boundary (the corrected detector). `BoundedSectionsReachable` states its property. |
| Ingest.FirstMatchIndex | src/ingest.py:170-173 | The first table index from `k` on whose pattern matches, or the table's length; no earlier entry matches. |
| Ingest.SectionFromSkips | src/ingest.py:170-173 | Entries that do not match are passed over, and the first matching entry gives the label. |
| Ingest.SectionFromNone | src/ingest.py:170-174 | When no entry matches, the label is `General`. |
| Ingest.SectionFromFirstMatch | src/ingest.py:170-174 | The result is the label of the first table entry whose pattern matches, or `General` when none matches. |
| Ingest.DetectSection | src/ingest.py:168-174 | The loop with early return gives the first match in table order, or `General`. It equals `SectionOf`. |
| Ingest.ShadowedSections | src/ingest.py:170-173 | As written, `Risk Factors`, `Unresolved Staff Comments` and `Quantitative Disclosures About Market Risk` are never returned. |
| Ingest.RiskFactorsHeadingAsWritten | src/ingest.py:168-174 | `Item 1A. Risk Factors` is labelled `Business Overview`. |
| Ingest.TableSuffixes | src/config.py:34-44 | Every key is `item_` plus one or two word characters, and no two suffixes are equal. |
| Ingest.BoundedSectionsReachable | src/config.py:34-44 | With word-bounded patterns, the heading `item <suffix>` of every table entry gets that entry's label. |
| Ingest.BareHeading | src/config.py:34-44 | The heading `item <suffix>` of a table suffix is already lower case, and its own bounded pattern matches it. |
| Ingest.BareHeadingExcludes | src/config.py:34-44 | No other suffix's bounded pattern matches that heading. |
| Ingest.Parts | src/ingest.py:178 | `path.parts`: the anchor, if any, then the names. This is a specification function; `DownloadedFilingMetadata` uses it. |
| Ingest.ParentName | src/ingest.py:181 | `path.parent.name`: the name before the last, or `""` for a path with fewer than two names. This is a specification function. |
| Ingest.PathString | src/ingest.py:187 | `str(path)`: the anchor followed by the names joined by `/`, or `.` for the empty path. This is a specification function. |
| Ingest.FormTypeOf | src/ingest.py:179 | The first filing type that is a path part, or `unknown` when none is. |
| Ingest.FindPattern | src/ingest.py:182-187 | The leftmost match of a four-character pattern, or none when there is no match. |
| Ingest.ExpandShortYear | src/ingest.py:184-185 | The two-digit year maps to the one year from 1950 to 2049 ending in those digits. |
| Ingest.ExpandShortYearUnique | src/ingest.py:185 | No other year in that range ends in those digits. |
| Ingest.LongYearValue | src/ingest.py:187-188 | A `20dd` match reads as a year from 2000 to 2099. |
| Ingest.FindPatternSkips | src/ingest.py:182 | Positions that do not match are passed over, so the search returns the first match. |
| Ingest.ShortYearDigits | src/ingest.py:184 | The two digits of a `-dd-` match read as a number below 100. |
| Ingest.AccessionYear | src/ingest.py:181-185 | A `-dd-` in the accession name gives the year from 1950 to 2049 ending in those digits; otherwise no year. |
| Ingest.PathYear | src/ingest.py:187-188 | A `20dd` in the path gives that year, from 2000 to 2099; otherwise no year. |
| Ingest.FilingYear | src/ingest.py:181-188 | The year comes from the leftmost `-dd-` of the accession directory, else the leftmost `20dd` of the path, else the current year. |
| Ingest.ExtractMetadata | src/ingest.py:177-191 | Exactly the five keys, holding the ticker, form type, filing year, accession directory name and path string. |
| Ingest.DownloadedFilingMetadata | src/ingest.py:177-191 | For `.../AAPL/10-K/0000320193-24-000123/primary_document.htm`, the path the pipeline passes, the form type is `10-K`, the accession is that directory and the year is 2024, whatever the clock says. |
| Ingest.WordCount | src/ingest.py:205 | `len(ct.split())`. This is a specification function; `KeptIndices` and `ChunksAreLongNodes` state the 30-word threshold with it. |
| Ingest.HasIdFields | src/ingest.py:208 | The metadata has `ticker`, `form_type` and `accession`, so the chunk id's f-string raises no `KeyError`. `ChunksFromNodes` and `UnnamedChunksDropped` state what happens without them. |
| Ingest.ChunkId | src/ingest.py:208 | `ticker_form_type_accession_` followed by the index padded to four digits. This is a specification function; `ChunkIdInjective` states its property. |
| Ingest.ChunkIdInjective | src/ingest.py:208 | Two chunk ids of one filing are equal exactly when their indices are. |
| Ingest.ChunkMetadata | src/ingest.py:210-211 | The filing's metadata plus `section`, `chunk_index` and `word_count`. The section is the corrected detector `SectionOfBounded` applied to the first 200 characters, not `detect_section` as written (see Left out). |
| Ingest.ChunkFor | src/ingest.py:207-212 | The chunk dict built from node `i`: its id, its text and its metadata. This is a specification function; `KeptAtIndices` and `ChunksAreLongNodes` state which nodes give one. |
| Ingest.Kept | src/ingest.py:203-212 | The chunks of the nodes below `n` with at least 30 words, in node order. This is a specification function; `KeptAtIndices` and `BuildChunks` state its contents. |
| Ingest.KeptIndices | src/ingest.py:203-206 | The indices of the nodes with at least 30 words, increasing; every such node is listed. |
| Ingest.KeptAtIndices | src/ingest.py:203-212 | The k-th chunk is built from the k-th kept node. |
| Ingest.ChunksFromNodes | src/ingest.py:202-212 | No chunks without the id fields: the first long node raises `KeyError`, and with no long node the list is empty anyway. Otherwise the kept chunks. This is a specification function; the lemmas below state its properties. |
| Ingest.ChunksOf | src/ingest.py:196-219 | `None` for a missing ticker, no chunks for a splitter failure, else the chunks from the nodes. This is a specification function; `ChunkText` is proved equal to it. |
| Ingest.ChunkText | src/ingest.py:196-219 | A missing ticker raises. A splitter failure gives no chunks. Missing `form_type` or `accession` gives no chunks. Otherwise the result is the kept chunks, with sections from the corrected detector (see Left out). |
| Ingest.BuildChunks | src/ingest.py:202-212 | The loop's result equals the specification of the kept chunks, with sections from the corrected detector (see Left out). |
| Ingest.ChunksAreLongNodes | src/ingest.py:203-211 | Each chunk comes from a node of at least 30 words and carries its index, its word count and the corrected detector's section (see Left out). |
| Ingest.LongNodesKept | src/ingest.py:205-212 | Every node of at least 30 words yields a chunk. |
| Ingest.ChunksInNodeOrder | src/ingest.py:203-212 | Chunk indices increase along the list. |
| Ingest.ChunkIdsDistinct | src/ingest.py:208 | No two chunks of a filing share a `chunk_id`. Their point ids then differ whenever `uuid5` is injective on chunk ids; the model leaves `uuid5` unconstrained. |
| Ingest.ChunkMetadataWithoutText | src/ingest.py:210-211 | Chunk metadata has a `text` entry only if the filing metadata does. |
| Ingest.KeptWithoutText | src/ingest.py:210-211 | The same, for every chunk kept from the first `n` nodes. |
| Ingest.ChunkPointReadBack | src/ingest.py:210-211 | A point stored for a chunk built from metadata without `text` has a string `text`, and `search` reads it back as the chunk's text. |
| Ingest.IngestedChunksReadBack | src/ingest.py:189-211 | Points stored for ingested chunks have a string `text` and are read back by `search` with the chunk's text. |
| Ingest.UnnamedChunksDropped | src/ingest.py:207-219 | Without the id fields, a long node makes the whole result empty. |
| Ingest.Texts | src/ingest.py:230 | One text per chunk, in order. |
| Ingest.EmbedAndStore | src/ingest.py:224-242 | No chunks gives 0 with no service called. Otherwise it makes one batch embedding of the texts, then one upsert of the zipped points. It returns the upsert count, or 0 on any failure, and never more than the number of chunks. |
| PyFormat.IntToString | src/rag_pipeline.py:66-67 | `str(i)`: a minus sign before the digits of a negative value, the digits alone otherwise. This is a specification function; `ParseNatDigits` states that those digits read back as the value. |
| PyFormat.ZeroPad4 | src/ingest.py:208 | `f"{n:04d}"`: digits only, four of them below 10000 and otherwise the number's own digits. `ParseZeroPad4` and `ZeroPad4Injective` state that it reads back and is injective. |
| Values.Get | src/rag_pipeline.py:151-155 | `d.get(key, default)`: the entry when the key is present, else the default. |
| Values.Render | src/rag_pipeline.py:66-68 | What an f-string placeholder prints: a string as itself, an int by `str`. This is a specification function. |
| PyFormat.ParseZeroPad4 | src/ingest.py:208 | `f"{i:04d}"` reads back as `i`. |
| PyFormat.ZeroPad4Injective | src/ingest.py:208 | Distinct indices give distinct padded strings. |
| PyStr.Strip | src/rag_pipeline.py:70 | `str.strip()`. `StripLeftShape`, `StripRightShape` and `StripEmptyIff` state what it removes. |
| PyStr.StripLeftShape | src/rag_pipeline.py:70 | The left strip removes a whitespace prefix and leaves a string that is empty or starts with a non-space. |
| PyStr.StripRightShape | src/rag_pipeline.py:70 | The right strip removes a whitespace suffix and leaves a string that is empty or ends with a non-space. |
| PyStr.WordSet | src/rag_pipeline.py:80 | `set(s.split())`: the set of the words. This is a specification function; `VocabularyMembers` uses it. |
| PyStr.Lower | src/rag_pipeline.py:80 | `s.lower()` on ASCII letters: same length, each character lowered. |
| PyStr.ReplaceChar | src/rag_pipeline.py:82 | `s.replace(a, b)` for single characters: same length, each `a` replaced by `b` and nothing else changed. |
| PyStr.Join | src/rag_pipeline.py:71 | `sep.join(parts)`. This is a specification function; `JoinAt`, `JoinConcat` and `JoinSplitOn` state its shape. |
| PyStr.Take | src/rag_pipeline.py:156 | `s[:n]`: the prefix of length `min(n, len(s))`. |
| PyStr.Words | src/rag_pipeline.py:80 | `str.split()`: the maximal runs of non-whitespace characters, in order. `WordsEmptyIff` states when there are none. |
| PyStr.WordsEmptyIff | src/rag_pipeline.py:88 | A string has no words exactly when it is all whitespace. |
| PyStr.SplitOn | src/rag_pipeline.py:82 | `str.split(d)`: at least one piece and no piece contains `d`. `JoinSplitOn` states that joining with `d` gives back the string. |
| PyStr.JoinSplitOn | src/rag_pipeline.py:82 | Joining the pieces of a split with the delimiter gives back the string. |
| PyStr.StripEmptyIff | src/rag_pipeline.py:76 | `not s.strip()` holds exactly when `s` is all whitespace. |
| PyStr.JoinAt | src/rag_pipeline.py:71 | The k-th part of a join sits between the parts before it and after it, one separator on each side. |

## Left out

- Progress events (`emit`), console output, file reads and writes, the "already extracted" size check and the download step are I/O. The scanner takes the bundle's lines as a list.
- `parse_filing`, `run_pipeline`, `ensure_collection`, `collection_info`, `get_client` and the FastAPI layer in `api/main.py` are not part of this model. They are orchestration and client setup around the modelled steps.
- The semantic splitter is modelled only as an oracle from the text to the nodes' contents; how LlamaIndex splits, and any use it makes of the metadata, is not modelled.
- `lower()` maps ASCII letters only. `\d` and `int()` accept ASCII digits only. `\w` in the corrected pattern is ASCII. Python applies the full Unicode tables in all of these.
- Windows paths are not modelled: `FilePath` has POSIX parts and `str()` joins them with `/`.
- Floating point is replaced by exact reals: `round(..., 2)` on the faithfulness score, `round(score, 3)` on citations, and the binary rounding of the cost are not modelled.
- VectorStore.Search, VectorStore.ProjectHit, VectorStore.ProjectHits, RagPipeline.AnswerQuestion: require that every hit's `text` entry is a string. Python would put a non-string there unchecked. `upsert_chunks` always writes a string unless the metadata overrides it (`UpsertPayloadTextIsString`), and ingested metadata never does (`IngestedChunksReadBack`).
- RagPipeline.RerankLength: holds only when the service returns the `top_n` results it was asked for. The service contract is not otherwise constrained.
- RagPipeline.RerankIsSelection: assumes the service names each candidate at most once. A reply with repeated indices would repeat chunks, exactly as the source does.
- Ingest.ChunkMetadata, Ingest.ChunkText, Ingest.BuildChunks, Ingest.ChunksAreLongNodes: label sections with the corrected detector `SectionOfBounded`, not with `detect_section` as written (src/ingest.py:210). For a node whose first 200 characters are `Item 1A. Risk Factors` the model stores `Risk Factors` where the program stores `Business Overview`. For one whose first 200 characters are `Item 10` the model stores `General` where the program stores `Business Overview`. The as-written detector is `SectionOf`/`DetectSection`; see Findings.
- Ingest.PrimaryDocumentCollected: states exact collection for the well-formed layout only. Other orders of delimiters are covered by the step function and by `ExtractPrimaryDocument`'s equality with it, not by a separate lemma.
- `answer_question`'s dict results and the pydantic models of the API are the `AnswerResult` and `Citation` datatypes. JSON serialisation is not modelled.

## Findings

| source | as written | input that shows it | evidently intended | confidence | as-written member | corrected member |
|---|---|---|---|---|---|---|
| src/ingest.py:170-173 | The patterns are tried in table order without an end boundary. `item[\s.:]*1` comes before `item[\s.:]*1a` and `item[\s.:]*1b`, and `item[\s.:]*7` before `item[\s.:]*7a`. The shorter pattern matches every string the longer one matches, so three labels are never returned. | `Item 1A. Risk Factors` is labelled `Business Overview` | Every table entry's heading gets that entry's label, for example by requiring a word boundary after the suffix. | not executed | Ingest.ShadowedSections, Ingest.RiskFactorsHeadingAsWritten (on Ingest.SectionOf, Ingest.DetectSection) | Ingest.SectionOfBounded, proved in Ingest.BoundedSectionsReachable |

The chunks built by `Ingest.ChunkText` label sections with the corrected
`SectionOfBounded`. `DetectSection` and `SectionOf` keep the behaviour as
written. The difference is listed under Left out.
