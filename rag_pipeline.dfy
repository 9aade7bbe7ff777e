/** The deterministic logic of `src/rag_pipeline.py`: the rerank step and its
    fallback, the context the generator sees, the lexical faithfulness score,
    the cost estimate, the citations, and `answer_question` sequencing them.
    The embedder, the vector index, the reranker and the chat model are
    oracle parameters; `answer_question` also reports, in order, the service
    calls it made. */
module RagPipeline {
  import opened Wrappers
  import opened Values
  import opened PyStr
  import PyFormat
  import opened VectorStore

  /** `top_k` and `top_n` as `answer_question` passes them. */
  const TopK: nat := 20
  const TopN: nat := 5

  /** Characters of each chunk's text sent to the reranker. */
  const RerankDocumentLimit: nat := 2000

  /** Characters of each chunk's text kept as a citation excerpt. */
  const ExcerptLimit: nat := 400

  const ContextSeparator: string := "\n\n---\n\n"

  const RerankModel: string := "rerank-english-v3.0"
  const ChatModel: string := "command-r7b-12-2024"
  const ChatTemperature: real := 0.1
  const ChatMaxTokens: nat := 1024

  /** `_SYSTEM`. */
  const SystemPolicy: string :=
    "You are FinRAG Analyst, an expert financial analyst that answers questions "
    + "strictly based on SEC filings (10-K, 10-Q).\n\n"
    + "Rules:\n"
    + "- Answer ONLY from the provided context passages. Never hallucinate.\n"
    + "- Be concise but thorough. Use bullet points for lists.\n"
    + "- If the context doesn't contain the answer, say "
    + "\"I couldn't find that information in the available filings.\"\n"
    + "- Always reference which company/filing the information comes from.\n"
    + "- For numbers, reproduce them exactly as stated in the filing.\n"

  /** The answer returned when retrieval finds nothing. */
  const NoFilingsAnswer: string :=
    "No relevant filings found in the knowledge base. "
    + "Please ingest some SEC filings first via the **Ingest Data** page."

  /** The arguments of `_co.rerank`. */
  datatype RerankRequest = RerankRequest(query: string, documents: seq<string>, model: string, topN: nat)

  /** The arguments of `_co.chat`. */
  datatype ChatRequest = ChatRequest(message: string, model: string, preamble: string,
                                     temperature: real, maxTokens: nat)

  /** One citation dict. Metadata entries keep whatever value the payload had. */
  datatype Citation = Citation(chunkId: Value, ticker: Value, formType: Value, filingYear: Value,
                               section: Value, excerpt: string, score: real)

  /** The dict `answer_question` returns. */
  datatype AnswerResult = AnswerResult(answer: string, citations: seq<Citation>, costUsd: real, faithfulness: real)

  /** The service failures `answer_question` does not catch. */
  datatype PipelineError = EmbeddingFailed | RetrievalFailed | GenerationFailed

  /** One call to an external service, as observed from outside. */
  datatype ServiceCall =
    | EmbedCall(text: string)
    | SearchCall(query: Query)
    | RerankCall(rerankRequest: RerankRequest)
    | ChatCall(chatRequest: ChatRequest)

  // ---------------------------------------------------------------------------
  // Rerank

  /** What `_rerank` sends: every candidate's text cut to 2000 characters (the
      candidates themselves keep their full text) and `min(top_n, len(chunks))`. */
  function RerankRequestFor(query: string, chunks: seq<Chunk>, topN: nat): (req: RerankRequest)
    ensures req.query == query && req.model == RerankModel
    ensures req.topN == Min(topN, |chunks|)
    ensures |req.documents| == |chunks|
    ensures forall k :: 0 <= k < |chunks| ==>
              |req.documents[k]| == Min(RerankDocumentLimit, |chunks[k].text|)
              && req.documents[k] == chunks[k].text[..|req.documents[k]|]
  {
    RerankRequest(query, seq(|chunks|, k requires 0 <= k < |chunks| => Take(chunks[k].text, RerankDocumentLimit)),
                  RerankModel, Min(topN, |chunks|))
  }

  predicate InRange(indices: seq<nat>, n: nat) {
    forall k :: 0 <= k < |indices| ==> indices[k] < n
  }

  /** `[chunks[i] for i in indices]`. */
  function Select(chunks: seq<Chunk>, indices: seq<nat>): (r: seq<Chunk>)
    requires InRange(indices, |chunks|)
    ensures |r| == |indices|
    ensures forall k :: 0 <= k < |indices| ==> r[k] == chunks[indices[k]]
  {
    seq(|indices|, k requires 0 <= k < |indices| => chunks[indices[k]])
  }

  /** A rerank reply the pipeline can use: the service answered, and every
      result index names a candidate (an index past the end raises inside the
      `try` and so also falls back). */
  predicate Usable(reply: Option<seq<nat>>, n: nat) {
    reply.Some? && InRange(reply.value, n)
  }

  /** `_rerank(query, chunks, top_n)`. */
  function Rerank(query: string, chunks: seq<Chunk>, topN: nat, service: RerankRequest -> Option<seq<nat>>)
    : (r: seq<Chunk>)
    ensures chunks == [] ==> r == []
    ensures chunks != [] && !Usable(service(RerankRequestFor(query, chunks, topN)), |chunks|)
            ==> r == chunks[..Min(topN, |chunks|)]
    ensures chunks != [] && Usable(service(RerankRequestFor(query, chunks, topN)), |chunks|)
            ==> r == Select(chunks, service(RerankRequestFor(query, chunks, topN)).value)
  {
    if chunks == [] then chunks
    else
      var reply := service(RerankRequestFor(query, chunks, topN));
      if Usable(reply, |chunks|) then Select(chunks, reply.value) else chunks[..Min(topN, |chunks|)]
  }

  /** Every reranked chunk is one of the candidates, unchanged (full text,
      metadata and the retrieval score). */
  lemma RerankedAreCandidates(query: string, chunks: seq<Chunk>, topN: nat,
                              service: RerankRequest -> Option<seq<nat>>)
    ensures forall c :: c in Rerank(query, chunks, topN, service) ==> c in chunks
  {
  }

  predicate Distinct(indices: seq<nat>) {
    forall j, k :: 0 <= j < k < |indices| ==> indices[j] != indices[k]
  }

  /** When the service names each candidate at most once, the reranked list is
      a selection from the candidates: no chunk appears more often than it
      did among the candidates. */
  lemma RerankIsSelection(query: string, chunks: seq<Chunk>, topN: nat,
                          service: RerankRequest -> Option<seq<nat>>)
    requires var reply := service(RerankRequestFor(query, chunks, topN));
             reply.Some? ==> Distinct(reply.value)
    ensures multiset(Rerank(query, chunks, topN, service)) <= multiset(chunks)
  {
    if chunks != [] {
      var reply := service(RerankRequestFor(query, chunks, topN));
      if Usable(reply, |chunks|) {
        SelectIsSubMultiset(chunks, reply.value);
      } else {
        var n := Min(topN, |chunks|);
        assert chunks == chunks[..n] + chunks[n..];
      }
    }
  }

  /** When the service keeps its contract (exactly `top_n` distinct valid
      indices), or fails, `_rerank` returns `min(top_n, len(chunks))` chunks. */
  lemma RerankLength(query: string, chunks: seq<Chunk>, topN: nat,
                     service: RerankRequest -> Option<seq<nat>>)
    requires var req := RerankRequestFor(query, chunks, topN);
             service(req).Some? ==> |service(req).value| == req.topN
    ensures |Rerank(query, chunks, topN, service)| == Min(topN, |chunks|)
  {
  }

  lemma SelectIsSubMultiset(chunks: seq<Chunk>, indices: seq<nat>)
    requires InRange(indices, |chunks|) && Distinct(indices)
    ensures multiset(Select(chunks, indices)) <= multiset(chunks)
  {
    var r := Select(chunks, indices);
    forall x ensures multiset(r)[x] <= multiset(chunks)[x] {
      var a := Positions(r, x);
      var b := Positions(chunks, x);
      OccurrencesCount(r, x);
      OccurrencesCount(chunks, x);
      assert forall k :: k in a ==> k < |indices| && indices[k] in b;
      assert forall j, k :: j in a && k in a && indices[j] == indices[k] ==> j == k by {
        forall j, k | j in a && k in a && j != k ensures indices[j] != indices[k] {
          if j < k { assert indices[j] != indices[k]; } else { assert indices[k] != indices[j]; }
        }
      }
      InjectionBound(a, b, indices);
    }
  }

  /** The positions of `s` holding `x`. */
  ghost function Positions<T>(s: seq<T>, x: T): set<nat> {
    set k: nat | k < |s| && s[k] == x
  }

  /** The multiplicity of `x` in `s` is the number of positions holding `x`. */
  lemma {:induction false} OccurrencesCount<T>(s: seq<T>, x: T)
    ensures multiset(s)[x] == |Positions(s, x)|
    decreases |s|
  {
    if |s| == 0 {
      assert Positions(s, x) == {};
    } else {
      var init := s[..|s| - 1];
      OccurrencesCount(init, x);
      assert s == init + [s[|s| - 1]];
      if s[|s| - 1] == x {
        assert Positions(s, x) == Positions(init, x) + {|s| - 1};
      } else {
        assert Positions(s, x) == Positions(init, x);
      }
    }
  }

  /** A map that is injective on `a` and sends `a` into `b` needs `b` to be at
      least as large as `a`. */
  lemma {:induction false} InjectionBound(a: set<nat>, b: set<nat>, f: seq<nat>)
    requires forall k :: k in a ==> k < |f| && f[k] in b
    requires forall j, k :: j in a && k in a && f[j] == f[k] ==> j == k
    ensures |a| <= |b|
    decreases |a|
  {
    if a != {} {
      var k :| k in a;
      InjectionBound(a - {k}, b - {f[k]}, f);
    }
  }

  // ---------------------------------------------------------------------------
  // Context

  /** `m.get(key, '?')` as printed in the header. */
  function FieldOrPlaceholder(m: Payload, key: string): string {
    Render(Get(m, key, Str("?")))
  }

  /** `[i] ticker | form_type year | section`. */
  function Header(i: nat, c: Chunk): string {
    "[" + PyFormat.IntToString(i) + "] " + FieldOrPlaceholder(c.metadata, "ticker") + " | "
    + FieldOrPlaceholder(c.metadata, "form_type") + " " + FieldOrPlaceholder(c.metadata, "filing_year") + " | "
    + FieldOrPlaceholder(c.metadata, "section")
  }

  /** One context block: the header, a newline, the stripped (full) text. */
  function Block(i: nat, c: Chunk): string {
    Header(i, c) + "\n" + Strip(c.text)
  }

  /** The blocks in chunk order, numbered from 1. */
  function Blocks(chunks: seq<Chunk>): (bs: seq<string>)
    ensures |bs| == |chunks|
    ensures forall k :: 0 <= k < |chunks| ==> bs[k] == Block(k + 1, chunks[k])
  {
    seq(|chunks|, k requires 0 <= k < |chunks| => Block(k + 1, chunks[k]))
  }

  /** The context string `_build_context` produces. */
  function Context(chunks: seq<Chunk>): string {
    Join(Blocks(chunks), ContextSeparator)
  }

  /** `_build_context`: appends one block per chunk, then joins them. */
  method BuildContext(chunks: seq<Chunk>) returns (context: string)
    ensures context == Context(chunks)
    ensures chunks == [] ==> context == ""
  {
    var parts: seq<string> := [];
    for i := 0 to |chunks|
      invariant |parts| == i
      invariant forall k :: 0 <= k < i ==> parts[k] == Block(k + 1, chunks[k])
    {
      parts := parts + [Block(i + 1, chunks[i])];
    }
    assert parts == Blocks(chunks);
    context := Join(parts, ContextSeparator);
  }

  /** Block `k + 1` (for the chunk at position `k`) stands in the context
      between the earlier blocks and the later ones, each set off by the
      separator; the numbering is the citation order. */
  lemma ContextBlockAt(chunks: seq<Chunk>, k: nat)
    requires k < |chunks|
    ensures Context(chunks)
            == (if k == 0 then "" else Context(chunks[..k]) + ContextSeparator)
               + Block(k + 1, chunks[k])
               + (if k == |chunks| - 1 then "" else ContextSeparator + Join(Blocks(chunks)[k + 1..], ContextSeparator))
  {
    var bs := Blocks(chunks);
    JoinAt(bs, ContextSeparator, k);
    assert bs[..k] == Blocks(chunks[..k]);
  }

  // ---------------------------------------------------------------------------
  // Faithfulness

  /** The union of the lowercased words of all chunk texts. */
  function Vocabulary(chunks: seq<Chunk>): set<string>
    decreases |chunks|
  {
    if chunks == [] then {}
    else Vocabulary(chunks[..|chunks| - 1]) + WordSet(Lower(chunks[|chunks| - 1].text))
  }

  /** A word is in the vocabulary exactly when some chunk's lowercased text
      contains it. */
  lemma {:induction false} VocabularyMembers(chunks: seq<Chunk>, w: string)
    ensures w in Vocabulary(chunks) <==> exists k :: 0 <= k < |chunks| && w in Words(Lower(chunks[k].text))
    decreases |chunks|
  {
    if chunks != [] {
      var init := chunks[..|chunks| - 1];
      VocabularyMembers(init, w);
      assert forall k :: 0 <= k < |init| ==> init[k] == chunks[k];
    }
  }

  /** The stripped pieces longer than 20 characters, in order. */
  function LongPieces(pieces: seq<string>): (ss: seq<string>)
    ensures |ss| <= |pieces|
    ensures forall k :: 0 <= k < |ss| ==> |ss[k]| > 20 && exists j :: 0 <= j < |pieces| && ss[k] == Strip(pieces[j])
    ensures forall j :: 0 <= j < |pieces| && |Strip(pieces[j])| > 20 ==> Strip(pieces[j]) in ss
    decreases |pieces|
  {
    if pieces == [] then []
    else
      var ss := (if |Strip(pieces[0])| > 20 then [Strip(pieces[0])] else []) + LongPieces(pieces[1..]);
      assert forall j :: 1 <= j < |pieces| ==> pieces[j] == pieces[1..][j - 1];
      ss
  }

  /** Filtering distributes over concatenation: together with the one-piece
      case this fixes the order and the number of the kept sentences. */
  lemma {:induction false} LongPiecesConcat(a: seq<string>, b: seq<string>)
    ensures LongPieces(a + b) == LongPieces(a) + LongPieces(b)
    decreases |a|
  {
    if a == [] {
      assert a + b == b;
    } else {
      assert (a + b)[0] == a[0] && (a + b)[1..] == a[1..] + b;
      LongPiecesConcat(a[1..], b);
    }
  }

  /** The scored sentences: the answer, newlines turned into spaces, split at
      every period, each piece stripped, the ones of at most 20 characters
      dropped. */
  function Sentences(answer: string): seq<string> {
    LongPieces(SplitOn(ReplaceChar(answer, '\n', ' '), '.'))
  }

  /** A sentence is supported when at least 30% of its distinct lowercased
      words occur in the vocabulary (`len(words & vocab) / len(words) >= 0.30`,
      compared by cross-multiplication). */
  predicate Supported(sentence: string, vocab: set<string>) {
    var words := WordSet(Lower(sentence));
    |words| > 0 && 10 * |words * vocab| >= 3 * |words|
  }

  /** The number of supported sentences. */
  function SupportedCount(sentences: seq<string>, vocab: set<string>): (n: nat)
    ensures n <= |sentences|
    ensures n == |sentences| <==> forall k :: 0 <= k < |sentences| ==> Supported(sentences[k], vocab)
    ensures n == 0 <==> forall k :: 0 <= k < |sentences| ==> !Supported(sentences[k], vocab)
    decreases |sentences|
  {
    if sentences == [] then 0
    else (if Supported(sentences[0], vocab) then 1 else 0) + SupportedCount(sentences[1..], vocab)
  }

  /** Which sentences are supported, one flag per sentence. */
  function Marks(sentences: seq<string>, vocab: set<string>): (b: seq<bool>)
    ensures |b| == |sentences|
    ensures forall k :: 0 <= k < |b| ==> b[k] == Supported(sentences[k], vocab)
    decreases |sentences|
  {
    if sentences == [] then []
    else [Supported(sentences[0], vocab)] + Marks(sentences[1..], vocab)
  }

  /** The number of true flags. */
  function CountTrue(b: seq<bool>): nat
    decreases |b|
  {
    if b == [] then 0 else (if b[0] then 1 else 0) + CountTrue(b[1..])
  }

  lemma {:induction false} SupportedCountMarks(sentences: seq<string>, vocab: set<string>)
    ensures SupportedCount(sentences, vocab) == CountTrue(Marks(sentences, vocab))
    decreases |sentences|
  {
    if sentences != [] {
      SupportedCountMarks(sentences[1..], vocab);
      assert Marks(sentences, vocab)[1..] == Marks(sentences[1..], vocab);
    }
  }

  lemma {:induction false} CountTrueSnoc(b: seq<bool>, last: bool)
    ensures CountTrue(b + [last]) == CountTrue(b) + (if last then 1 else 0)
    decreases |b|
  {
    if b != [] {
      assert (b + [last])[1..] == b[1..] + [last];
      CountTrueSnoc(b[1..], last);
    }
  }

  lemma {:induction false} CountTrueIsCardinality(b: seq<bool>)
    ensures CountTrue(b) == |set k: nat | k < |b| && b[k]|
    decreases |b|
  {
    if b != [] {
      var n := |b| - 1;
      var init := b[..n];
      assert b == init + [b[n]];
      CountTrueSnoc(init, b[n]);
      CountTrueIsCardinality(init);
      var before := set k: nat | k < |init| && init[k];
      var after := set k: nat | k < |b| && b[k];
      if b[n] {
        assert after == before + {n};
      } else {
        assert after == before;
      }
    }
  }

  /** The positions of the supported sentences. */
  function SupportedPositions(sentences: seq<string>, vocab: set<string>): set<nat> {
    set k: nat | k < |sentences| && Supported(sentences[k], vocab)
  }

  /** The count is exactly the number of supported sentences. */
  lemma SupportedCountIsCardinality(sentences: seq<string>, vocab: set<string>)
    ensures SupportedCount(sentences, vocab) == |SupportedPositions(sentences, vocab)|
  {
    var b := Marks(sentences, vocab);
    SupportedCountMarks(sentences, vocab);
    CountTrueIsCardinality(b);
    assert (set k: nat | k < |b| && b[k]) == SupportedPositions(sentences, vocab);
  }

  /** `_faithfulness_score(answer, chunks)`, before rounding to two decimals. */
  function Faithfulness(answer: string, chunks: seq<Chunk>): real {
    if chunks == [] || Strip(answer) == "" then 1.0
    else
      var sentences := Sentences(answer);
      if sentences == [] then 1.0
      else SupportedCount(sentences, Vocabulary(chunks)) as real / |sentences| as real
  }

  /** The score is a fraction; it is 1 exactly in the vacuous cases (no chunks,
      a blank answer, no sentence long enough) and when every sentence is
      supported, and 0 exactly when there are sentences and none is. */
  lemma FaithfulnessRange(answer: string, chunks: seq<Chunk>)
    ensures 0.0 <= Faithfulness(answer, chunks) <= 1.0
    ensures Faithfulness(answer, chunks) == 1.0
            <==> chunks == [] || AllSpace(answer)
                 || forall k :: 0 <= k < |Sentences(answer)| ==> Supported(Sentences(answer)[k], Vocabulary(chunks))
    ensures Faithfulness(answer, chunks) == 0.0
            <==> chunks != [] && !AllSpace(answer) && Sentences(answer) != []
                 && forall k :: 0 <= k < |Sentences(answer)| ==> !Supported(Sentences(answer)[k], Vocabulary(chunks))
  {
    StripEmptyIff(answer);
    if chunks != [] && !AllSpace(answer) && Sentences(answer) != [] {
      var n := |Sentences(answer)|;
      var c := SupportedCount(Sentences(answer), Vocabulary(chunks));
      FractionFacts(c, n);
    }
  }

  lemma FractionFacts(c: nat, n: nat)
    requires 0 < n && c <= n
    ensures 0.0 <= c as real / n as real <= 1.0
    ensures c as real / n as real == 1.0 <==> c == n
    ensures c as real / n as real == 0.0 <==> c == 0
  {
    var q := c as real / n as real;
    assert q * n as real == c as real;
  }

  /** Every sentence the scorer keeps has at least one word, so the `words and`
      guard never decides the outcome. */
  lemma SentencesHaveWords(answer: string, k: nat)
    requires k < |Sentences(answer)|
    ensures |WordSet(Lower(Sentences(answer)[k]))| > 0
  {
    var s := Sentences(answer)[k];
    var p :| p in SplitOn(ReplaceChar(answer, '\n', ' '), '.') && s == Strip(p);
    var l := Lower(s);
    assert !AllSpace(s) by { StripEmptyIff(p); }
    var j :| 0 <= j < |s| && !IsSpace(s[j]);
    assert !IsSpace(l[j]);
    WordsEmptyIff(l);
    assert Words(l)[0] in WordSet(l);
  }

  /** When the vocabulary covers every word of every scored sentence (for
      example a one-sentence answer copied from the only chunk), the answer
      scores 1. */
  lemma FullOverlapIsFaithful(answer: string, chunks: seq<Chunk>)
    requires forall k :: 0 <= k < |Sentences(answer)| ==> WordSet(Lower(Sentences(answer)[k])) <= Vocabulary(chunks)
    ensures Faithfulness(answer, chunks) == 1.0
  {
    var vocab := Vocabulary(chunks);
    forall k | 0 <= k < |Sentences(answer)| ensures Supported(Sentences(answer)[k], vocab) {
      SentencesHaveWords(answer, k);
      var words := WordSet(Lower(Sentences(answer)[k]));
      assert words * vocab == words;
    }
    FaithfulnessRange(answer, chunks);
  }

  /** The vocabulary loop of `_faithfulness_score`: the union, chunk by chunk,
      of the lower-cased words of the chunk texts. */
  method GrowVocabulary(chunks: seq<Chunk>) returns (vocab: set<string>)
    ensures vocab == Vocabulary(chunks)
  {
    vocab := {};
    for i := 0 to |chunks|
      invariant vocab == Vocabulary(chunks[..i])
    {
      assert chunks[..i + 1][..i] == chunks[..i];
      vocab := vocab + WordSet(Lower(chunks[i].text));
    }
    assert chunks[..|chunks|] == chunks;
  }

  /** `_faithfulness_score`: grows the vocabulary chunk by chunk, then counts
      the supported sentences. */
  method FaithfulnessScore(answer: string, chunks: seq<Chunk>) returns (score: real)
    ensures score == Faithfulness(answer, chunks)
    ensures 0.0 <= score <= 1.0
  {
    FaithfulnessRange(answer, chunks);
    if chunks == [] || Strip(answer) == "" {
      return 1.0;
    }
    var vocab := GrowVocabulary(chunks);
    var sentences := Sentences(answer);
    if sentences == [] {
      return 1.0;
    }
    score := SupportedCount(sentences, vocab) as real / |sentences| as real;
  }

  // ---------------------------------------------------------------------------
  // Cost

  /** The fallback token estimate: `len(text) // 4`. */
  function ApproxTokens(length: nat): nat {
    length / 4
  }

  /** Command-R pricing: $0.15 per million input tokens, $0.60 per million
      output tokens. Never negative, and zero only for zero tokens. */
  function EstimateCost(inputTokens: nat, outputTokens: nat): (usd: real)
    ensures usd >= 0.0
    ensures usd == 0.0 <==> inputTokens == 0 && outputTokens == 0
  {
    (inputTokens as real * 0.15 + outputTokens as real * 0.60) / 1000000.0
  }

  /** The cost is linear in the token counts. */
  lemma EstimateCostLinear(x: nat, y: nat, a: nat)
    ensures EstimateCost(a * x, a * y) == a as real * EstimateCost(x, y)
  {
  }

  /** With the character-based estimate the cost is zero exactly when prompt
      and answer are both shorter than four characters. */
  lemma CostZeroIff(promptLength: nat, answerLength: nat)
    ensures EstimateCost(ApproxTokens(promptLength), ApproxTokens(answerLength)) == 0.0
            <==> promptLength < 4 && answerLength < 4
  {
  }

  // ---------------------------------------------------------------------------
  // Citations

  /** One citation: metadata fields defaulting to `""` (and `0` for the year),
      the first 400 characters of the text, the chunk's own (retrieval) score. */
  function CitationOf(c: Chunk): (cite: Citation)
    ensures cite.chunkId == Get(c.metadata, "chunk_id", Str(""))
    ensures cite.ticker == Get(c.metadata, "ticker", Str(""))
    ensures cite.formType == Get(c.metadata, "form_type", Str(""))
    ensures cite.filingYear == Get(c.metadata, "filing_year", Int(0))
    ensures cite.section == Get(c.metadata, "section", Str(""))
    ensures |cite.excerpt| == Min(ExcerptLimit, |c.text|) && cite.excerpt == c.text[..|cite.excerpt|]
    ensures cite.score == c.score
  {
    Citation(Get(c.metadata, "chunk_id", Str("")), Get(c.metadata, "ticker", Str("")),
             Get(c.metadata, "form_type", Str("")), Get(c.metadata, "filing_year", Int(0)),
             Get(c.metadata, "section", Str("")), Take(c.text, ExcerptLimit), c.score)
  }

  /** One citation per final chunk, in the same order as the context blocks. */
  function Citations(chunks: seq<Chunk>): (cs: seq<Citation>)
    ensures |cs| == |chunks|
    ensures forall k :: 0 <= k < |chunks| ==> cs[k] == CitationOf(chunks[k])
  {
    seq(|chunks|, k requires 0 <= k < |chunks| => CitationOf(chunks[k]))
  }

  // ---------------------------------------------------------------------------
  // answer_question

  /** `_USER_TMPL.format(context=..., question=...)`. */
  function UserPrompt(context: string, question: string): string {
    "Context passages from SEC filings:\n" + context + "\n\n---\nQuestion: " + question + "\n\nAnswer:"
  }

  function ChatFor(prompt: string): ChatRequest {
    ChatRequest(prompt, ChatModel, SystemPolicy, ChatTemperature, ChatMaxTokens)
  }

  const NoFilingsResult: AnswerResult := AnswerResult(NoFilingsAnswer, [], 0.0, 1.0)

  /** `answer_question`: embed, search with the filter, stop early on an empty
      result, rerank to five, build the prompt, generate, then estimate the
      cost, score faithfulness against the final chunks and cite them.
      Embedding, search and generation failures propagate; rerank failures do
      not. */
  method AnswerQuestion(question: string, ticker: Option<string>, formType: Option<string>,
                        filingYear: Option<int>,
                        embed: string -> Option<Vector>,
                        index: Query -> Option<seq<ScoredPoint>>,
                        rerank: RerankRequest -> Option<seq<nat>>,
                        chat: ChatRequest -> Option<string>)
    returns (result: Result<AnswerResult, PipelineError>, calls: seq<ServiceCall>)
    requires forall q :: index(q).Some? ==> TextsAreStrings(index(q).value)
    ensures embed(question).None? ==> result == Failure(EmbeddingFailed) && calls == [EmbedCall(question)]
    ensures embed(question).Some? ==>
              var query := Query(embed(question).value, QueryFilter(ConditionsFor(ticker, formType, filingYear)), TopK);
              && |calls| >= 2 && calls[..2] == [EmbedCall(question), SearchCall(query)]
              && (index(query).None? ==> result == Failure(RetrievalFailed) && |calls| == 2)
              && (index(query) == Some([]) ==> result == Success(NoFilingsResult) && |calls| == 2)
    ensures embed(question).Some? ==>
              var query := Query(embed(question).value, QueryFilter(ConditionsFor(ticker, formType, filingYear)), TopK);
              index(query).Some? && index(query).value != [] ==>
                var raw := ProjectHits(index(query).value);
                var top := Rerank(question, raw, TopN, rerank);
                var prompt := UserPrompt(Context(top), question);
                && calls == [EmbedCall(question), SearchCall(query),
                             RerankCall(RerankRequestFor(question, raw, TopN)), ChatCall(ChatFor(prompt))]
                && (chat(ChatFor(prompt)).None? ==> result == Failure(GenerationFailed))
                && (chat(ChatFor(prompt)).Some? ==>
                      var answer := Strip(chat(ChatFor(prompt)).value);
                      result == Success(AnswerResult(answer, Citations(top),
                                                     EstimateCost(ApproxTokens(|prompt|), ApproxTokens(|answer|)),
                                                     Faithfulness(answer, top))))
  {
    calls := [EmbedCall(question)];
    var queryVector := embed(question);
    if queryVector.None? {
      return Failure(EmbeddingFailed), calls;
    }
    var rawChunks, query := Search(queryVector.value, ticker, formType, filingYear, TopK, index);
    calls := calls + [SearchCall(query)];
    if rawChunks.None? {
      return Failure(RetrievalFailed), calls;
    }
    var raw := rawChunks.value;
    if raw == [] {
      return Success(NoFilingsResult), calls;
    }
    calls := calls + [RerankCall(RerankRequestFor(question, raw, TopN))];
    var top := Rerank(question, raw, TopN, rerank);
    var context := BuildContext(top);
    var prompt := UserPrompt(context, question);
    calls := calls + [ChatCall(ChatFor(prompt))];
    var reply := chat(ChatFor(prompt));
    if reply.None? {
      return Failure(GenerationFailed), calls;
    }
    var answer := Strip(reply.value);
    var cost := EstimateCost(ApproxTokens(|prompt|), ApproxTokens(|answer|));
    var faith := FaithfulnessScore(answer, top);
    result := Success(AnswerResult(answer, Citations(top), cost, faith));
  }
}
