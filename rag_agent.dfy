/** The retrieval-augmented agent (agents/rag_agent.py): it answers from the
    document store when the store has something relevant and straight from the
    language model otherwise; it turns files into stored chunks, summarises a
    topic from its sources, and chats over a short window of history. */
module RagAgent {
  import opened Wrappers
  import opened Text
  import opened Seqs
  import opened LlmClient
  import opened VectorStore
  import DocumentLoader

  // ---------------------------------------------------------------
  // query

  const FALLBACK_HEAD: string := "Answer this question to the best of your knowledge: "

  const QUERY_INSTRUCTION: string :=
    "You are a knowledgeable research assistant. \n        Use the provided context to answer questions accurately and comprehensively.\n        If the context doesn't contain enough information, say so clearly.\n        Always cite sources using [Source X] notation when referencing information."

  const SOURCES_NOTE: string := "\n\n---\n[Context retrieved from knowledge base]"

  /** The answer `query` gives for a rendered context: a direct answer when
      the context is the no-context sentinel, otherwise an answer from the
      context, marked as such when sources are asked for. */
  function QueryAnswer(llm: Client, question: string, context: string, includeSources: bool): string {
    if context == NO_CONTEXT then
      Generate(llm, FALLBACK_HEAD + question, None, DEFAULT_TEMPERATURE, DEFAULT_MAX_TOKENS)
    else
      var answer := AnalyzeWithContext(llm, question, context, Some(QUERY_INSTRUCTION));
      if includeSources then answer + SOURCES_NOTE else answer
  }

  /** The agent answers directly, without any note, exactly when nothing was
      retrieved; an answer from retrieved text ends with the note exactly
      when sources are asked for. */
  lemma QueryFallsBackIffNothingRetrieved(llm: Client, question: string, r: SearchResult, labelOf: real -> string, includeSources: bool)
    ensures r.documents == [] ==>
      QueryAnswer(llm, question, ContextFor(r, labelOf), includeSources)
        == llm.complete(GenerateRequest(llm, FALLBACK_HEAD + question, None, DEFAULT_TEMPERATURE, DEFAULT_MAX_TOKENS))
    ensures r.documents != [] ==>
      var answer := llm.complete(GenerateRequest(llm, AnalysisPrompt(question, ContextFor(r, labelOf)),
        Some(QUERY_INSTRUCTION), DEFAULT_TEMPERATURE, DEFAULT_MAX_TOKENS));
      QueryAnswer(llm, question, ContextFor(r, labelOf), includeSources)
        == if includeSources then answer + SOURCES_NOTE else answer
  {
    ContextIsSentinelIff(r, labelOf);
    assert AnalysisSystemPrompt(Some(QUERY_INSTRUCTION)) == QUERY_INSTRUCTION;
  }

  // ---------------------------------------------------------------
  // research

  /** `{'quick': 3, 'standard': 5, 'comprehensive': 10}.get(depth, 5)` */
  function DepthResults(depth: string): (n: int)
    ensures n == 3 <==> depth == "quick"
    ensures n == 10 <==> depth == "comprehensive"
    ensures depth != "quick" && depth != "comprehensive" ==> n == 5
  {
    if depth == "quick" then 3
    else if depth == "standard" then 5
    else if depth == "comprehensive" then 10
    else 5
  }

  /** One entry of `research`'s sources: the start of the text, the metadata
      and `1 - distance`. */
  datatype KbSource = KbSource(text: string, metadata: Metadata, relevance: real)

  /** What `research` returns: without documents a record with only an answer
      and no sources; with documents a summary and the number of sources.
      The first has no `summary` and no `num_sources`. */
  datatype ResearchResult =
    | NoInfo(topic: string, answer: string, sources: seq<KbSource>)
    | Found(topic: string, summary: string, numSources: int, sources: seq<KbSource>)

  const NO_INFO: string := "No relevant information found in knowledge base."

  const RESEARCH_HEAD: string := "Based on the following context, provide a comprehensive research summary about: "
  const RESEARCH_MIDDLE: string := "\n\nContext:\n"
  const RESEARCH_TAIL: string :=
    "\n\nProvide:\n1. Overview (2-3 paragraphs)\n2. Key Points (bullet points)\n3. Important Details\n4. Conclusions/Implications\n\nResearch Summary:"

  function ResearchPrompt(topic: string, context: string): string {
    RESEARCH_HEAD + topic + RESEARCH_MIDDLE + context + RESEARCH_TAIL
  }

  /** `doc[:200] + '...'` with the metadata and `1 - dist` of each zipped
      triple. */
  function KbSources(r: SearchResult): (ss: seq<KbSource>)
    ensures |ss| == ZipLength(r)
  {
    seq(ZipLength(r), i requires 0 <= i < ZipLength(r) =>
      KbSource(Take(r.documents[i], 200) + "...", r.metadatas[i], 1.0 - r.distances[i]))
  }

  /** The result `research` builds from a search result. */
  function ResearchOf(llm: Client, topic: string, r: SearchResult, labelOf: real -> string): ResearchResult {
    if r.documents == [] then NoInfo(topic, NO_INFO, [])
    else
      var summary := Generate(llm, ResearchPrompt(topic, ContextFor(r, labelOf)), None, 0.5, 2048);
      Found(topic, summary, |r.documents|, KbSources(r))
  }

  /** Without documents the result is the fixed answer with no sources and
      no summary; with documents it counts them (so the count is positive),
      cites each zipped triple with its text cut to 200 characters and
      `"..."`, and summarises the rendered context. */
  lemma ResearchShape(llm: Client, topic: string, r: SearchResult, labelOf: real -> string)
    ensures var res := ResearchOf(llm, topic, r, labelOf);
      && res.topic == topic
      && (res.NoInfo? <==> r.documents == [])
      && (res.NoInfo? ==> res.answer == NO_INFO && res.sources == [])
      && (res.Found? ==>
           && res.numSources == |r.documents| > 0
           && |res.sources| == ZipLength(r)
           && res.summary == llm.complete(GenerateRequest(llm, ResearchPrompt(topic, ContextFor(r, labelOf)), None, 0.5, 2048)))
  {
  }

  /** Each cited source shows at most 203 characters: the first 200
      characters of its document, then `"..."`, with the document's metadata
      and relevance `1 - distance`. */
  lemma KbSourceText(r: SearchResult, i: nat)
    requires i < ZipLength(r)
    ensures |KbSources(r)[i].text| <= 203
    ensures KbSources(r)[i].text == Take(r.documents[i], 200) + "..."
    ensures KbSources(r)[i].metadata == r.metadatas[i]
    ensures KbSources(r)[i].relevance == 1.0 - r.distances[i]
  {
  }

  // ---------------------------------------------------------------
  // chat

  const CHAT_HEAD: string :=
    "You are a helpful AI assistant with access to a knowledge base.\n        Use the following context when relevant to answer questions:\n        \n        "
  const CHAT_TAIL: string := "\n        "

  /** At most the last six history entries, none when there is no history. */
  function HistoryWindow(history: Option<seq<Message>>): (w: seq<Message>)
    ensures |w| <= 6
    ensures history.Some? ==> |w| == Min(6, |history.value|) && w == history.value[|history.value| - |w|..]
    ensures history.None? ==> w == []
  {
    if history.Some? && history.value != [] then TakeLast(history.value, 6) else []
  }

  /** The messages `chat` sends. */
  function ChatMessages(context: string, message: string, history: Option<seq<Message>>): seq<Message> {
    [Message("system", CHAT_HEAD + context + CHAT_TAIL)] + HistoryWindow(history) + [Message("user", message)]
  }

  /** One system message carrying the context, then the history window in
      order, then the user's message. */
  lemma ChatWindow(context: string, message: string, history: Option<seq<Message>>)
    ensures var ms := ChatMessages(context, message, history);
      && 2 <= |ms| <= 8
      && ms[0] == Message("system", CHAT_HEAD + context + CHAT_TAIL)
      && ms[1..|ms| - 1] == HistoryWindow(history)
      && ms[|ms| - 1] == Message("user", message)
  {
    var ms := ChatMessages(context, message, history);
    assert ms[1..|ms| - 1] == HistoryWindow(history);
  }

  // ---------------------------------------------------------------
  // adding files

  /** A chunk's metadata as the store keeps it. */
  function ChunkMetadataOf(m: DocumentLoader.ChunkMetadata): Metadata {
    map["source" := Str(m.source), "chunk_index" := Int(m.chunkIndex), "total_chunks" := Int(m.totalChunks)]
  }

  function ChunkTexts(chunks: seq<DocumentLoader.TaggedChunk>): (ts: seq<string>)
    ensures |ts| == |chunks|
  {
    seq(|chunks|, i requires 0 <= i < |chunks| => chunks[i].text)
  }

  function ChunkMetadatas(chunks: seq<DocumentLoader.TaggedChunk>): (ms: seq<Metadata>)
    ensures |ms| == |chunks|
  {
    seq(|chunks|, i requires 0 <= i < |chunks| => ChunkMetadataOf(chunks[i].metadata))
  }

  /** The chunks `add_document_file` stores for a file, with the default
      chunk size and overlap. */
  function FileChunks(path: string, readers: DocumentLoader.Readers): seq<DocumentLoader.TaggedChunk> {
    DocumentLoader.LoadAndChunkDocument(path, readers, DocumentLoader.DEFAULT_CHUNK_SIZE, DocumentLoader.DEFAULT_CHUNK_OVERLAP)
  }

  class Agent {
    const llm: Client
    const store: Store
    const readers: DocumentLoader.Readers

    /** `RAGAgent.__init__` without loading a documents directory. */
    constructor(llm: Client, store: Store, readers: DocumentLoader.Readers)
      ensures this.llm == llm && this.store == store && this.readers == readers
    {
      this.llm := llm;
      this.store := store;
      this.readers := readers;
    }

    /** `RAGAgent.add_documents`: the store's own `add_documents` with fresh ids. */
    method AddDocuments(documents: seq<string>, metadatas: Option<seq<Metadata>>) returns (ids: seq<string>)
      modifies store
      ensures documents == [] ==> ids == [] && store.entries == old(store.entries) && store.idsIssued == old(store.idsIssued)
      ensures documents != [] ==>
        && ids == FreshIds(store.uuid, old(store.idsIssued), |documents|)
        && store.idsIssued == old(store.idsIssued) + |documents|
        && store.entries == old(store.entries) + [store.AddCall(documents, metadatas, None, old(store.idsIssued))]
    {
      ids := store.AddDocuments(documents, metadatas, None);
    }

    /** `RAGAgent.add_document_file`: the number of chunks stored, nothing
        stored for a file that loads as no text. */
    method AddDocumentFile(path: string) returns (count: int)
      modifies store
      ensures count == |FileChunks(path, readers)|
      ensures count == 0 <==> DocumentLoader.LoadDocument(path, readers) == ""
      ensures count == 0 ==> store.entries == old(store.entries) && store.idsIssued == old(store.idsIssued)
      ensures count > 0 ==>
        && store.idsIssued == old(store.idsIssued) + count
        && store.entries == old(store.entries)
             + [store.AddCall(ChunkTexts(FileChunks(path, readers)), Some(ChunkMetadatas(FileChunks(path, readers))), None, old(store.idsIssued))]
    {
      var chunks := DocumentLoader.LoadAndChunkDocument(path, readers, DocumentLoader.DEFAULT_CHUNK_SIZE, DocumentLoader.DEFAULT_CHUNK_OVERLAP);
      if chunks == [] {
        return 0;
      }
      var documents := ChunkTexts(chunks);
      var metadatas := ChunkMetadatas(chunks);
      var _ := AddDocuments(documents, Some(metadatas));
      return |chunks|;
    }

    /** `RAGAgent.query` */
    method Query(question: string, nResults: int, includeSources: bool) returns (answer: string)
      ensures answer == QueryAnswer(llm, question, ContextFor(store.Search(question, nResults, None), store.relevanceLabel), includeSources)
    {
      var context := store.GetContextForQuery(question, nResults);
      if context == NO_CONTEXT {
        return Generate(llm, FALLBACK_HEAD + question, None, DEFAULT_TEMPERATURE, DEFAULT_MAX_TOKENS);
      }
      answer := AnalyzeWithContext(llm, question, context, Some(QUERY_INSTRUCTION));
      if includeSources {
        answer := answer + SOURCES_NOTE;
      }
    }

    /** `RAGAgent.research` */
    method Research(topic: string, depth: string) returns (r: ResearchResult)
      ensures r == ResearchOf(llm, topic, store.Search(topic, DepthResults(depth), None), store.relevanceLabel)
    {
      var nResults := DepthResults(depth);
      var searchResults := store.Search(topic, nResults, None);
      if searchResults.documents == [] {
        return NoInfo(topic, NO_INFO, []);
      }
      var context := store.GetContextForQuery(topic, nResults);
      var summary := Generate(llm, ResearchPrompt(topic, context), None, 0.5, 2048);
      r := Found(topic, summary, |searchResults.documents|, KbSources(searchResults));
    }

    /** `RAGAgent.chat` */
    method Chat(message: string, history: Option<seq<Message>>) returns (reply: string)
      ensures reply == llm.complete(ChatRequest(llm.model,
        ChatMessages(ContextFor(store.Search(message, 3, None), store.relevanceLabel), message, history),
        DEFAULT_TEMPERATURE, DEFAULT_MAX_TOKENS))
    {
      var context := store.GetContextForQuery(message, 3);
      var messages: seq<Message> := [];
      var systemMsg := CHAT_HEAD + context + CHAT_TAIL;
      messages := messages + [Message("system", systemMsg)];
      if history.Some? && history.value != [] {
        messages := messages + TakeLast(history.value, 6);
      }
      messages := messages + [Message("user", message)];
      assert messages == ChatMessages(context, message, history);
      reply := ChatCompletion(llm, messages, DEFAULT_TEMPERATURE, DEFAULT_MAX_TOKENS);
    }
  }
}
