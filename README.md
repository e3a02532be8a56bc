# A research assistant, modelled in Dafny

The system is a retrieval-augmented research assistant. It has the following parts:

- **Document loader.** Reads files and cuts their text into overlapping chunks that end at sentence boundaries.
- **Vector store.** Embeds those chunks and retrieves them by similarity. It renders what it retrieved as a numbered context.
- **RAG agent.** Answers questions, writes research summaries and chats on top of that context.
- **Task delegator.** Asks a language model to break a query into subtasks and parses the numbered list it answers with.
- **Web search tool.** Formats results from the Serper search API, and scrapes pages into clean text.
- **Research agent.** Combines all of these into a multi-step "deep research" run that ends in a Markdown report.

This project models how each part assembles the requests it sends to those services and turns their answers into results. It also proves properties of that behaviour.

The outside world appears as function-typed values:

- the language model is `LlmClient.Client.complete`, from a chat request to the answer text;
- the embedding model and the Chroma similarity query are the constants `embed` and `query` of `VectorStore.Store`;
- the Serper POST is `WebSearch.Tool.post`, where `Err` stands for a request exception;
- the page download and HTML-to-text pass is `fetch`;
- the file readers are `DocumentLoader.Readers`;
- the multi-source summariser is `synthesize` and `compare` in `ResearchAgent.Agent`.

Loops of the source are methods with loop invariants. Each is proved equal to a specification function, and the properties are proved about those functions:

- `chunk_text`, `_parse_subtasks`, `get_context_for_query`;
- `get_search_results`, `search_and_summarize`, `scrape_multiple_urls`;
- the subtask loop of `deep_research`, `_generate_final_report` and the loop of `research_from_urls`.

The vector store is a class. Its state is the sequence of `collection.add` calls made so far, `entries`. It also counts how many fresh document ids it has drawn, which stands in for `uuid4`.

Files, one module each:

- `document_loader.dfy`, `task_delegator.dfy`, `vector_store.dfy`, `llm_client.dfy`;
- `rag_agent.dfy`, `research_agent.dfy`, `web_search.dfy`;
- shared helpers: `text.dfy` (strip, split, join, find, case, number rendering, ASCII only), `seqs.dfy` (take, filters) and `wrappers.dfy` (`Option`, `Result`).

One behaviour of the code is modelled as written rather than as described. `RAGAgent.research` returns a record without `summary` or `num_sources` when the knowledge base holds nothing on the topic. `deep_research` reads `num_sources` and `compare_topics` reads `summary` without checking, so both raise `KeyError` in that case. The model returns `Err("KeyError: 'num_sources'")` or `Err("KeyError: 'summary'")` there. It proves that this happens exactly when the knowledge base search comes back empty. The subtask loop of `deep_research` takes Python's slice `subtasks[:max_iterations]`, so a negative `max_iterations` drops subtasks from the end. The model keeps that.

## Model

| member | source | states |
|---|---|---|
| DocumentLoader.BreakPointIsMaxRFind | tools/document_loader.py:142-146 | `max(chunk.rfind('.'), chunk.rfind('\n'))` is the offset of the window's last full stop or line break, or -1 when it has none |
| DocumentLoader.WindowEnd | tools/document_loader.py:137-148 | a window ends after its start and at most `chunk_size` past it; it is either full length or cut after a break lying past half its size |
| DocumentLoader.WindowEndInLoop | tools/document_loader.py:137-148 | the end the loop computes from the two `rfind`s and the 50% test is `WindowEnd` |
| DocumentLoader.WindowEndCut | tools/document_loader.py:140-148 | a window is cut short exactly when it stays inside the text and has a break past half its size; the cut falls just after its last break |
| DocumentLoader.WindowsFrom | tools/document_loader.py:136-151 | the loop visits no window exactly when its start is at or past the end of the text, and the first window starts at the start |
| DocumentLoader.WindowsFromWellFormed | tools/document_loader.py:136-151 | every visited window starts inside the text and ends where `WindowEnd` says |
| DocumentLoader.WindowsFromChained | tools/document_loader.py:151 | each window starts `chunk_overlap` before the end of the previous one, and starts strictly increase, so the loop ends |
| DocumentLoader.WindowsFromReachEnd | tools/document_loader.py:136-151 | after the last window the next start lies at or past the end of the text |
| DocumentLoader.Chunks | tools/document_loader.py:129-153 | one stripped chunk per window; no chunks exactly when the text is empty |
| DocumentLoader.WindowsLoopFacts | tools/document_loader.py:132-151 | windows start at 0, reach the end of the text, are well formed and overlap by `chunk_overlap` |
| DocumentLoader.ChunkEnd | tools/document_loader.py:137-148 | the loop body's end computation equals `WindowEnd` |
| DocumentLoader.ChunkText | tools/document_loader.py:113-153 | `chunk_text` returns exactly `Chunks` of its text |
| DocumentLoader.WindowsCover | tools/document_loader.py:136-151 | every character of the text lies inside some window: chunking skips nothing before stripping |
| DocumentLoader.WindowsOrdered | tools/document_loader.py:151 | any earlier window starts strictly before any later one |
| DocumentLoader.BaseName | tools/document_loader.py:179 | the base name holds no '/', ends the path and follows its last '/' |
| DocumentLoader.PathSuffix | tools/document_loader.py:100 | a non-empty suffix is '.' and at least one more character, with no further '.' or '/' |
| DocumentLoader.LoadDocument | tools/document_loader.py:86-110 | a missing file gives ""; otherwise the reader chosen by the lower-cased extension gives the text, and an unsupported one gives "" |
| DocumentLoader.UnsupportedExtensionLoadsNothing | tools/document_loader.py:106-110 | an extension other than .pdf, .docx and the text ones yields no text whatever the readers do |
| DocumentLoader.LoadAndChunkDocument | tools/document_loader.py:156-191 | no chunks exactly when the text loads as empty; chunk i carries chunk i of the text with the file's base name, index i and the chunk count |
| DocumentLoader.Tag | tools/document_loader.py:181-191 | each chunk is paired with its base name, its index and the total number of chunks |
| TaskDelegator.HeaderTitle | agents/task_delegator.py:67-73 | a header's first '.' is among its first three characters, and its title is the stripped text after that '.' |
| TaskDelegator.ParseSubtasks | agents/task_delegator.py:48-91 | the parsing loop returns `Parse` of the answer |
| TaskDelegator.StateAfterNumbered | agents/task_delegator.py:56-85 | the counter always equals the number of finished subtasks, which are numbered from 0, research steps without dependencies |
| TaskDelegator.ParseNumbered | agents/task_delegator.py:48-91 | parsed subtask k has id k, action type "research" and no dependencies |
| TaskDelegator.StateAfterTitles | agents/task_delegator.py:56-85 | every header line read so far has opened exactly one subtask, finished or open, in order |
| TaskDelegator.ParseTitles | agents/task_delegator.py:48-91 | one subtask per header line of the stripped answer, in order, titled after it |
| TaskDelegator.ParseNoHeaders | agents/task_delegator.py:66-91 | an answer with no header line gives no subtasks |
| TaskDelegator.ParseEmpty | agents/task_delegator.py:51-91 | the empty answer gives no subtasks |
| TaskDelegator.StepText | agents/task_delegator.py:80-84 | a text line extends the open subtask's description by a space and the stripped line, and is dropped when no subtask is open |
| TaskDelegator.StepBlank | agents/task_delegator.py:58-64 | a blank line closes the open subtask, if any, and leaves none open |
| TaskDelegator.Prioritize | agents/task_delegator.py:104-107 | the result is a permutation of the tasks |
| TaskDelegator.PrioritizePartitioned | agents/task_delegator.py:104-107 | no task with dependencies precedes one without |
| TaskDelegator.PrioritizeStable | agents/task_delegator.py:104-107 | within each group the tasks keep their input order |
| TaskDelegator.PrioritizeParsed | agents/task_delegator.py:104-107 | prioritising parsed subtasks changes nothing, because they have no dependencies |
| TaskDelegator.IdentifyTaskType | agents/task_delegator.py:140-161 | the type is that of the first keyword group, in the order comparison, analysis, summarization, synthesis, that the lower-cased task mentions, and "research" exactly when it mentions none |
| TaskDelegator.IdentifyTaskTypeIgnoresCase | agents/task_delegator.py:150-161 | tasks equal up to letter case get the same type |
| TaskDelegator.IdentifyTaskTypeOfLower | agents/task_delegator.py:150-161 | classifying the lower-cased task gives the same type |
| TaskDelegator.ComplexityOf | agents/task_delegator.py:176-181 | "simple" exactly for at most 3 subtasks, "moderate" for 4 or 5, "complex" above 5 |
| TaskDelegator.ComplexityMonotone | agents/task_delegator.py:176-181 | more subtasks never give a lower complexity |
| TaskDelegator.DecomposeTask | agents/task_delegator.py:14-46 | the subtasks are those parsed from the answer to the decomposition prompt and system prompt at temperature 0.3, numbered from 0 |
| TaskDelegator.CreateResearchPlan | agents/task_delegator.py:109-138 | the plan carries the query, the answer to the plan prompt at temperature 0.3, and the decomposed subtasks |
| TaskDelegator.ResearchPlanSubtasks | agents/task_delegator.py:134-138 | the plan's subtasks are numbered and titled after the header lines of the planner's answer, one each, in order |
| TaskDelegator.EstimateComplexity | agents/task_delegator.py:163-181 | the level is the threshold level of the number of decomposed subtasks |
| VectorStore.Unwrap | utils/vector_store.py:120-125 | each field is the first query's list, or empty when the store returned none |
| VectorStore.ContextBlockHeader | utils/vector_store.py:152-154 | block i opens with "[Source i: " |
| VectorStore.Blocks | utils/vector_store.py:143-154 | one block per triple `zip` forms, which stops at the shortest list |
| VectorStore.BlocksContents | utils/vector_store.py:143-154 | block i renders the i-th retrieved document with its source and relevance label, numbered i + 1 in retrieval order; a metadata without "source" shows "Unknown" |
| VectorStore.ContextStartsWithFirstBlock | utils/vector_store.py:143-156 | a context with at least one block starts with "[Source 1: " |
| VectorStore.ContextIsSentinelIff | utils/vector_store.py:138-156 | the context is "No relevant context found." exactly when no document was retrieved; documents without metadata render as "" |
| VectorStore.DefaultMetadatas | utils/vector_store.py:79-80 | one metadata per document, each the default `{"source": "unknown"}` |
| VectorStore.FreshIds | utils/vector_store.py:72-73 | one id per document, drawn in order from the supply, `uuid(first + i)` for document i |
| VectorStore.EmbedAll | utils/vector_store.py:76 | one embedding per document |
| VectorStore.Store.constructor | utils/vector_store.py:18-49 | a new store has made no `add` call and drawn no id |
| VectorStore.Store.AddCall | utils/vector_store.py:68-88 | the `add` call carries the documents, one embedding each, the caller's metadatas and ids unchanged when given, and otherwise `{"source": "unknown"}` and fresh id `uuid(first + i)` for document i |
| VectorStore.Store.AddDocuments | utils/vector_store.py:51-91 | no documents change nothing and return []; otherwise exactly one `add` call is appended, returning its ids and drawing fresh ids only when none were given |
| VectorStore.Store.Search | utils/vector_store.py:93-125 | the result is the unwrapped answer of the collection, given everything added so far, to the query's embedding |
| VectorStore.Store.GetContextForQuery | utils/vector_store.py:127-156 | the loop renders `ContextFor` of the search result |
| LlmClient.GenerateMessages | utils/llm_client.py:79-84 | a system message comes first exactly when the system prompt is non-empty; the prompt is the last message |
| LlmClient.GenerateRequest | utils/llm_client.py:60-86 | the request carries the client's model and the temperature and token limit unchanged |
| LlmClient.Generate | utils/llm_client.py:60-86 | the answer is the model's answer to that request |
| LlmClient.GenerateOneUserMessage | utils/llm_client.py:79-84 | exactly one user message, and it comes last |
| LlmClient.AnalysisSystemPrompt | utils/llm_client.py:105-107 | the instruction when non-empty, the default assistant prompt otherwise; never empty |
| LlmClient.AnalyzeWithContext | utils/llm_client.py:88-116 | the answer to the context-and-question prompt under that system prompt at the default settings |
| LlmClient.Summarize | utils/llm_client.py:118-137 | one user message, temperature 0.5, at most 1024 tokens |
| LlmClient.KeyLines | utils/llm_client.py:161-162 | kept lines are non-empty and contain a letter or digit |
| LlmClient.KeyLinesMembers | utils/llm_client.py:162 | a string is a key point exactly when it is the stripped form of some line that is non-blank and has a letter or digit |
| LlmClient.KeyLinesSingle | utils/llm_client.py:162 | one line gives its stripped form exactly when it qualifies, and nothing otherwise; with `KeyLinesAppend` this fixes the whole result |
| LlmClient.KeyLinesAppend | utils/llm_client.py:162 | key points keep the order of the lines they come from |
| LlmClient.KeyLinesStripped | utils/llm_client.py:162 | every key point is already stripped |
| LlmClient.KeyPointsOf | utils/llm_client.py:158-164 | at most `num_points` points for a non-negative count, each stripped, non-empty and with a letter or digit |
| LlmClient.ExtractKeyPoints | utils/llm_client.py:139-164 | the points are read from the answer to the key-points prompt at temperature 0.3 |
| RagAgent.QueryFallsBackIffNothingRetrieved | agents/rag_agent.py:104-124 | with nothing retrieved the answer is the model's direct answer, without note; otherwise it is the answer from the context under the query instruction, ending with the note exactly when sources are asked for |
| RagAgent.DepthResults | agents/rag_agent.py:142-146 | 3 exactly for "quick", 10 exactly for "comprehensive", 5 for anything else |
| RagAgent.KbSources | agents/rag_agent.py:180-191 | one source entry per zipped triple |
| RagAgent.ResearchShape | agents/rag_agent.py:148-192 | no documents give the fixed answer with no sources; otherwise the positive document count, a source per triple and the model's summary of the context at temperature 0.5 |
| RagAgent.KbSourceText | agents/rag_agent.py:182-184 | each cited text is the first 200 characters of its document followed by "...", at most 203 in all; its metadata is the document's and its relevance is `1 - distance` |
| RagAgent.HistoryWindow | agents/rag_agent.py:219-220 | the last min(6, n) history entries, none without history |
| RagAgent.ChatWindow | agents/rag_agent.py:209-222 | one system message with the context, then the history window, then the user message: 2 to 8 messages |
| RagAgent.ChunkTexts | agents/rag_agent.py:80 | one text per chunk |
| RagAgent.ChunkMetadatas | agents/rag_agent.py:81 | one metadata per chunk |
| RagAgent.Agent.constructor | agents/rag_agent.py:16-35 | the agent holds the given model, store and readers |
| RagAgent.Agent.AddDocuments | agents/rag_agent.py:47-62 | the store's `add_documents` with fresh ids |
| RagAgent.Agent.AddDocumentFile | agents/rag_agent.py:64-85 | returns the number of chunks; 0 exactly when the file loads as no text, and then the store is unchanged; otherwise one `add` call with the chunk texts and metadatas |
| RagAgent.Agent.Query | agents/rag_agent.py:87-124 | the answer is `QueryAnswer` of the rendered context |
| RagAgent.Agent.Research | agents/rag_agent.py:126-192 | the result is `ResearchOf` the search at the depth's result count |
| RagAgent.Agent.Chat | agents/rag_agent.py:194-224 | the reply is the model's answer to `ChatMessages` at the default settings |
| WebSearch.NewTool | tools/web_search.py:15-24 | the tool is built exactly when the key is non-empty; otherwise the "not found" error |
| WebSearch.Search | tools/web_search.py:26-61 | the decoded response, or on a request exception an empty organic list with the error |
| WebSearch.SearchResults | tools/web_search.py:74-90 | at most `num_results` results for a non-negative count |
| WebSearch.GetSearchResults | tools/web_search.py:63-90 | the formatting loop returns `SearchResults` |
| WebSearch.SearchResultsInOrder | tools/web_search.py:79-90 | without an error, result i is organic result i with each field defaulting to "", and there are min(n, organic) of them |
| WebSearch.SearchFailureGivesNoResults | tools/web_search.py:59-77 | a failed request, or any response with an error, gives no results |
| WebSearch.ResultLines | tools/web_search.py:111-115 | four lines for a dated result, three otherwise |
| WebSearch.SearchAndSummarize | tools/web_search.py:92-117 | the loop renders `Summary` of the results |
| WebSearch.SummaryPartsCount | tools/web_search.py:110-115 | three lines per result plus one per dated result |
| WebSearch.SummaryIsSentinelIff | tools/web_search.py:103-117 | the summary is "No search results found." exactly when there are no results; otherwise it starts with the header |
| WebSearch.AnswerOf | tools/web_search.py:133-135 | a non-empty "answer", else the "snippet" when present, else nothing |
| WebSearch.GetAnswerBox | tools/web_search.py:119-137 | nothing when the answer box is absent or empty, otherwise `AnswerOf` it |
| WebSearch.RelatedQueries | tools/web_search.py:153 | at most one query per item, none empty |
| WebSearch.RelatedQueriesMembers | tools/web_search.py:153 | a query is listed exactly when it is non-empty and some item carries it |
| WebSearch.RelatedQueriesAppend | tools/web_search.py:153 | related queries keep the items' order |
| WebSearch.GetRelatedSearches | tools/web_search.py:139-153 | the queries of the response's related searches, or none |
| WebSearch.CleanLines | tools/web_search.py:191 | no more lines than given, none empty |
| WebSearch.StripNoBreak | tools/web_search.py:191 | stripping cannot add a line break |
| WebSearch.CleanLinesShape | tools/web_search.py:191 | cleaned lines are stripped and free of line breaks |
| WebSearch.CleanLinesFixed | tools/web_search.py:191 | cleaning stripped non-empty lines changes nothing |
| WebSearch.CleanTextIdempotent | tools/web_search.py:191-192 | cleaning cleaned text changes nothing |
| WebSearch.ScrapeUrl | tools/web_search.py:160-198 | nothing exactly when the download fails; otherwise the cleaned text |
| WebSearch.PutFacts | tools/web_search.py:216 | after `results[url] = content` the URL maps to the content, other URLs keep theirs, and no URL appears twice |
| WebSearch.ScrapeMultipleUrls | tools/web_search.py:201-218 | the loop builds `Scraped` of the URLs |
| WebSearch.ScrapedFacts | tools/web_search.py:211-218 | each URL appears once, exactly when it was asked for and its page gave non-empty text, and maps to that cleaned text |
| ResearchAgent.WebLines | agents/research_agent.py:85-88 | one line per web result |
| ResearchAgent.GatherShape | agents/research_agent.py:64-96 | fails exactly when the knowledge base is used and holds nothing; otherwise at most two entries, the knowledge base first exactly when used, the web last exactly when used and non-empty, quoting at most three results |
| ResearchAgent.FailedSearchGathersNoWeb | agents/research_agent.py:79-96 | a failed web search contributes no entry |
| ResearchAgent.Contents | agents/research_agent.py:106 | one content per gathered entry |
| ResearchAgent.Results | agents/research_agent.py:124 | one result per subtask result |
| ResearchAgent.SubtaskResults | agents/research_agent.py:101-118 | one analysis per subtask |
| ResearchAgent.SynthesisInput | agents/research_agent.py:123-126 | the synthesis reads min(5, all) contents |
| ResearchAgent.SynthesisInputOrder | agents/research_agent.py:123-126 | gathered contents come first, subtask results fill the remaining places |
| ResearchAgent.FindingBlocks | agents/research_agent.py:180-182 | block k is the finding block numbered k + 1 for subtask result k, one per result, in order |
| ResearchAgent.FindingBlockShape | agents/research_agent.py:181-182 | a block names its number and subtask and shows a prefix of at most 400 characters of the result, then "..." |
| ResearchAgent.KbSourceType | agents/research_agent.py:187 | "knowledge_base" reads as "Knowledge Base" |
| ResearchAgent.WebSourceType | agents/research_agent.py:187 | "web_search" reads as "Web Search" |
| ResearchAgent.SourceLines | agents/research_agent.py:186-188 | line k is the source line numbered k + 1 for gathered entry k, one per entry, in order |
| ResearchAgent.Conclusion | agents/research_agent.py:192 | the last min(300, n) characters of the synthesis |
| ResearchAgent.ReportCounts | agents/research_agent.py:101-154 | the report counts the gathered entries and covers the plan's subtasks `[:max_iterations]`, in order, each under its title |
| ResearchAgent.KnowledgeCalls | agents/research_agent.py:280-282 | one `add` call per scraped page |
| ResearchAgent.QuickWebOnFailure | agents/research_agent.py:241-245 | a failed web search leaves the web part of the quick context empty |
| ResearchAgent.Agent.constructor | agents/research_agent.py:18-27 | the agent holds the given components |
| ResearchAgent.Agent.DeepResearchFails | agents/research_agent.py:67-76 | deep research fails with the `num_sources` KeyError exactly when the knowledge base is used and its search comes back empty |
| ResearchAgent.Agent.GatherInfo | agents/research_agent.py:64-96 | step 2 gathers `Gather` of the knowledge base record and the web results |
| ResearchAgent.Agent.ProcessSubtasks | agents/research_agent.py:101-118 | step 3 returns `SubtaskResults` over the joined contents |
| ResearchAgent.Agent.DeepResearch | agents/research_agent.py:29-154 | the result is `DeepResearchOf` the query against the current knowledge base |
| ResearchAgent.Agent.GenerateFinalReport | agents/research_agent.py:156-194 | the two loops write `FinalReport` |
| ResearchAgent.Agent.CompareTopics | agents/research_agent.py:196-225 | fails with the `summary` KeyError exactly when either topic finds nothing; otherwise compares both summaries |
| ResearchAgent.Agent.QuickAnswer | agents/research_agent.py:227-250 | the answer from the knowledge-base context and the first two web results |
| ResearchAgent.Agent.AddKnowledge | agents/research_agent.py:252-261 | one `add` call with the content tagged by its source, one fresh id |
| ResearchAgent.Agent.StorePages | agents/research_agent.py:280-282 | each page goes in, cut to 5000 characters and tagged with its URL, one fresh id each |
| ResearchAgent.Agent.ResearchFromUrls | agents/research_agent.py:263-285 | the scraped pages are stored, then the result is deep research without the web |

## Left out

- External services: the Groq chat API, Chroma, the SentenceTransformer model, the Serper HTTP call, `requests` and BeautifulSoup. Each is a function parameter, so the model states what is sent to them and how their answers are used, not what they answer.
- The file readers (`load_text_file`, `load_pdf`, `load_docx`) and `os.path.exists` are the `Readers` functions. Their exception handling is inside them.
- `load_directory` and `RAGAgent._auto_load_documents` are not modelled: they walk the file system.
- Environment variables and the printed progress messages are not modelled. `WebSearch.NewTool` takes the key's value as a parameter.
- Exceptions from the language model and streamed completions are not modelled. `chat_completion` re-raises, and the model's `complete` always answers.
- Distances, relevance and temperatures are `real`. The `:.2f` rendering of `1 - distance` is the store's `relevanceLabel` parameter, so the exact digits are not modelled; `1 - dist` in `research` is exact real arithmetic.
- Text handling is ASCII:
  - `strip`, `isdigit`, `isalnum`, `lower`, `title` and `splitlines` treat non-ASCII characters as ordinary characters;
  - `splitlines` is modelled as a split at every line-boundary character. After the cleanup in `scrape_url` this is the same once empty lines are dropped.
- `BeautifulSoup.get_text` and the removal of script, style, navigation, footer and header elements are part of `fetch`.
- tools/summarizer.py is not part of this model. `synthesize_multiple_sources` and `compare_documents` are the functions `synthesize` and `compare`.
- `uuid.uuid4()` is a numbered supply of identifiers, `uuid(k)`; their uniqueness is not modelled.
- `delete_collection`, `get_collection_stats`, `update_document`, `delete_documents` and `RAGAgent.get_stats` are not modelled. They are thin pass-throughs to Chroma.
- Metadata values are strings or integers only. Chroma also stores floats and booleans, which caller metadata may carry; their rendering in the context is not modelled.
- Serper responses are typed: each field the tool reads holds a string or a list of string-valued objects. Other JSON values are not modelled.
- `deep_research` catches any exception of the web search, and `quick_answer` uses a bare `except`. The modelled `get_search_results` already turns request failures into `[]` and raises nothing else, so no handler is modelled.
- DocumentLoader.ChunkText: requires chunk parameters for which the loop always moves forward: size at least 1, overlap not negative and at most half the size. The code checks none of these. With a larger overlap, an early cut can move the next start backwards, and the loop never ends.
- DocumentLoader.PathSuffix: models POSIX paths only. On Windows `Path` also splits at '\'. Trailing "." components are not collapsed as `pathlib` does: `notes.txt/.` gets no suffix here, where `pathlib` gives ".txt". Such a path names a directory, and reading it gives "" either way.
- TaskDelegator.Prioritize: a task without a `dependencies` key is modelled as one with an empty list. Parsed tasks always have the key.
- ResearchAgent.Agent.ResearchFromUrls: the model's scraped dictionary holds only pages with non-empty text. The `if content:` test in the loop therefore always passes.
