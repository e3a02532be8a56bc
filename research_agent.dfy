/** The research orchestrator (agents/research_agent.py): it plans a query
    into subtasks, gathers material from the knowledge base and the web,
    analyses each subtask over that material, and writes a report. The
    summariser's synthesis and comparison are functions handed to it. */
module ResearchAgent {
  import opened Wrappers
  import opened Text
  import opened Seqs
  import opened LlmClient
  import opened VectorStore
  import RagAgent
  import TaskDelegator
  import WebSearch

  // ---------------------------------------------------------------
  // gathered material

  /** An entry of `gathered_info`: where it came from, its content, and the
      one count its metadata holds (`{'num_sources': n}` or `{'num_results': n}`). */
  datatype Info = Info(source: string, content: string, countKey: string, count: int)

  /** An entry of `subtask_results`. */
  datatype SubtaskResult = SubtaskResult(subtask: string, result: string)

  const KB_SOURCE: string := "knowledge_base"
  const WEB_SOURCE: string := "web_search"

  /** `research` raises `KeyError` on a record without documents. */
  const MISSING_NUM_SOURCES: string := "KeyError: 'num_sources'"
  const MISSING_SUMMARY: string := "KeyError: 'summary'"

  /** The knowledge-base entry. */
  function KbInfo(kb: RagAgent.ResearchResult): Info
    requires kb.Found?
  {
    Info(KB_SOURCE, kb.summary, "num_sources", kb.numSources)
  }

  /** `f"{r['title']}: {r['snippet']}"` */
  function WebLine(r: WebSearch.WebResult): string {
    r.title + ": " + r.snippet
  }

  function WebLines(rs: seq<WebSearch.WebResult>): (ls: seq<string>)
    ensures |ls| == |rs|
  {
    seq(|rs|, i requires 0 <= i < |rs| => WebLine(rs[i]))
  }

  /** The web entry: the first three results, one paragraph each, and the
      number of results. */
  function WebInfo(rs: seq<WebSearch.WebResult>): Info {
    Info(WEB_SOURCE, Join("\n\n", WebLines(Take(rs, 3))), "num_results", |rs|)
  }

  /** `gathered_info` after both sources were asked: the knowledge base only
      when it is used and found documents (and a record without documents
      raises `KeyError` there), then the web only when it is used and gave
      results. */
  function Gather(useKb: bool, kb: RagAgent.ResearchResult, useWeb: bool, web: seq<WebSearch.WebResult>): (g: Result<seq<Info>>)
  {
    if useKb && kb.NoInfo? then Err(MISSING_NUM_SOURCES)
    else
      Ok((if useKb && kb.numSources > 0 then [KbInfo(kb)] else [])
        + (if useWeb && web != [] then [WebInfo(web)] else []))
  }

  /** At most two entries; the knowledge-base entry comes first and is there
      exactly when the knowledge base is used; the web entry is there exactly
      when the web is used and gave results, and quotes at most three of them. */
  lemma GatherShape(useKb: bool, kb: RagAgent.ResearchResult, useWeb: bool, web: seq<WebSearch.WebResult>,
                    llm: Client, query: string, r: SearchResult, labelOf: real -> string)
    requires kb == RagAgent.ResearchOf(llm, query, r, labelOf)
    ensures Gather(useKb, kb, useWeb, web).Err? <==> useKb && r.documents == []
    ensures var g := Gather(useKb, kb, useWeb, web);
      g.Ok? ==>
        && |g.value| <= 2
        && (useKb <==> g.value != [] && g.value[0].source == KB_SOURCE)
        && (useWeb && web != [] <==> g.value != [] && g.value[|g.value| - 1].source == WEB_SOURCE)
        && (useWeb && web != [] ==> g.value[|g.value| - 1] == Info(WEB_SOURCE, Join("\n\n", WebLines(Take(web, 3))), "num_results", |web|))
  {
    RagAgent.ResearchShape(llm, query, r, labelOf);
  }

  /** A failed web search contributes nothing. */
  lemma FailedSearchGathersNoWeb(tool: WebSearch.Tool, query: string, useKb: bool, kb: RagAgent.ResearchResult, useWeb: bool)
    requires tool.post(WebSearch.SearchRequest(tool, query, 5)).Err?
    requires Gather(useKb, kb, useWeb, WebSearch.SearchResults(tool, query, 5)).Ok?
    ensures forall i :: 0 <= i < |Gather(useKb, kb, useWeb, WebSearch.SearchResults(tool, query, 5)).value| ==>
      Gather(useKb, kb, useWeb, WebSearch.SearchResults(tool, query, 5)).value[i].source != WEB_SOURCE
  {
    WebSearch.SearchFailureGivesNoResults(tool, query, 5);
  }

  function Contents(g: seq<Info>): (cs: seq<string>)
    ensures |cs| == |g|
  {
    seq(|g|, i requires 0 <= i < |g| => g[i].content)
  }

  function Results(rs: seq<SubtaskResult>): (ts: seq<string>)
    ensures |ts| == |rs|
  {
    seq(|rs|, i requires 0 <= i < |rs| => rs[i].result)
  }

  const SUBTASK_INSTRUCTION: string := "Provide a detailed analysis based on the available context."

  /** The analysis of each subtask over the gathered material, in order. */
  function SubtaskResults(llm: Client, subtasks: seq<TaskDelegator.Subtask>, context: string): (rs: seq<SubtaskResult>)
    ensures |rs| == |subtasks|
  {
    seq(|subtasks|, i requires 0 <= i < |subtasks| =>
      SubtaskResult(subtasks[i].title, AnalyzeWithContext(llm, subtasks[i].title, context, Some(SUBTASK_INSTRUCTION))))
  }

  /** What the synthesis reads: the first five of the gathered contents
      followed by the subtask results. */
  function SynthesisInput(g: seq<Info>, rs: seq<SubtaskResult>): (input: seq<string>)
    ensures |input| == Min(5, |g| + |rs|)
  {
    Take(Contents(g) + Results(rs), 5)
  }

  /** The gathered contents come first; subtask results fill what is left of
      the five places. */
  lemma SynthesisInputOrder(g: seq<Info>, rs: seq<SubtaskResult>)
    requires |g| <= 2
    ensures var input := SynthesisInput(g, rs);
      && input[..|g|] == Contents(g)
      && input[|g|..] == Take(Results(rs), 5 - |g|)
  {
    var all := Contents(g) + Results(rs);
    assert all[..|g|] == Contents(g);
    assert Take(all, 5)[|g|..] == Take(Results(rs), 5 - |g|);
  }

  // ---------------------------------------------------------------
  // the report

  const REPORT_TITLE: string := "\n# Research Report: "
  const REPORT_SUMMARY: string := "\n\n## Executive Summary\n"
  const REPORT_APPROACH: string := "\n\n## Research Approach\n"
  const REPORT_FINDINGS: string := "...\n\n## Key Findings\n\n"
  const FINDING_HEAD: string := "\n### Finding "
  const ELLIPSIS_LINE: string := "...\n"
  const SOURCES_HEAD: string := "\n## Sources\n"
  const CONCLUSION_HEAD: string := "\n## Conclusion\n"
  const CONCLUSION_LEAD: string := "Based on the comprehensive analysis above, "

  /** The report up to its findings: title, synthesis, and the plan cut to
      500 characters. */
  function ReportHead(query: string, plan: TaskDelegator.ResearchPlan, synthesis: string): string {
    REPORT_TITLE + query + REPORT_SUMMARY + synthesis + REPORT_APPROACH + Take(plan.plan, 500) + REPORT_FINDINGS
  }

  /** The block for finding number `i`: its subtask, then its result cut to
      400 characters and `"..."`. */
  function FindingBlock(i: nat, r: SubtaskResult): string {
    FindingHeader(i, r.subtask) + FindingBody(r.result)
  }

  /** `f"\n### Finding {i}: {result['subtask']}\n"` */
  function FindingHeader(i: nat, subtask: string): string {
    FINDING_HEAD + IntToString(i) + ": " + subtask + "\n"
  }

  /** `f"{result['result'][:400]}...\n"` */
  function FindingBody(result: string): string {
    Take(result, 400) + ELLIPSIS_LINE
  }

  function FindingBlocks(rs: seq<SubtaskResult>): (bs: seq<string>)
    ensures |bs| == |rs|
    ensures forall k :: 0 <= k < |rs| ==> bs[k] == FindingBlock(k + 1, rs[k])
  {
    seq(|rs|, i requires 0 <= i < |rs| => FindingBlock(i + 1, rs[i]))
  }

  /** `info['source'].replace('_', ' ').title()` */
  function SourceType(source: string): string {
    Title(ReplaceChar(source, '_', ' '))
  }

  /** The knowledge base reads as two capitalised words. */
  lemma KbSourceType()
    ensures SourceType(KB_SOURCE) == "Knowledge Base"
  {
    assert ReplaceChar(KB_SOURCE, '_', ' ') == "knowledge" + " " + "base";
    TitleTwoWords("knowledge", "base");
  }

  /** So does the web search. */
  lemma WebSourceType()
    ensures SourceType(WEB_SOURCE) == "Web Search"
  {
    assert ReplaceChar(WEB_SOURCE, '_', ' ') == "web" + " " + "search";
    TitleTwoWords("web", "search");
  }

  /** Two small-letter words joined by a space title-case to two capitalised
      words. */
  lemma TitleTwoWords(a: string, b: string)
    requires a != [] && forall i :: 0 <= i < |a| ==> 'a' <= a[i] <= 'z'
    requires b != [] && forall i :: 0 <= i < |b| ==> 'a' <= b[i] <= 'z'
    ensures Title(a + " " + b) == [UpperChar(a[0])] + a[1..] + " " + [UpperChar(b[0])] + b[1..]
  {
    TitleFromAppend(a, " " + b, false);
    assert a + " " + b == a + (" " + b);
    TitleFromLowerWord(a, false);
    TitleFromAppend(" ", b, true);
    TitleFromLowerWord(b, false);
  }

  /** The Python rendering of the one-entry metadata dictionary. */
  function MetaRepr(info: Info): string {
    "{'" + info.countKey + "': " + IntToString(info.count) + "}"
  }

  /** The line for source number `i`. */
  function SourceLine(i: nat, info: Info): string {
    IntToString(i) + ". " + SourceType(info.source) + " (" + MetaRepr(info) + ")\n"
  }

  function SourceLines(g: seq<Info>): (ls: seq<string>)
    ensures |ls| == |g|
    ensures forall k :: 0 <= k < |g| ==> ls[k] == SourceLine(k + 1, g[k])
  {
    seq(|g|, i requires 0 <= i < |g| => SourceLine(i + 1, g[i]))
  }

  /** `synthesis[-300:] if len(synthesis) > 300 else synthesis` */
  function Conclusion(synthesis: string): (c: string)
    ensures |c| == Min(300, |synthesis|)
    ensures c == synthesis[|synthesis| - |c|..]
  {
    if |synthesis| > 300 then synthesis[|synthesis| - 300..] else synthesis
  }

  /** What `_generate_final_report` writes. */
  function FinalReport(query: string, plan: TaskDelegator.ResearchPlan, g: seq<Info>, rs: seq<SubtaskResult>, synthesis: string): string {
    ReportHead(query, plan, synthesis) + Concat(FindingBlocks(rs)) + SOURCES_HEAD + Concat(SourceLines(g))
      + CONCLUSION_HEAD + CONCLUSION_LEAD + Conclusion(synthesis)
  }

  /** A finding block opens with its number and subtask and shows at most 400
      characters of the result, a prefix of it. */
  lemma FindingBlockShape(i: nat, r: SubtaskResult)
    ensures var cut := Take(r.result, 400);
      && FindingBlock(i, r) == FINDING_HEAD + IntToString(i) + ": " + r.subtask + "\n" + cut + ELLIPSIS_LINE
      && |cut| <= 400 && cut == r.result[..|cut|]
  {
    var cut := Take(r.result, 400);
    var h := FINDING_HEAD + IntToString(i) + ": " + r.subtask + "\n";
    assert FindingBlock(i, r) == h + (cut + ELLIPSIS_LINE);
    assert h + (cut + ELLIPSIS_LINE) == h + cut + ELLIPSIS_LINE;
  }

  /** Appending the two parts of part `i` to a text ending with the first `i`
      parts gives the text ending with the first `i + 1` parts. */
  lemma AppendPart(head: string, parts: seq<string>, i: nat, x: string, y: string)
    requires i < |parts| && parts[i] == x + y
    ensures head + Concat(parts[..i + 1]) == head + Concat(parts[..i]) + x + y
  {
    ConcatSnoc(parts, i);
  }

  // ---------------------------------------------------------------
  // quick answers

  const KB_LABEL: string := "Knowledge Base:\n"
  const WEB_LABEL: string := "\n\nWeb Results:\n"

  /** The web part of a quick answer's context: the first two results, one
      per line. */
  function QuickWeb(rs: seq<WebSearch.WebResult>): string {
    Join("\n", WebLines(Take(rs, 2)))
  }

  function QuickContext(kbContext: string, webContext: string): string {
    KB_LABEL + kbContext + WEB_LABEL + webContext
  }

  /** A failed web search leaves the web part empty. */
  lemma QuickWebOnFailure(tool: WebSearch.Tool, question: string)
    requires tool.post(WebSearch.SearchRequest(tool, question, 3)).Err?
    ensures QuickWeb(WebSearch.SearchResults(tool, question, 3)) == ""
  {
    WebSearch.SearchFailureGivesNoResults(tool, question, 3);
  }

  // ---------------------------------------------------------------
  // the agent

  /** What `deep_research` returns. */
  datatype DeepReport = DeepReport(
    query: string, researchPlan: TaskDelegator.ResearchPlan, sourcesUsed: int, subtasksCompleted: int,
    synthesis: string, finalReport: string, gatheredInfo: seq<Info>, subtaskResults: seq<SubtaskResult>)

  /** What `compare_topics` returns. */
  datatype Comparison = Comparison(
    topic1: string, topic2: string, research1: RagAgent.ResearchResult, research2: RagAgent.ResearchResult, comparison: string)

  /** The report `deep_research` returns once the material is gathered:
      the plan, the analyses of the subtasks `subtasks[:max_iterations]`,
      the synthesis of the first five contents, and the final report. */
  function ReportOf(llm: Client, synthesize: seq<string> -> string, query: string, plan: TaskDelegator.ResearchPlan,
                    g: seq<Info>, maxIterations: int): DeepReport
  {
    var rs := SubtaskResults(llm, PyTake(plan.subtasks, maxIterations), Join("\n\n", Contents(g)));
    var synthesis := synthesize(SynthesisInput(g, rs));
    DeepReport(query, plan, |g|, |rs|, synthesis, FinalReport(query, plan, g, rs, synthesis), g, rs)
  }

  /** The report counts the sources it gathered, and covers the plan's first
      `max_iterations` subtasks (Python slicing), in order. */
  lemma ReportCounts(llm: Client, synthesize: seq<string> -> string, query: string, plan: TaskDelegator.ResearchPlan,
                     g: seq<Info>, maxIterations: int)
    ensures ReportOf(llm, synthesize, query, plan, g, maxIterations).sourcesUsed == |g|
    ensures ReportOf(llm, synthesize, query, plan, g, maxIterations).gatheredInfo == g
    ensures ReportOf(llm, synthesize, query, plan, g, maxIterations).subtasksCompleted
      == |ReportOf(llm, synthesize, query, plan, g, maxIterations).subtaskResults| == |PyTake(plan.subtasks, maxIterations)|
    ensures forall i :: 0 <= i < ReportOf(llm, synthesize, query, plan, g, maxIterations).subtasksCompleted ==>
      ReportOf(llm, synthesize, query, plan, g, maxIterations).subtaskResults[i].subtask == plan.subtasks[i].title
  {
  }

  /** The scraped pages `research_from_urls` stores, each cut to 5000
      characters and tagged with its URL, with fresh ids drawn from `first` on. */
  function KnowledgeCalls(store: Store, pages: seq<WebSearch.Page>, first: nat): (calls: seq<AddRequest>)
    ensures |calls| == |pages|
  {
    seq(|pages|, k requires 0 <= k < |pages| =>
      store.AddCall([Take(pages[k].content, 5000)], Some([map["source" := Str(pages[k].url)]]), None, first + k))
  }

  class Agent {
    const rag: RagAgent.Agent
    /** The language model of the task delegator. */
    const planner: Client
    const webSearch: WebSearch.Tool
    /** The scraper's download and HTML-to-text pass. */
    const fetch: string -> Option<string>
    /** `SummarizerTool.synthesize_multiple_sources` */
    const synthesize: seq<string> -> string
    /** `SummarizerTool.compare_documents` */
    const compare: (string, string) -> string
    const llm: Client

    constructor(rag: RagAgent.Agent, planner: Client, webSearch: WebSearch.Tool, fetch: string -> Option<string>,
                synthesize: seq<string> -> string, compare: (string, string) -> string, llm: Client)
      ensures this.rag == rag && this.planner == planner && this.webSearch == webSearch && this.fetch == fetch
      ensures this.synthesize == synthesize && this.compare == compare && this.llm == llm
    {
      this.rag := rag;
      this.planner := planner;
      this.webSearch := webSearch;
      this.fetch := fetch;
      this.synthesize := synthesize;
      this.compare := compare;
      this.llm := llm;
    }

    /** The record `research` gives on a query at the given depth. */
    function KbResearch(query: string, depth: string): RagAgent.ResearchResult
      reads rag.store
    {
      RagAgent.ResearchOf(rag.llm, query, rag.store.Search(query, RagAgent.DepthResults(depth), None), rag.store.relevanceLabel)
    }

    /** What `deep_research` returns against the knowledge base as it is. */
    function DeepResearchOf(query: string, useWeb: bool, useKb: bool, maxIterations: int): Result<DeepReport>
      reads rag.store
    {
      var g := Gather(useKb, KbResearch(query, "comprehensive"), useWeb, WebSearch.SearchResults(webSearch, query, 5));
      if g.Err? then Err(g.error) else Ok(ReportOf(llm, synthesize, query, TaskDelegator.CreateResearchPlan(planner, query), g.value, maxIterations))
    }

    /** `deep_research` fails exactly when the knowledge base is asked and
        holds nothing on the query: the record `research` gives then has no
        `num_sources`. */
    lemma DeepResearchFails(query: string, useWeb: bool, useKb: bool, maxIterations: int)
      ensures DeepResearchOf(query, useWeb, useKb, maxIterations).Err? <==>
        useKb && rag.store.Search(query, 10, None).documents == []
      ensures DeepResearchOf(query, useWeb, useKb, maxIterations).Err? ==>
        DeepResearchOf(query, useWeb, useKb, maxIterations).error == MISSING_NUM_SOURCES
    {
      assert RagAgent.DepthResults("comprehensive") == 10;
      GatherShape(useKb, KbResearch(query, "comprehensive"), useWeb, WebSearch.SearchResults(webSearch, query, 5),
        rag.llm, query, rag.store.Search(query, 10, None), rag.store.relevanceLabel);
    }

    /** Step 2 of `deep_research`: the knowledge base's summary, then the web
        results' snippets. */
    method GatherInfo(query: string, useWeb: bool, useKb: bool) returns (g: Result<seq<Info>>)
      ensures g == Gather(useKb, KbResearch(query, "comprehensive"), useWeb, WebSearch.SearchResults(webSearch, query, 5))
    {
      ghost var kb := KbResearch(query, "comprehensive");
      var gatheredInfo: seq<Info> := [];
      if useKb {
        var kbResults := rag.Research(query, "comprehensive");
        assert kbResults == kb;
        if kbResults.NoInfo? {
          return Err(MISSING_NUM_SOURCES);
        }
        if kbResults.numSources > 0 {
          gatheredInfo := gatheredInfo + [Info(KB_SOURCE, kbResults.summary, "num_sources", kbResults.numSources)];
        }
      }
      assert gatheredInfo == if useKb && kb.numSources > 0 then [KbInfo(kb)] else [];
      ghost var kbPart := gatheredInfo;
      ghost var web := WebSearch.SearchResults(webSearch, query, 5);
      if useWeb {
        var searchResults := WebSearch.GetSearchResults(webSearch, query, 5);
        if searchResults != [] {
          var webContent := Join("\n\n", WebLines(Take(searchResults, 3)));
          gatheredInfo := gatheredInfo + [Info(WEB_SOURCE, webContent, "num_results", |searchResults|)];
        }
      }
      assert gatheredInfo == kbPart + (if useWeb && web != [] then [WebInfo(web)] else []);
      g := Ok(gatheredInfo);
    }

    /** Step 3 of `deep_research`: each subtask analysed over all gathered
        contents. */
    method ProcessSubtasks(subtasks: seq<TaskDelegator.Subtask>, gatheredInfo: seq<Info>) returns (subtaskResults: seq<SubtaskResult>)
      ensures subtaskResults == SubtaskResults(llm, subtasks, Join("\n\n", Contents(gatheredInfo)))
    {
      ghost var spec := SubtaskResults(llm, subtasks, Join("\n\n", Contents(gatheredInfo)));
      subtaskResults := [];
      for i := 0 to |subtasks|
        invariant subtaskResults == spec[..i]
      {
        var subtask := subtasks[i];
        var context := Join("\n\n", Contents(gatheredInfo));
        var result := AnalyzeWithContext(llm, subtask.title, context, Some(SUBTASK_INSTRUCTION));
        assert spec[..i + 1] == spec[..i] + [spec[i]];
        subtaskResults := subtaskResults + [SubtaskResult(subtask.title, result)];
      }
    }

    /** `ResearchAgent.deep_research`. A knowledge base with nothing on the
        query makes `research` return a record without `num_sources`, and
        the lookup fails. */
    method DeepResearch(query: string, useWeb: bool, useKb: bool, maxIterations: int) returns (r: Result<DeepReport>)
      ensures r == DeepResearchOf(query, useWeb, useKb, maxIterations)
    {
      var researchPlan := TaskDelegator.CreateResearchPlan(planner, query);
      var subtasks := researchPlan.subtasks;
      var gathered := GatherInfo(query, useWeb, useKb);
      if gathered.Err? {
        return Err(gathered.error);
      }
      var gatheredInfo := gathered.value;
      var subtaskResults := ProcessSubtasks(PyTake(subtasks, maxIterations), gatheredInfo);
      var allContent := Contents(gatheredInfo) + Results(subtaskResults);
      var synthesis := synthesize(Take(allContent, 5));
      var finalReport := GenerateFinalReport(query, researchPlan, gatheredInfo, subtaskResults, synthesis);
      r := Ok(DeepReport(query, researchPlan, |gatheredInfo|, |subtaskResults|, synthesis, finalReport, gatheredInfo, subtaskResults));
    }

    /** `ResearchAgent._generate_final_report` */
    method GenerateFinalReport(query: string, plan: TaskDelegator.ResearchPlan, gatheredInfo: seq<Info>,
                               subtaskResults: seq<SubtaskResult>, synthesis: string) returns (report: string)
      ensures report == FinalReport(query, plan, gatheredInfo, subtaskResults, synthesis)
    {
      report := ReportHead(query, plan, synthesis);
      ghost var head := report;
      ghost var findings := FindingBlocks(subtaskResults);
      for i := 0 to |subtaskResults|
        invariant report == head + Concat(findings[..i])
      {
        var result := subtaskResults[i];
        AppendPart(head, findings, i, FindingHeader(i + 1, result.subtask), FindingBody(result.result));
        report := report + FindingHeader(i + 1, result.subtask);
        report := report + FindingBody(result.result);
      }
      assert findings[..|subtaskResults|] == findings;
      report := report + SOURCES_HEAD;
      ghost var middle := report;
      ghost var lines := SourceLines(gatheredInfo);
      for i := 0 to |gatheredInfo|
        invariant report == middle + Concat(lines[..i])
      {
        var info := gatheredInfo[i];
        AppendPart(middle, lines, i, SourceLine(i + 1, info), "");
        report := report + SourceLine(i + 1, info);
      }
      assert lines[..|gatheredInfo|] == lines;
      report := report + CONCLUSION_HEAD;
      report := report + CONCLUSION_LEAD;
      report := report + (if |synthesis| > 300 then synthesis[|synthesis| - 300..] else synthesis);
    }

    /** `ResearchAgent.compare_topics`; a topic the knowledge base has nothing
        on gives a record without `summary`, and the lookup fails. */
    method CompareTopics(topic1: string, topic2: string) returns (r: Result<Comparison>)
      ensures var r1 := RagAgent.ResearchOf(rag.llm, topic1, rag.store.Search(topic1, 5, None), rag.store.relevanceLabel);
        var r2 := RagAgent.ResearchOf(rag.llm, topic2, rag.store.Search(topic2, 5, None), rag.store.relevanceLabel);
        && (r.Err? <==> r1.NoInfo? || r2.NoInfo?)
        && (r.Err? ==> r.error == MISSING_SUMMARY)
        && (r.Ok? ==> r.value == Comparison(topic1, topic2, r1, r2, compare(r1.summary, r2.summary)))
    {
      var research1 := rag.Research(topic1, "standard");
      var research2 := rag.Research(topic2, "standard");
      if research1.NoInfo? || research2.NoInfo? {
        return Err(MISSING_SUMMARY);
      }
      var comparison := compare(research1.summary, research2.summary);
      r := Ok(Comparison(topic1, topic2, research1, research2, comparison));
    }

    /** `ResearchAgent.quick_answer` */
    method QuickAnswer(question: string) returns (answer: string)
      ensures answer == AnalyzeWithContext(llm, question,
        QuickContext(ContextFor(rag.store.Search(question, 3, None), rag.store.relevanceLabel),
          QuickWeb(WebSearch.SearchResults(webSearch, question, 3))), None)
    {
      var kbContext := rag.store.GetContextForQuery(question, 3);
      var webResults := WebSearch.GetSearchResults(webSearch, question, 3);
      var webContext := Join("\n", WebLines(Take(webResults, 2)));
      var combinedContext := KB_LABEL + kbContext + WEB_LABEL + webContext;
      answer := AnalyzeWithContext(llm, question, combinedContext, None);
    }

    /** `ResearchAgent.add_knowledge` */
    method AddKnowledge(content: string, source: string)
      modifies rag.store
      ensures rag.store.idsIssued == old(rag.store.idsIssued) + 1
      ensures rag.store.entries == old(rag.store.entries)
        + [rag.store.AddCall([content], Some([map["source" := Str(source)]]), None, old(rag.store.idsIssued))]
    {
      var _ := rag.AddDocuments([content], Some([map["source" := Str(source)]]));
    }

    /** The loop of `research_from_urls`: each page with text goes into the
        knowledge base, cut to 5000 characters and tagged with its URL. */
    method StorePages(pages: seq<WebSearch.Page>)
      requires forall k :: 0 <= k < |pages| ==> pages[k].content != ""
      modifies rag.store
      ensures rag.store.idsIssued == old(rag.store.idsIssued) + |pages|
      ensures rag.store.entries == old(rag.store.entries) + KnowledgeCalls(rag.store, pages, old(rag.store.idsIssued))
    {
      ghost var calls := KnowledgeCalls(rag.store, pages, rag.store.idsIssued);
      ghost var entries0, issued0 := rag.store.entries, rag.store.idsIssued;
      for i := 0 to |pages|
        invariant rag.store.idsIssued == issued0 + i
        invariant rag.store.entries == entries0 + calls[..i]
      {
        var url, content := pages[i].url, pages[i].content;
        if content != "" {
          assert calls[i] == rag.store.AddCall([Take(content, 5000)], Some([map["source" := Str(url)]]), None, issued0 + i);
          AddKnowledge(Take(content, 5000), url);
          assert calls[..i + 1] == calls[..i] + [calls[i]];
        }
      }
      assert calls[..|pages|] == calls;
    }

    /** `ResearchAgent.research_from_urls`: every scraped page goes into the
        knowledge base, then the query is researched without the web. */
    method ResearchFromUrls(urls: seq<string>, query: string) returns (r: Result<DeepReport>)
      modifies rag.store
      ensures rag.store.idsIssued == old(rag.store.idsIssued) + |WebSearch.Scraped(fetch, urls)|
      ensures rag.store.entries == old(rag.store.entries) + KnowledgeCalls(rag.store, WebSearch.Scraped(fetch, urls), old(rag.store.idsIssued))
      ensures r == DeepResearchOf(query, false, true, 5)
    {
      var scrapedContent := WebSearch.ScrapeMultipleUrls(fetch, urls);
      WebSearch.ScrapedFacts(fetch, urls);
      StorePages(scrapedContent);
      r := DeepResearch(query, false, true, 5);
    }
  }
}
