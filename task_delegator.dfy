/** Breaking a task into subtasks (agents/task_delegator.py): the parser
    that reads a numbered list out of the language model's answer, the
    dependency-first ordering, the keyword classifier and the complexity
    thresholds. */
module TaskDelegator {
  import opened Wrappers
  import opened Text
  import opened Seqs
  import opened LlmClient

  /** A parsed subtask, `{"id", "title", "description", "action_type",
      "dependencies"}`. A task without a `dependencies` entry behaves as one
      with the empty list. */
  datatype Subtask = Subtask(id: nat, title: string, description: string, actionType: string, dependencies: seq<string>)

  /** The subtask the parser is reading: its title and its description so far. */
  datatype Draft = Draft(title: string, description: string)

  /** The parser's variables between two lines: the finished subtasks, the
      open subtask if any (`current_task`, empty dict as `None`), and
      `task_counter`. */
  datatype ParseState = ParseState(subtasks: seq<Subtask>, current: Option<Draft>, counter: nat)

  /** A stripped, non-empty line opens a subtask when it starts with a digit
      and has a '.' among its first three characters. */
  predicate IsHeader(line: string) {
    |line| >= 1 && IsDigit(line[0]) && '.' in Take(line, 3)
  }

  /** `line.split('.', 1)[1].strip()`: the text after the first '.', stripped. */
  function HeaderTitle(line: string): (title: string)
    requires IsHeader(line)
    ensures var i := Find(line, '.'); 0 < i < 3 && title == Strip(line[i + 1..])
  {
    assert Take(line, 3) == line[..|Take(line, 3)|];
    var i := Find(line, '.');
    Strip(line[i + 1..])
  }

  /** The subtask a draft becomes when it is closed with id `id`. */
  function Close(d: Draft, id: nat): Subtask {
    Subtask(id, d.title, d.description, "research", [])
  }

  const START: ParseState := ParseState([], None, 0)

  /** What the parser does with one line of the answer. */
  function Step(st: ParseState, raw: string): ParseState {
    var line := Strip(raw);
    if line == "" then
      if st.current.Some? then ParseState(st.subtasks + [Close(st.current.value, st.counter)], None, st.counter + 1)
      else st
    else if IsHeader(line) then
      if st.current.Some? then
        ParseState(st.subtasks + [Close(st.current.value, st.counter)], Some(Draft(HeaderTitle(line), "")), st.counter + 1)
      else ParseState(st.subtasks, Some(Draft(HeaderTitle(line), "")), st.counter)
    else if st.current.Some? then
      ParseState(st.subtasks, Some(Draft(st.current.value.title, st.current.value.description + " " + line)), st.counter)
    else st
  }

  /** The parser's variables after the lines `lines`. */
  function StateAfter(lines: seq<string>): ParseState {
    if lines == [] then START else Step(StateAfter(lines[..|lines| - 1]), lines[|lines| - 1])
  }

  /** The subtasks once the last line is read: the open one is closed too. */
  function Finish(st: ParseState): seq<Subtask> {
    if st.current.Some? then st.subtasks + [Close(st.current.value, st.counter)] else st.subtasks
  }

  /** `response.strip().split('\n')` */
  function ResponseLines(response: string): seq<string> {
    Split(Strip(response), '\n')
  }

  /** The subtasks `_parse_subtasks` returns for `response`. */
  function Parse(response: string): seq<Subtask> {
    Finish(StateAfter(ResponseLines(response)))
  }

  lemma StateAfterSnoc(lines: seq<string>, i: nat)
    requires i < |lines|
    ensures StateAfter(lines[..i + 1]) == Step(StateAfter(lines[..i]), lines[i])
  {
    assert lines[..i + 1][..i] == lines[..i];
  }

  /** `TaskDelegator._parse_subtasks` */
  method ParseSubtasks(response: string) returns (subtasks: seq<Subtask>)
    ensures subtasks == Parse(response)
  {
    subtasks := [];
    var lines := Split(Strip(response), '\n');
    var currentTask: Option<Draft> := None;
    var taskCounter: nat := 0;
    for i := 0 to |lines|
      invariant StateAfter(lines[..i]) == ParseState(subtasks, currentTask, taskCounter)
    {
      StateAfterSnoc(lines, i);
      var line := Strip(lines[i]);
      if line == "" {
        if currentTask.Some? {
          subtasks := subtasks + [Close(currentTask.value, taskCounter)];
          currentTask := None;
          taskCounter := taskCounter + 1;
        }
      } else if IsHeader(line) {
        if currentTask.Some? {
          subtasks := subtasks + [Close(currentTask.value, taskCounter)];
          taskCounter := taskCounter + 1;
        }
        currentTask := Some(Draft(HeaderTitle(line), ""));
      } else if currentTask.Some? {
        currentTask := Some(Draft(currentTask.value.title, currentTask.value.description + " " + line));
      }
    }
    assert lines[..|lines|] == lines;
    if currentTask.Some? {
      subtasks := subtasks + [Close(currentTask.value, taskCounter)];
    }
  }

  // ---------------------------------------------------------------
  // what the parser guarantees

  /** Subtask `k` has id `k`, is a research step and depends on nothing. */
  predicate Numbered(subtasks: seq<Subtask>) {
    forall k :: 0 <= k < |subtasks| ==>
      subtasks[k].id == k && subtasks[k].actionType == "research" && subtasks[k].dependencies == []
  }

  /** The counter always equals the number of finished subtasks, which are
      numbered from 0. */
  lemma {:induction false} StateAfterNumbered(lines: seq<string>)
    ensures StateAfter(lines).counter == |StateAfter(lines).subtasks|
    ensures Numbered(StateAfter(lines).subtasks)
    decreases |lines|
  {
    if lines != [] {
      StateAfterNumbered(lines[..|lines| - 1]);
    }
  }

  /** The parsed subtasks have ids 0, 1, ... in the order they are listed;
      each is a research step without dependencies. */
  lemma ParseNumbered(response: string)
    ensures Numbered(Parse(response))
  {
    StateAfterNumbered(ResponseLines(response));
  }

  /** The titles of the header lines among `lines`, in order. */
  function HeaderTitles(lines: seq<string>): seq<string> {
    if lines == [] then []
    else
      var init, line := HeaderTitles(lines[..|lines| - 1]), Strip(lines[|lines| - 1]);
      if line != "" && IsHeader(line) then init + [HeaderTitle(line)] else init
  }

  function Titles(subtasks: seq<Subtask>): (ts: seq<string>)
    ensures |ts| == |subtasks|
  {
    seq(|subtasks|, k requires 0 <= k < |subtasks| => subtasks[k].title)
  }

  /** The titles of the finished subtasks, then that of the open one. */
  function OpenTitles(st: ParseState): seq<string> {
    Titles(st.subtasks) + (if st.current.Some? then [st.current.value.title] else [])
  }

  lemma TitlesSnoc(subtasks: seq<Subtask>, t: Subtask)
    ensures Titles(subtasks + [t]) == Titles(subtasks) + [t.title]
  {
  }

  /** So far every header line has given exactly one subtask, finished or
      open, with that line's title. */
  lemma {:induction false} StateAfterTitles(lines: seq<string>)
    ensures OpenTitles(StateAfter(lines)) == HeaderTitles(lines)
    decreases |lines|
  {
    if lines != [] {
      var init := lines[..|lines| - 1];
      StateAfterTitles(init);
      var st := StateAfter(init);
      if st.current.Some? {
        TitlesSnoc(st.subtasks, Close(st.current.value, st.counter));
      }
    }
  }

  /** One subtask per header line, in order, titled after it: so the number of
      subtasks is the number of header lines. */
  lemma ParseTitles(response: string)
    ensures Titles(Parse(response)) == HeaderTitles(ResponseLines(response))
    ensures |Parse(response)| == |HeaderTitles(ResponseLines(response))|
  {
    var st := StateAfter(ResponseLines(response));
    StateAfterTitles(ResponseLines(response));
    if st.current.Some? {
      TitlesSnoc(st.subtasks, Close(st.current.value, st.counter));
    }
  }

  /** An answer without header lines, the empty answer among them, gives
      no subtasks. */
  lemma ParseNoHeaders(response: string)
    requires forall k :: 0 <= k < |ResponseLines(response)| ==>
      var line := Strip(ResponseLines(response)[k]); line == "" || !IsHeader(line)
    ensures Parse(response) == []
  {
    NoHeaderTitles(ResponseLines(response));
    ParseTitles(response);
  }

  lemma {:induction false} NoHeaderTitles(lines: seq<string>)
    requires forall k :: 0 <= k < |lines| ==> var line := Strip(lines[k]); line == "" || !IsHeader(line)
    ensures HeaderTitles(lines) == []
    decreases |lines|
  {
    if lines != [] {
      NoHeaderTitles(lines[..|lines| - 1]);
    }
  }

  /** The empty answer gives no subtasks. */
  lemma ParseEmpty()
    ensures Parse("") == []
  {
    assert Strip("") == "";
    assert ResponseLines("") == [""];
    ParseNoHeaders("");
  }

  /** A line that is neither blank nor a header extends the open subtask's
      description by a space and the stripped line, and is dropped when no
      subtask is open (before the first header, or after a blank line). */
  lemma StepText(st: ParseState, raw: string)
    requires Strip(raw) != "" && !IsHeader(Strip(raw))
    ensures Step(st, raw).subtasks == st.subtasks && Step(st, raw).counter == st.counter
    ensures st.current.None? ==> Step(st, raw).current.None?
    ensures st.current.Some? ==>
      Step(st, raw).current == Some(Draft(st.current.value.title, st.current.value.description + " " + Strip(raw)))
  {
  }

  /** A blank line closes the open subtask, if any; a later text line is then
      dropped until the next header. */
  lemma StepBlank(st: ParseState, raw: string)
    requires Strip(raw) == ""
    ensures Step(st, raw).current.None?
    ensures Step(st, raw).subtasks == Finish(st)
  {
  }

  // ---------------------------------------------------------------
  // prioritize_tasks

  predicate HasDependencies(t: Subtask) { t.dependencies != [] }

  /** `TaskDelegator.prioritize_tasks`: the tasks without dependencies, then
      those with, each group in input order. */
  function Prioritize(tasks: seq<Subtask>): (r: seq<Subtask>)
    ensures |r| == |tasks| && multiset(r) == multiset(tasks)
  {
    FilterSplitsMultiset(tasks, HasDependencies);
    FilterOut(tasks, HasDependencies) + Filter(tasks, HasDependencies)
  }

  /** No task with dependencies comes before one without. */
  lemma PrioritizePartitioned(tasks: seq<Subtask>, i: int, j: int)
    requires 0 <= i < j < |Prioritize(tasks)|
    requires HasDependencies(Prioritize(tasks)[i])
    ensures HasDependencies(Prioritize(tasks)[j])
  {
    var n := |FilterOut(tasks, HasDependencies)|;
    assert i >= n;
    assert Prioritize(tasks)[j] == Filter(tasks, HasDependencies)[j - n];
  }

  /** The ordering is stable: within each group the tasks keep their input
      order. */
  lemma PrioritizeStable(tasks: seq<Subtask>)
    ensures Filter(Prioritize(tasks), HasDependencies) == Filter(tasks, HasDependencies)
    ensures FilterOut(Prioritize(tasks), HasDependencies) == FilterOut(tasks, HasDependencies)
  {
    var free, deps := FilterOut(tasks, HasDependencies), Filter(tasks, HasDependencies);
    FilterAppend(free, deps, HasDependencies);
    FilterNone(free, HasDependencies);
    FilterAll(deps, HasDependencies);
  }

  /** Parsed subtasks never have dependencies, so prioritizing them changes
      nothing. */
  lemma PrioritizeParsed(response: string)
    ensures Prioritize(Parse(response)) == Parse(response)
  {
    ParseNumbered(response);
    FilterNone(Parse(response), HasDependencies);
  }

  // ---------------------------------------------------------------
  // identify_task_type and estimate_complexity

  const COMPARISON_WORDS: seq<string> := ["compare", "contrast", "difference"]
  const ANALYSIS_WORDS: seq<string> := ["analyze", "examine", "evaluate"]
  const SUMMARIZATION_WORDS: seq<string> := ["summarize", "overview", "brief"]
  const SYNTHESIS_WORDS: seq<string> := ["combine", "synthesize", "integrate"]

  /** `any(word in text for word in words)` */
  predicate MentionsAny(text: string, words: seq<string>) {
    exists i :: 0 <= i < |words| && Contains(text, words[i])
  }

  /** `TaskDelegator.identify_task_type`: the first keyword group, in the
      order comparison, analysis, summarization, synthesis, that the
      lower-cased task mentions; research when it mentions none. */
  function IdentifyTaskType(task: string): (kind: string)
    ensures var t := Lower(task);
      && (kind == "comparison" <==> MentionsAny(t, COMPARISON_WORDS))
      && (kind == "analysis" <==> !MentionsAny(t, COMPARISON_WORDS) && MentionsAny(t, ANALYSIS_WORDS))
      && (kind == "summarization" <==> !MentionsAny(t, COMPARISON_WORDS) && !MentionsAny(t, ANALYSIS_WORDS)
                                       && MentionsAny(t, SUMMARIZATION_WORDS))
      && (kind == "synthesis" <==> !MentionsAny(t, COMPARISON_WORDS) && !MentionsAny(t, ANALYSIS_WORDS)
                                   && !MentionsAny(t, SUMMARIZATION_WORDS) && MentionsAny(t, SYNTHESIS_WORDS))
      && (kind == "research" <==> !MentionsAny(t, COMPARISON_WORDS) && !MentionsAny(t, ANALYSIS_WORDS)
                                  && !MentionsAny(t, SUMMARIZATION_WORDS) && !MentionsAny(t, SYNTHESIS_WORDS))
  {
    var t := Lower(task);
    if MentionsAny(t, COMPARISON_WORDS) then "comparison"
    else if MentionsAny(t, ANALYSIS_WORDS) then "analysis"
    else if MentionsAny(t, SUMMARIZATION_WORDS) then "summarization"
    else if MentionsAny(t, SYNTHESIS_WORDS) then "synthesis"
    else "research"
  }

  /** The classification ignores the case of ASCII letters. */
  lemma IdentifyTaskTypeIgnoresCase(a: string, b: string)
    requires Lower(a) == Lower(b)
    ensures IdentifyTaskType(a) == IdentifyTaskType(b)
  {
  }

  /** Classifying the lower-cased task gives the same type. */
  lemma IdentifyTaskTypeOfLower(task: string)
    ensures IdentifyTaskType(Lower(task)) == IdentifyTaskType(task)
  {
    LowerIdempotent(task);
    IdentifyTaskTypeIgnoresCase(Lower(task), task);
  }

  /** The complexity levels in increasing order. */
  function ComplexityRank(level: string): int {
    if level == "simple" then 0 else if level == "moderate" then 1 else 2
  }

  /** The thresholds of `estimate_complexity` on the number of subtasks. */
  function ComplexityOf(numSubtasks: nat): (level: string)
    ensures level == "simple" <==> numSubtasks <= 3
    ensures level == "moderate" <==> 4 <= numSubtasks <= 5
    ensures level == "complex" <==> numSubtasks > 5
  {
    if numSubtasks <= 3 then "simple"
    else if numSubtasks <= 5 then "moderate"
    else "complex"
  }

  /** More subtasks never mean a lower complexity. */
  lemma ComplexityMonotone(m: nat, n: nat)
    requires m <= n
    ensures ComplexityRank(ComplexityOf(m)) <= ComplexityRank(ComplexityOf(n))
  {
  }

  // ---------------------------------------------------------------
  // the calls to the language model

  const DECOMPOSE_SYSTEM_PROMPT: string :=
    "You are an expert task planner. Break down complex tasks into \n        logical, sequential subtasks. Each subtask should be specific and actionable."

  const DECOMPOSE_HEAD: string := "Analyze the following complex task and break it down into 3-7 specific subtasks.\n\nTask: "
  const DECOMPOSE_TAIL: string :=
    "\n\nFor each subtask, provide:\n1. A clear title\n2. A brief description\n"
    + "3. The type of action needed (research, analyze, synthesize, compare, summarize)\n4. Dependencies (if any)\n\n"
    + "Format your response as a numbered list with these details for each subtask.\n\nSubtasks:"

  function DecomposePrompt(task: string): string {
    DECOMPOSE_HEAD + task + DECOMPOSE_TAIL
  }

  /** `TaskDelegator.decompose_task`: the subtasks parsed from the planner's
      answer, numbered from 0. */
  function DecomposeTask(client: Client, task: string): (subtasks: seq<Subtask>)
    ensures subtasks == Parse(Generate(client, DecomposePrompt(task), Some(DECOMPOSE_SYSTEM_PROMPT), 0.3, DEFAULT_MAX_TOKENS))
    ensures Numbered(subtasks)
  {
    var response := Generate(client, DecomposePrompt(task), Some(DECOMPOSE_SYSTEM_PROMPT), 0.3, DEFAULT_MAX_TOKENS);
    ParseNumbered(response);
    Parse(response)
  }

  const RESEARCH_PLAN_HEAD: string := "Create a detailed research plan for the following query:\n\nQuery: "
  const RESEARCH_PLAN_TAIL: string :=
    "\n\nProvide:\n1. Main Research Objective (1-2 sentences)\n2. Key Questions to Answer (3-5 questions)\n"
    + "3. Information Sources Needed (web search, documents, databases, etc.)\n4. Research Steps (sequential steps to follow)\n"
    + "5. Expected Deliverables (what the final output should contain)\n\nResearch Plan:"

  function ResearchPlanPrompt(query: string): string {
    RESEARCH_PLAN_HEAD + query + RESEARCH_PLAN_TAIL
  }

  datatype ResearchPlan = ResearchPlan(query: string, plan: string, subtasks: seq<Subtask>)

  /** `TaskDelegator.create_research_plan` */
  function CreateResearchPlan(client: Client, query: string): (r: ResearchPlan)
    ensures r.query == query && r.subtasks == DecomposeTask(client, query)
    ensures r.plan == Generate(client, ResearchPlanPrompt(query), None, 0.3, DEFAULT_MAX_TOKENS)
  {
    ResearchPlan(query, Generate(client, ResearchPlanPrompt(query), None, 0.3, DEFAULT_MAX_TOKENS), DecomposeTask(client, query))
  }

  /** The plan's subtasks are numbered from 0 and titled after the header
      lines of the planner's answer to the decomposition prompt, one each, in
      order. */
  lemma ResearchPlanSubtasks(client: Client, query: string)
    ensures Numbered(CreateResearchPlan(client, query).subtasks)
    ensures Titles(CreateResearchPlan(client, query).subtasks)
      == HeaderTitles(ResponseLines(Generate(client, DecomposePrompt(query), Some(DECOMPOSE_SYSTEM_PROMPT), 0.3, DEFAULT_MAX_TOKENS)))
  {
    ParseTitles(Generate(client, DecomposePrompt(query), Some(DECOMPOSE_SYSTEM_PROMPT), 0.3, DEFAULT_MAX_TOKENS));
  }

  /** `TaskDelegator.estimate_complexity` */
  function EstimateComplexity(client: Client, task: string): (level: string)
    ensures level == ComplexityOf(|DecomposeTask(client, task)|)
  {
    ComplexityOf(|DecomposeTask(client, task)|)
  }
}
