/** The chat-completion wrapper (utils/llm_client.py): how requests to the
    language model are assembled, and how a list of key points is read back
    from its answer. The model itself is the function `complete`. */
module LlmClient {
  import opened Wrappers
  import opened Text
  import opened Seqs

  /** `{"role": ..., "content": ...}` */
  datatype Message = Message(role: string, content: string)

  /** What `chat_completion` sends to the service. */
  datatype ChatRequest = ChatRequest(model: string, messages: seq<Message>, temperature: real, maxTokens: int)

  /** The client: the configured model name and the remote chat completion. */
  datatype Client = Client(model: string, complete: ChatRequest -> string)

  const DEFAULT_TEMPERATURE: real := 0.7
  const DEFAULT_MAX_TOKENS: int := 2048

  /** `LLMClient.chat_completion` without streaming: the answer the service
      gives to these messages, with the client's model. */
  function ChatCompletion(client: Client, messages: seq<Message>, temperature: real, maxTokens: int): string
  {
    client.complete(ChatRequest(client.model, messages, temperature, maxTokens))
  }

  /** The message list `generate` builds. */
  function GenerateMessages(prompt: string, systemPrompt: Option<string>): (ms: seq<Message>)
    ensures |ms| == (if Truthy(systemPrompt) then 2 else 1)
    ensures ms[|ms| - 1] == Message("user", prompt)
    ensures Truthy(systemPrompt) ==> ms[0] == Message("system", systemPrompt.value)
    ensures forall i :: 0 <= i < |ms| - 1 ==> ms[i].role == "system"
  {
    (if Truthy(systemPrompt) then [Message("system", systemPrompt.value)] else []) + [Message("user", prompt)]
  }

  /** The request `generate` sends: its messages, and the temperature and
      token limit passed through unchanged. */
  function GenerateRequest(client: Client, prompt: string, systemPrompt: Option<string>, temperature: real, maxTokens: int): (req: ChatRequest)
    ensures req.model == client.model && req.temperature == temperature && req.maxTokens == maxTokens
    ensures req.messages == GenerateMessages(prompt, systemPrompt)
  {
    ChatRequest(client.model, GenerateMessages(prompt, systemPrompt), temperature, maxTokens)
  }

  /** `LLMClient.generate` */
  function Generate(client: Client, prompt: string, systemPrompt: Option<string>, temperature: real, maxTokens: int): (answer: string)
    ensures answer == client.complete(GenerateRequest(client, prompt, systemPrompt, temperature, maxTokens))
  {
    ChatCompletion(client, GenerateMessages(prompt, systemPrompt), temperature, maxTokens)
  }

  /** Exactly one user message, carrying the prompt, and it comes last; a
      system message precedes it only for a non-empty system prompt. */
  lemma GenerateOneUserMessage(prompt: string, systemPrompt: Option<string>)
    ensures var ms := GenerateMessages(prompt, systemPrompt);
      && (forall i :: 0 <= i < |ms| && ms[i].role == "user" ==> i == |ms| - 1)
      && (ms[0].role == "system" <==> Truthy(systemPrompt))
  {
  }

  const DEFAULT_ANALYSIS_PROMPT: string :=
    "You are a helpful research assistant. \n        Use the provided context to answer questions accurately and comprehensively. \n        Always cite sources when available."

  /** The user prompt `analyze_with_context` builds. */
  function AnalysisPrompt(query: string, context: string): string {
    "Context:\n" + context + "\n\nQuestion: " + query + "\n\nPlease provide a detailed answer based on the context above."
  }

  /** The system prompt of `analyze_with_context`: the instruction when it is
      non-empty, the default research-assistant prompt otherwise. */
  function AnalysisSystemPrompt(instruction: Option<string>): (s: string)
    ensures s != ""
    ensures Truthy(instruction) ==> s == instruction.value
    ensures !Truthy(instruction) ==> s == DEFAULT_ANALYSIS_PROMPT
  {
    if Truthy(instruction) then instruction.value else DEFAULT_ANALYSIS_PROMPT
  }

  /** `LLMClient.analyze_with_context`: a system message (the system prompt
      is never empty), then the context-and-question prompt, at the default
      temperature and token limit. */
  function AnalyzeWithContext(client: Client, query: string, context: string, instruction: Option<string>): (answer: string)
    ensures answer == client.complete(GenerateRequest(client, AnalysisPrompt(query, context),
      Some(AnalysisSystemPrompt(instruction)), DEFAULT_TEMPERATURE, DEFAULT_MAX_TOKENS))
  {
    Generate(client, AnalysisPrompt(query, context), Some(AnalysisSystemPrompt(instruction)), DEFAULT_TEMPERATURE, DEFAULT_MAX_TOKENS)
  }

  /** The prompt `summarize` builds. */
  function SummaryPrompt(text: string, maxLength: int): string {
    "Summarize the following text in approximately " + IntToString(maxLength)
      + " words. \n        Focus on key points and main ideas.\n\nText:\n" + text + "\n\nSummary:"
  }

  /** `LLMClient.summarize`: one user message, temperature 0.5, at most 1024
      tokens. */
  function Summarize(client: Client, text: string, maxLength: int): (answer: string)
    ensures answer == client.complete(GenerateRequest(client, SummaryPrompt(text, maxLength), None, 0.5, 1024))
  {
    Generate(client, SummaryPrompt(text, maxLength), None, 0.5, 1024)
  }

  /** The prompt `extract_key_points` builds. */
  function KeyPointsPrompt(text: string, numPoints: int): string {
    "Extract the " + IntToString(numPoints)
      + " most important key points from the following text.\n        Return them as a numbered list.\n\nText:\n" + text + "\n\nKey Points:"
  }

  /** A line of the answer that becomes a key point: not blank, with at
      least one letter or digit. */
  predicate IsKeyLine(line: string) {
    Strip(line) != "" && HasAlnum(line)
  }

  /** `[line.strip() for line in lines if line.strip() and any(c.isalnum() for c in line)]` */
  function KeyLines(lines: seq<string>): (points: seq<string>)
    ensures |points| <= |lines|
    ensures forall i :: 0 <= i < |points| ==> points[i] != "" && HasAlnum(points[i])
  {
    if lines == [] then []
    else
      var line := lines[0];
      if IsKeyLine(line) then
        KeyLineAlnum(line);
        [Strip(line)] + KeyLines(lines[1..])
      else KeyLines(lines[1..])
  }

  /** Stripping a line keeps its letters and digits. */
  lemma KeyLineAlnum(line: string)
    requires HasAlnum(line)
    ensures HasAlnum(Strip(line))
  {
    var i :| 0 <= i < |line| && IsAlnum(line[i]);
    StripKeepsNonSpace(line, line[i]);
    var j :| 0 <= j < |Strip(line)| && Strip(line)[j] == line[i];
  }

  /** Key points keep the order of the lines they come from: the points of
      two blocks of lines are those of the first, then those of the second. */
  lemma {:induction false} KeyLinesAppend(a: seq<string>, b: seq<string>)
    ensures KeyLines(a + b) == KeyLines(a) + KeyLines(b)
  {
    if a == [] {
      assert a + b == b;
    } else {
      assert (a + b)[0] == a[0];
      assert (a + b)[1..] == a[1..] + b;
      KeyLinesAppend(a[1..], b);
      if IsKeyLine(a[0]) {
        assert KeyLines(a + b) == [Strip(a[0])] + (KeyLines(a[1..]) + KeyLines(b));
      }
    }
  }

  /** A key point is exactly the stripped form of some qualifying line. */
  lemma {:induction false} KeyLinesMembers(lines: seq<string>, x: string)
    ensures x in KeyLines(lines) <==> exists j :: 0 <= j < |lines| && IsKeyLine(lines[j]) && x == Strip(lines[j])
  {
    if lines != [] {
      KeyLinesMembers(lines[1..], x);
      if exists j :: 0 <= j < |lines| && IsKeyLine(lines[j]) && x == Strip(lines[j]) {
        var j :| 0 <= j < |lines| && IsKeyLine(lines[j]) && x == Strip(lines[j]);
        if j > 0 {
          assert lines[1..][j - 1] == lines[j];
        }
      }
      if x in KeyLines(lines[1..]) {
        var j :| 0 <= j < |lines[1..]| && IsKeyLine(lines[1..][j]) && x == Strip(lines[1..][j]);
        assert lines[j + 1] == lines[1..][j];
      }
    }
  }

  /** A single line gives its stripped form exactly when it qualifies; with
      `KeyLinesAppend` this fixes the key points of any list of lines. */
  lemma KeyLinesSingle(line: string)
    ensures KeyLines([line]) == if IsKeyLine(line) then [Strip(line)] else []
  {
    assert [line][1..] == [];
  }

  /** Every key point is already stripped. */
  lemma {:induction false} KeyLinesStripped(lines: seq<string>)
    ensures forall i :: 0 <= i < |KeyLines(lines)| ==> Strip(KeyLines(lines)[i]) == KeyLines(lines)[i]
  {
    if lines != [] {
      KeyLinesStripped(lines[1..]);
      if IsKeyLine(lines[0]) {
        StripIdempotent(lines[0]);
        var ps := KeyLines(lines);
        assert ps[1..] == KeyLines(lines[1..]);
      }
    }
  }

  /** The key points read from an answer, at most `numPoints` of them
      (Python's `[:num_points]`, so a negative count drops points from the end). */
  function KeyPointsOf(response: string, numPoints: int): (points: seq<string>)
    ensures numPoints >= 0 ==> |points| <= numPoints
    ensures forall i :: 0 <= i < |points| ==> points[i] != "" && HasAlnum(points[i]) && Strip(points[i]) == points[i]
  {
    var all := KeyLines(Split(Strip(response), '\n'));
    KeyLinesStripped(Split(Strip(response), '\n'));
    PyTake(all, numPoints)
  }

  /** `LLMClient.extract_key_points` */
  function ExtractKeyPoints(client: Client, text: string, numPoints: int): (points: seq<string>)
    ensures points == KeyPointsOf(client.complete(GenerateRequest(client, KeyPointsPrompt(text, numPoints), None, 0.3, DEFAULT_MAX_TOKENS)), numPoints)
  {
    KeyPointsOf(Generate(client, KeyPointsPrompt(text, numPoints), None, 0.3, DEFAULT_MAX_TOKENS), numPoints)
  }
}
