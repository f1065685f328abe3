/** The Anthropic agent loop: discovers the tools, then runs at most twenty rounds of "ask the
    model, run the tools it requests", yielding progress events. The model endpoint, the tool
    calls through the session manager, JSON serialisation and markdown rendering are oracles. */
module AgentLoop {
  import opened Wrappers
  import opened Strings
  import opened Json
  import opened Namespacing
  import opened ServerConfigs
  import opened Html
  import opened Progress

  const ModelId := "claude-opus-4-6"
  const MaxTokens: nat := 8192

  function ApiErrorMessage(err: string): string {
    "Claude API fout: " + err
  }

  // ---- The request and response shapes of the Messages API ----

  datatype AnthropicTool = AnthropicTool(name: string, description: string, inputSchema: Json)

  /** A catalog entry as offered to the model: a missing description becomes empty. */
  function ToAnthropicTool(ct: ConnectedTool): (r: AnthropicTool)
    ensures r.name == ct.tool.name && r.inputSchema == ct.tool.inputSchema
    ensures ct.tool.description.Some? ==> r.description == ct.tool.description.value
    ensures ct.tool.description.None? ==> r.description == ""
  {
    AnthropicTool(ct.tool.name, if ct.tool.description.Some? then ct.tool.description.value else "", ct.tool.inputSchema)
  }

  datatype ToolUse = ToolUse(id: string, name: string, input: Json)

  /** A response content block; blocks of other kinds are ignored by the loop. */
  datatype ContentBlock = TextBlock(text: string) | ToolUseBlock(use: ToolUse) | OtherBlock

  datatype Response = Response(content: seq<ContentBlock>, stopReason: string)

  datatype ToolResultBlock = ToolResultBlock(toolUseId: string, content: string, isError: bool)

  datatype MessageParam =
    | UserQuery(text: string)
    | AssistantTurn(content: seq<ContentBlock>)
    | UserToolResults(results: seq<ToolResultBlock>)

  /** The fixed part of every request: the client's key, the model, the token limit and the
      system prompt. */
  datatype Settings = Settings(apiKey: string, model: string, maxTokens: nat, system: string)

  datatype Request = Request(settings: Settings, tools: seq<AnthropicTool>, messages: seq<MessageParam>)

  function MakeRequest(settings: Settings, tools: seq<AnthropicTool>, messages: seq<MessageParam>): Request {
    Request(settings, tools, messages)
  }

  /** The model endpoint: an answer, or the rendering of what it threw. */
  type Backend = Request -> Result<Response, string>

  /** Everything a run depends on besides its query: the outcome of tool discovery and the
      connection errors recorded by it, and the oracles. */
  datatype Env = Env(discovery: Result<seq<ConnectedTool>, string>, connectionErrors: seq<(string, string)>,
                     backend: Backend, callTool: ToolCaller, stringify: Json -> string,
                     markdown: string -> string)

  /** The `tool_use` blocks of a response, in order. */
  function ToolUses(content: seq<ContentBlock>): seq<ToolUse> {
    if content == [] then []
    else (if content[0].ToolUseBlock? then [content[0].use] else []) + ToolUses(content[1..])
  }

  /** A response requests no tool exactly when none of its blocks is a `tool_use` block. */
  lemma {:induction false} NoToolUses(content: seq<ContentBlock>)
    ensures |ToolUses(content)| == 0 <==> forall i :: 0 <= i < |content| ==> !content[i].ToolUseBlock?
  {
    if content != [] {
      NoToolUses(content[1..]);
      assert forall i :: 0 < i < |content| ==> content[i] == content[1..][i - 1];
    }
  }

  /** The texts of the `text` blocks of a response, in order. */
  function Texts(content: seq<ContentBlock>): seq<string> {
    if content == [] then []
    else (if content[0].TextBlock? then [content[0].text] else []) + Texts(content[1..])
  }

  function MakeThinking(text: string): ProgressEvent {
    Thinking(text)
  }

  /** The `thinking` events of one round, as the loop over the text blocks yields them. */
  function ThinkingEvents(texts: seq<string>): (r: seq<ProgressEvent>)
    ensures NoTerminal(r)
  {
    YieldEachIsMapFilter(texts, |texts|, NonBlank, MakeThinking);
    YieldEach(texts, |texts|, NonBlank, MakeThinking)
  }

  /** A `thinking` event is yielded exactly for each text block whose trimmed text is non-empty,
      carrying the untrimmed text, in block order. */
  lemma ThinkingEventsExactly(texts: seq<string>)
    ensures ThinkingEvents(texts) == Map(Filter(texts, NonBlank), MakeThinking)
  {
    YieldEachIsMapFilter(texts, |texts|, NonBlank, MakeThinking);
    assert texts[..|texts|] == texts;
  }

  /** The block fed back for one tool call. */
  function ResultBlock(use: ToolUse, r: Result<Json, string>, stringify: Json -> string): ToolResultBlock {
    if r.Ok? then ToolResultBlock(use.id, ResultText(r.value, stringify), false)
    else ToolResultBlock(use.id, ToolFailedText(r.error), true)
  }

  /** The `tool_call` event announcing a requested call. */
  function Announce(use: ToolUse): ProgressEvent {
    ToolCall(use.name, ServerIdOf(use.name), use.input)
  }

  /** Running a call given the events so far: its `tool_result` event and its result block. */
  function Perform(env: Env): (ToolUse, seq<ProgressEvent>) -> (ProgressEvent, ToolResultBlock) {
    (use: ToolUse, evs: seq<ProgressEvent>) =>
      var outcome := env.callTool(use.name, use.input, evs);
      (ToolResult(use.name, outcome.Ok?), ResultBlock(use, outcome, env.stringify))
  }

  /** The events and result blocks after the first `k` tool calls of a round. */
  function RunTools(uses: seq<ToolUse>, k: nat, evs0: seq<ProgressEvent>, env: Env): (r: (seq<ProgressEvent>, seq<ToolResultBlock>))
    requires k <= |uses|
    ensures |r.0| == |evs0| + 2 * k && |r.1| == k
    ensures r.0[..|evs0|] == evs0
  {
    RunEachPrefix(uses, 0, k, evs0, Announce, Perform(env));
    RunEach(uses, k, evs0, Announce, Perform(env))
  }

  /** In a tool round every requested call yields `tool_call` and then exactly one `tool_result`,
      in request order, and contributes exactly one result block answering its `tool_use_id`; the
      tool sees every event up to its own `tool_call`; a failure gives `ok: false` and an error
      block, and the round goes on. */
  lemma RunToolsShape(uses: seq<ToolUse>, k: nat, evs0: seq<ProgressEvent>, env: Env)
    requires k <= |uses|
    ensures RunTools(uses, k, evs0, env).0[..|evs0|] == evs0
    ensures forall i :: 0 <= i < k ==>
      var r := RunTools(uses, k, evs0, env);
      var here := |evs0| + 2 * i;
      var outcome := env.callTool(uses[i].name, uses[i].input, r.0[..here + 1]);
      && r.0[here] == ToolCall(uses[i].name, ServerIdOf(uses[i].name), uses[i].input)
      && r.0[here + 1] == ToolResult(uses[i].name, outcome.Ok?)
      && r.1[i].toolUseId == uses[i].id
      && r.1[i].isError == outcome.Err?
      && r.1[i] == ResultBlock(uses[i], outcome, env.stringify)
  {
    RunEachPrefix(uses, 0, k, evs0, Announce, Perform(env));
    forall i | 0 <= i < k
      ensures var r := RunTools(uses, k, evs0, env);
        var here := |evs0| + 2 * i;
        var outcome := env.callTool(uses[i].name, uses[i].input, r.0[..here + 1]);
        && r.0[here] == ToolCall(uses[i].name, ServerIdOf(uses[i].name), uses[i].input)
        && r.0[here + 1] == ToolResult(uses[i].name, outcome.Ok?)
        && r.1[i].toolUseId == uses[i].id
        && r.1[i].isError == outcome.Err?
        && r.1[i] == ResultBlock(uses[i], outcome, env.stringify)
    {
      RunEachAt(uses, k, evs0, Announce, Perform(env), i);
    }
  }

  /** Tool calls add no terminal event and no `done`. */
  lemma RunToolsQuiet(uses: seq<ToolUse>, evs0: seq<ProgressEvent>, env: Env)
    requires NoTerminal(evs0) && DonesAreDocuments(evs0)
    ensures var evs := RunTools(uses, |uses|, evs0, env).0;
      NoTerminal(evs) && DonesAreDocuments(evs)
  {
    var evs := RunTools(uses, |uses|, evs0, env).0;
    RunEachPrefix(uses, 0, |uses|, evs0, Announce, Perform(env));
    RunEachKeeps(uses, |uses|, evs0, Announce, Perform(env), IsToolEvent);
    ToolEventsQuiet(evs, |evs0|);
  }

  /** The response ends the run: no tool requested, or the model says its turn is over. */
  predicate IsFinal(response: Response)
    ensures IsFinal(response) <==>
      response.stopReason == "end_turn" || forall i :: 0 <= i < |response.content| ==> !response.content[i].ToolUseBlock?
  {
    NoToolUses(response.content);
    |ToolUses(response.content)| == 0 || response.stopReason == "end_turn"
  }

  /** One iteration of the loop. */
  function Round(settings: Settings, query: string, tools: seq<AnthropicTool>, st: Loop<MessageParam>, env: Env): (r: Loop<MessageParam>)
    ensures r.calls == st.calls + 1
    ensures r.finished ==> r.messages == st.messages
    ensures !r.finished ==> |r.messages| == |st.messages| + 2 && r.messages[..|st.messages|] == st.messages
    ensures |r.events| > |st.events| && r.events[..|st.events|] == st.events
  {
    var response := env.backend(MakeRequest(settings, tools, st.messages));
    if response.Err? then
      Loop(st.messages, st.events + [Error(ApiErrorMessage(response.error))], st.calls + 1, true)
    else
      var content := response.value.content;
      var texts := Texts(content);
      var thought := st.events + ThinkingEvents(texts);
      if IsFinal(response.value) then
        Loop(st.messages, thought + [Done(ExtractOrWrapHtml(Join(texts, ""), query, env.markdown))], st.calls + 1, true)
      else
        var uses := ToolUses(content);
        var ran := RunTools(uses, |uses|, thought, env);
        Loop(st.messages + [AssistantTurn(content), UserToolResults(ran.1)], ran.0, st.calls + 1, false)
  }

  function Start(query: string): Loop<MessageParam> {
    Loop([UserQuery(query)], [], 0, false)
  }

  function Step(settings: Settings, query: string, tools: seq<AnthropicTool>, env: Env): Loop<MessageParam> -> Loop<MessageParam> {
    (st: Loop<MessageParam>) => Round(settings, query, tools, st, env)
  }

  /** `step` is the loop body of a run with these settings, query, tools and environment. */
  ghost predicate IsRound(settings: Settings, query: string, tools: seq<AnthropicTool>, env: Env,
                          step: Loop<MessageParam> -> Loop<MessageParam>) {
    forall st {:trigger Round(settings, query, tools, st, env)} :: step(st) == Round(settings, query, tools, st, env)
  }

  lemma StepIsRound(settings: Settings, query: string, tools: seq<AnthropicTool>, env: Env)
    ensures IsRound(settings, query, tools, env, Step(settings, query, tools, env))
  {
  }

  /** What a run yields and the history it built, with the number of model calls. */
  datatype Outcome = Outcome(events: seq<ProgressEvent>, messages: seq<MessageParam>, calls: nat)

  function RunSpec(settings: Settings, query: string, env: Env): (r: Outcome)
    ensures r.events != []
    ensures r.calls <= MaxIterations
  {
    if env.discovery.Err? then Outcome([Error(LoadFailedMessage(env.discovery.error))], [], 0)
    else
      var tools := Map(env.discovery.value, ToAnthropicTool);
      if |tools| == 0 then Outcome([Error(NoToolsMessage(env.connectionErrors))], [], 0)
      else
        var step := Step(settings, query, tools, env);
        IterateCalls(Start(query), step, MaxIterations);
        IterateInvariant(Start(query), step, (st: Loop<MessageParam>) => st.finished ==> st.events != [], MaxIterations);
        var st := Iterate(Start(query), step, MaxIterations);
        Outcome(if st.finished then st.events else st.events + [Error(ExhaustedMessage)], st.messages, st.calls)
  }

  // ---- Properties of a round ----

  /** A failing model call ends the run with one `Claude API fout` error. */
  lemma RoundApiError(settings: Settings, query: string, tools: seq<AnthropicTool>, st: Loop<MessageParam>, env: Env)
    requires env.backend(MakeRequest(settings, tools, st.messages)).Err?
    ensures var st' := Round(settings, query, tools, st, env);
      && st'.finished && st'.messages == st.messages && st'.calls == st.calls + 1
      && st'.events == st.events + [Error(ApiErrorMessage(env.backend(MakeRequest(settings, tools, st.messages)).error))]
  {
  }

  /** A response without tool requests, or one whose stop reason is `end_turn` (even with tool
      requests), ends the run: the round's thinking events, then `done` with the finalised
      concatenation of the text blocks; the history is unchanged. */
  lemma RoundFinal(settings: Settings, query: string, tools: seq<AnthropicTool>, st: Loop<MessageParam>, env: Env)
    requires var response := env.backend(MakeRequest(settings, tools, st.messages));
      response.Ok? && IsFinal(response.value)
    ensures var texts := Texts(env.backend(MakeRequest(settings, tools, st.messages)).value.content);
      var st' := Round(settings, query, tools, st, env);
      && st'.finished && st'.messages == st.messages && st'.calls == st.calls + 1
      && st'.events == st.events + ThinkingEvents(texts) + [Done(ExtractOrWrapHtml(Join(texts, ""), query, env.markdown))]
  {
  }

  lemma RoundContinues(settings: Settings, query: string, tools: seq<AnthropicTool>, st: Loop<MessageParam>, env: Env)
    requires var response := env.backend(MakeRequest(settings, tools, st.messages));
      response.Ok? && !IsFinal(response.value)
    ensures var content := env.backend(MakeRequest(settings, tools, st.messages)).value.content;
      var uses := ToolUses(content);
      var ran := RunTools(uses, |uses|, st.events + ThinkingEvents(Texts(content)), env);
      Round(settings, query, tools, st, env) ==
        Loop(st.messages + [AssistantTurn(content), UserToolResults(ran.1)], ran.0, st.calls + 1, false)
  {
  }

  /** A tool round appends exactly two messages: the assistant's content, then one user message
      whose result blocks answer the tool requests one to one, in order; its events are the
      thinking events followed by a `tool_call`/`tool_result` pair per request. */
  lemma ToolRound(settings: Settings, query: string, tools: seq<AnthropicTool>, st: Loop<MessageParam>, env: Env)
    requires var response := env.backend(MakeRequest(settings, tools, st.messages));
      response.Ok? && !IsFinal(response.value)
    ensures var content := env.backend(MakeRequest(settings, tools, st.messages)).value.content;
      var uses := ToolUses(content);
      var st' := Round(settings, query, tools, st, env);
      var before := |st.events + ThinkingEvents(Texts(content))|;
      && !st'.finished && st'.calls == st.calls + 1
      && |st'.messages| == |st.messages| + 2
      && st'.messages[..|st.messages|] == st.messages
      && st'.messages[|st.messages|] == AssistantTurn(content)
      && st'.messages[|st.messages| + 1].UserToolResults?
      && |st'.messages[|st.messages| + 1].results| == |uses|
      && (forall i :: 0 <= i < |uses| ==> st'.messages[|st.messages| + 1].results[i].toolUseId == uses[i].id)
      && st'.events[..before] == st.events + ThinkingEvents(Texts(content))
      && |st'.events| == before + 2 * |uses|
      && (forall i :: 0 <= i < |uses| ==>
            && st'.events[before + 2 * i] == ToolCall(uses[i].name, ServerIdOf(uses[i].name), uses[i].input)
            && st'.events[before + 2 * i + 1].ToolResult?
            && st'.events[before + 2 * i + 1].toolName == uses[i].name)
  {
    var content := env.backend(MakeRequest(settings, tools, st.messages)).value.content;
    var uses := ToolUses(content);
    RunToolsShape(uses, |uses|, st.events + ThinkingEvents(Texts(content)), env);
  }

  /** Thinking events add neither a terminal event nor a `done`. */
  lemma ThinkingIsQuiet(events: seq<ProgressEvent>, texts: seq<string>)
    requires NoTerminal(events) && DonesAreDocuments(events)
    ensures NoTerminal(events + ThinkingEvents(texts)) && DonesAreDocuments(events + ThinkingEvents(texts))
  {
    var thought := ThinkingEvents(texts);
    assert NoTerminal(thought) && DonesAreDocuments(thought);
    DonesAppend(events, thought);
  }

  /** A final round ends with exactly one terminal event, a `done` carrying a document. */
  lemma FinalTerminal(settings: Settings, query: string, tools: seq<AnthropicTool>, st: Loop<MessageParam>, env: Env)
    requires NoTerminal(st.events) && DonesAreDocuments(st.events)
    requires var response := env.backend(MakeRequest(settings, tools, st.messages));
      response.Ok? && IsFinal(response.value)
    ensures var st' := Round(settings, query, tools, st, env);
      st'.finished && EndsWithOneTerminal(st'.events) && DonesAreDocuments(st'.events)
  {
    var texts := Texts(env.backend(MakeRequest(settings, tools, st.messages)).value.content);
    RoundFinal(settings, query, tools, st, env);
    FinishWithDocument(st.events, ThinkingEvents(texts), Join(texts, ""), query, env.markdown);
  }

  /** A tool round adds no terminal event and no `done`. */
  lemma ToolsTerminal(settings: Settings, query: string, tools: seq<AnthropicTool>, st: Loop<MessageParam>, env: Env)
    requires NoTerminal(st.events) && DonesAreDocuments(st.events)
    requires var response := env.backend(MakeRequest(settings, tools, st.messages));
      response.Ok? && !IsFinal(response.value)
    ensures var st' := Round(settings, query, tools, st, env);
      !st'.finished && NoTerminal(st'.events) && DonesAreDocuments(st'.events)
  {
    var content := env.backend(MakeRequest(settings, tools, st.messages)).value.content;
    var thought := st.events + ThinkingEvents(Texts(content));
    ThinkingIsQuiet(st.events, Texts(content));
    RoundContinues(settings, query, tools, st, env);
    RunToolsQuiet(ToolUses(content), thought, env);
  }

  /** A round started without a terminal event either adds none and goes on, or ends with exactly
      one; `done` events carry documents. */
  lemma RoundTerminal(settings: Settings, query: string, tools: seq<AnthropicTool>, st: Loop<MessageParam>, env: Env)
    requires NoTerminal(st.events) && DonesAreDocuments(st.events)
    ensures var st' := Round(settings, query, tools, st, env);
      && (st'.finished ==> EndsWithOneTerminal(st'.events))
      && (!st'.finished ==> NoTerminal(st'.events))
      && DonesAreDocuments(st'.events)
  {
    var response := env.backend(MakeRequest(settings, tools, st.messages));
    if response.Err? {
      RoundApiError(settings, query, tools, st, env);
      var last := Error(ApiErrorMessage(response.error));
      Terminate(st.events, last);
      DonesAppend(st.events, [last]);
    } else if IsFinal(response.value) {
      FinalTerminal(settings, query, tools, st, env);
    } else {
      ToolsTerminal(settings, query, tools, st, env);
    }
  }

  /** The loop's invariant: a history of the query and two messages per tool round, and no
      terminal event until the one that finishes the run; `done` events carry documents. */
  ghost predicate Inv(query: string, st: Loop<MessageParam>) {
    && |st.messages| >= 1 && st.messages[0] == UserQuery(query)
    && (!st.finished ==> NoTerminal(st.events) && |st.messages| == 1 + 2 * st.calls)
    && (st.finished ==> EndsWithOneTerminal(st.events))
    && DonesAreDocuments(st.events)
  }

  lemma RoundKeepsInv(settings: Settings, query: string, tools: seq<AnthropicTool>, st: Loop<MessageParam>, env: Env)
    requires Inv(query, st) && !st.finished
    ensures Inv(query, Round(settings, query, tools, st, env))
  {
    RoundTerminal(settings, query, tools, st, env);
    var response := env.backend(MakeRequest(settings, tools, st.messages));
    if response.Ok? && !IsFinal(response.value) {
      ToolRound(settings, query, tools, st, env);
    }
  }

  /** Each iteration calls the model once. */
  lemma RoundCalls(settings: Settings, query: string, tools: seq<AnthropicTool>, env: Env)
    ensures forall st: Loop<MessageParam> :: Step(settings, query, tools, env)(st).calls == st.calls + 1
  {
  }

  /** After any number of iterations: at most one model call per iteration, a history of the
      query and two messages per tool round, and no terminal event until the one that finishes
      the run. */
  lemma RoundsInvariant(settings: Settings, query: string, tools: seq<AnthropicTool>, env: Env, n: nat)
    ensures var st := Iterate(Start(query), Step(settings, query, tools, env), n);
      && st.calls <= n
      && (!st.finished ==> st.calls == n && NoTerminal(st.events) && |st.messages| == 1 + 2 * n)
      && (st.finished ==> EndsWithOneTerminal(st.events))
      && |st.messages| >= 1 && st.messages[0] == UserQuery(query)
      && DonesAreDocuments(st.events)
  {
    var step := Step(settings, query, tools, env);
    forall st | Inv(query, st) && !st.finished
      ensures Inv(query, step(st))
    {
      RoundKeepsInv(settings, query, tools, st, env);
    }
    IterateInvariant(Start(query), step, st => Inv(query, st), n);
    RoundCalls(settings, query, tools, env);
    IterateCalls(Start(query), step, n);
  }

  // ---- Properties of a run ----

  /** Every run yields exactly one terminal event, as its last event; every `done` carries a complete
      HTML document; the model is called at most `MaxIterations` times. */
  lemma RunTerminatesOnce(settings: Settings, query: string, env: Env)
    ensures var o := RunSpec(settings, query, env);
      EndsWithOneTerminal(o.events) && DonesAreDocuments(o.events) && o.calls <= MaxIterations
  {
    if env.discovery.Ok? {
      var tools := Map(env.discovery.value, ToAnthropicTool);
      if |tools| > 0 {
        RoundsInvariant(settings, query, tools, env, MaxIterations);
        var st := Iterate(Start(query), Step(settings, query, tools, env), MaxIterations);
        if !st.finished {
          Terminate(st.events, Error(ExhaustedMessage));
        }
      }
    }
  }

  /** A failed discovery, or one that found no tools, yields a single error and calls no model. */
  lemma RunWithoutTools(settings: Settings, query: string, env: Env)
    requires env.discovery.Err? || env.discovery.value == []
    ensures var o := RunSpec(settings, query, env);
      && o.calls == 0 && o.messages == []
      && o.events == [Error(if env.discovery.Err? then LoadFailedMessage(env.discovery.error)
                            else NoToolsMessage(env.connectionErrors))]
  {
  }

  /** The model keeps requesting tools, whatever it is sent. */
  ghost predicate AlwaysRequestsTools(backend: Backend) {
    forall r :: backend(r).Ok? && !IsFinal(backend(r).value)
  }

  /** If every round requests tools, the model is called exactly `MaxIterations` times and the run
      ends with the exhaustion error. */
  lemma RunExhausts(settings: Settings, query: string, env: Env)
    requires env.discovery.Ok? && env.discovery.value != []
    requires AlwaysRequestsTools(env.backend)
    ensures var o := RunSpec(settings, query, env);
      o.calls == MaxIterations && |o.events| > 0 && o.events[|o.events| - 1] == Error(ExhaustedMessage)
  {
    var tools := Map(env.discovery.value, ToAnthropicTool);
    var step := Step(settings, query, tools, env);
    forall st: Loop<MessageParam> | !st.finished
      ensures !step(st).finished
    {
      assert env.backend(MakeRequest(settings, tools, st.messages)).Ok?;
    }
    IterateNeverFinishes(Start(query), step, MaxIterations);
    RoundCalls(settings, query, tools, env);
    IterateCalls(Start(query), step, MaxIterations);
  }


  /** The loop over a response's text blocks: a `thinking` event for each non-blank one. */
  method YieldThinking(events: seq<ProgressEvent>, textBlocks: seq<string>) returns (events': seq<ProgressEvent>)
    ensures events' == events + ThinkingEvents(textBlocks)
  {
    events' := events;
    for j := 0 to |textBlocks|
      invariant events' == events + YieldEach(textBlocks, j, NonBlank, MakeThinking)
    {
      if Trim(textBlocks[j]) != [] {
        events' := events' + [Thinking(textBlocks[j])];
      }
    }
  }

  /** The loop over a response's tool requests: announce, call, report, and collect the result
      block; a failing call is reported and collected like any other. */
  method ExecuteTools(toolUseBlocks: seq<ToolUse>, events: seq<ProgressEvent>, env: Env)
    returns (events': seq<ProgressEvent>, toolResults: seq<ToolResultBlock>)
    ensures (events', toolResults) == RunTools(toolUseBlocks, |toolUseBlocks|, events, env)
  {
    events' := events;
    toolResults := [];
    for k := 0 to |toolUseBlocks|
      invariant (events', toolResults) == RunTools(toolUseBlocks, k, events, env)
    {
      var toolUse := toolUseBlocks[k];
      var serverId := ServerIdOf(toolUse.name);
      events' := events' + [ToolCall(toolUse.name, serverId, toolUse.input)];
      var result := env.callTool(toolUse.name, toolUse.input, events');
      if result.Ok? {
        var resultText := ResultText(result.value, env.stringify);
        events' := events' + [ToolResult(toolUse.name, true)];
        toolResults := toolResults + [ToolResultBlock(toolUse.id, resultText, false)];
      } else {
        events' := events' + [ToolResult(toolUse.name, false)];
        toolResults := toolResults + [ToolResultBlock(toolUse.id, ToolFailedText(result.error), true)];
      }
    }
  }

  /** `AgentLoop`: the model client is made with the API key; every request names the same
      model, token limit and system prompt. */
  class AgentLoop {
    const settings: Settings

    constructor(apiKey: string)
      ensures settings == Settings(apiKey, ModelId, MaxTokens, SystemPrompt)
    {
      settings := Settings(apiKey, ModelId, MaxTokens, SystemPrompt);
    }

    /** One pass of the loop body of `run`: one model call, then either the terminal event or
        the tool round; it is the round of the specification. */
    method Iteration(userQuery: string, tools: seq<AnthropicTool>, messages: seq<MessageParam>,
                     events: seq<ProgressEvent>, env: Env, ghost step: Loop<MessageParam> -> Loop<MessageParam>, ghost st: Loop<MessageParam>)
      returns (messages': seq<MessageParam>, events': seq<ProgressEvent>, finished: bool)
      requires IsRound(settings, userQuery, tools, env, step)
      requires st.messages == messages && st.events == events
      ensures messages' == step(st).messages && events' == step(st).events && finished == step(st).finished
    {
      assert step(st) == Round(settings, userQuery, tools, st, env);
      messages' := messages;
      var response := env.backend(MakeRequest(settings, tools, messages));
      if response.Err? {
        RoundApiError(settings, userQuery, tools, st, env);
        events' := events + [Error(ApiErrorMessage(response.error))];
        return messages', events', true;
      }
      var toolUseBlocks := ToolUses(response.value.content);
      var textBlocks := Texts(response.value.content);
      events' := YieldThinking(events, textBlocks);
      if |toolUseBlocks| == 0 || response.value.stopReason == "end_turn" {
        RoundFinal(settings, userQuery, tools, st, env);
        var finalText := Join(textBlocks, "");
        events' := events' + [Done(ExtractOrWrapHtml(finalText, userQuery, env.markdown))];
        return messages', events', true;
      }
      RoundContinues(settings, userQuery, tools, st, env);
      messages' := messages' + [AssistantTurn(response.value.content)];
      var toolResults;
      events', toolResults := ExecuteTools(toolUseBlocks, events', env);
      messages' := messages' + [UserToolResults(toolResults)];
      finished := false;
    }

    /** `run`: the events yielded, in order, and the history sent to the model. */
    method Run(userQuery: string, env: Env) returns (events: seq<ProgressEvent>, messages: seq<MessageParam>)
      ensures var o := RunSpec(settings, userQuery, env); events == o.events && messages == o.messages
    {
      events := [];
      messages := [];
      if env.discovery.Err? {
        events := [Error(LoadFailedMessage(env.discovery.error))];
        return;
      }
      var tools := Map(env.discovery.value, ToAnthropicTool);
      if |tools| == 0 {
        events := [Error(NoToolsMessage(env.connectionErrors))];
        return;
      }
      StepIsRound(settings, userQuery, tools, env);
      events, messages := Rounds(userQuery, tools, env, Step(settings, userQuery, tools, env));
    }

    /** The `for` loop of `run`: at most `MaxIterations` rounds, then the exhaustion error. */
    method Rounds(userQuery: string, tools: seq<AnthropicTool>, env: Env, ghost step: Loop<MessageParam> -> Loop<MessageParam>)
      returns (events: seq<ProgressEvent>, messages: seq<MessageParam>)
      requires IsRound(settings, userQuery, tools, env, step)
      ensures var st := Iterate(Start(userQuery), step, MaxIterations);
        && messages == st.messages
        && events == if st.finished then st.events else st.events + [Error(ExhaustedMessage)]
    {
      messages := [UserQuery(userQuery)];
      events := [];
      var iteration := 0;
      while iteration < MaxIterations
        invariant 0 <= iteration <= MaxIterations
        invariant var st := Iterate(Start(userQuery), step, iteration);
          !st.finished && st.messages == messages && st.events == events
      {
        ghost var st := Iterate(Start(userQuery), step, iteration);
        var finished;
        messages, events, finished := Iteration(userQuery, tools, messages, events, env, step, st);
        IterateNext(Start(userQuery), step, iteration);
        if finished {
          IterateStable(Start(userQuery), step, iteration + 1, MaxIterations);
          return;
        }
        iteration := iteration + 1;
      }
      events := events + [Error(ExhaustedMessage)];
    }
  }
}
