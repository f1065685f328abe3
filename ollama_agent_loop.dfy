/** The agent loop against an OpenAI-compatible chat completions endpoint (Ollama or any other
    local or remote server speaking that protocol). It yields the same progress events as the
    Anthropic loop and shares its prompt, limits and messages; the HTTP exchange, the tool calls,
    JSON parsing and serialisation and markdown rendering are oracles. */
module OllamaAgentLoop {
  import opened Wrappers
  import opened Strings
  import opened Json
  import opened Namespacing
  import opened ServerConfigs
  import opened Html
  import opened Progress

  // ---- The request ----

  datatype OpenAITool = OpenAITool(name: string, description: string, parameters: Json)

  /** The schema used for a tool that declares none: an object without properties. */
  const DefaultParameters: Json := JObject([("type", JString("object")), ("properties", JObject([]))])

  /** A catalog entry as offered to the model: a missing description becomes empty and a missing
      input schema the empty object schema. */
  function ToOpenAITool(ct: ConnectedTool): (t: OpenAITool)
    ensures t.name == ct.tool.name
    ensures t.parameters != JNull
    ensures t.parameters == (if ct.tool.inputSchema.JNull? then DefaultParameters else ct.tool.inputSchema)
    ensures t.description == (if ct.tool.description.Some? then ct.tool.description.value else "")
  {
    OpenAITool(ct.tool.name,
               if ct.tool.description.Some? then ct.tool.description.value else "",
               if ct.tool.inputSchema.JNull? then DefaultParameters else ct.tool.inputSchema)
  }

  /** A tool call requested by the model; its arguments are JSON text. */
  datatype ToolCallReq = ToolCallReq(id: string, name: string, arguments: string)

  datatype ChatMessage =
    | SystemMsg(content: string)
    | UserMsg(content: string)
    | AssistantMsg(text: Option<string>, toolCalls: seq<ToolCallReq>)
    | ToolMsg(toolCallId: string, content: string)

  /** The body of a request; `tools` and `tool_choice` are left out when there are no tools. */
  datatype ChatRequest = ChatRequest(model: string, messages: seq<ChatMessage>,
                                     tools: Option<seq<OpenAITool>>, toolChoice: Option<string>)

  datatype HttpRequest = HttpRequest(url: string, headers: seq<(string, string)>, body: ChatRequest)

  /** Where and as whom the loop talks to the endpoint, and the system prompt that opens every
      history. */
  datatype Endpoint = Endpoint(baseUrl: string, model: string, apiKey: Option<string>, system: string)

  /** An API key is sent only when it is present and not empty. */
  predicate HasKey(apiKey: Option<string>) {
    apiKey.Some? && apiKey.value != ""
  }

  function Headers(apiKey: Option<string>): (hs: seq<(string, string)>)
    ensures |hs| >= 1 && hs[0] == ("Content-Type", "application/json")
  {
    [("Content-Type", "application/json")]
      + (if HasKey(apiKey) then [("Authorization", "Bearer " + apiKey.value)] else [])
  }

  /** The `Authorization` header is there exactly when a key is given, carrying it as a bearer
      token, and no header is repeated. */
  lemma HeadersAuthorization(apiKey: Option<string>)
    ensures var hs := Headers(apiKey);
      && (HasKey(apiKey) <==> exists i :: 0 <= i < |hs| && hs[i].0 == "Authorization")
      && (HasKey(apiKey) ==> hs == [("Content-Type", "application/json"), ("Authorization", "Bearer " + apiKey.value)])
      && (!HasKey(apiKey) ==> hs == [("Content-Type", "application/json")])
  {
    var hs := Headers(apiKey);
    if HasKey(apiKey) {
      assert hs[1].0 == "Authorization";
    } else {
      forall i | 0 <= i < |hs| ensures hs[i].0 != "Authorization" {
        assert hs[i].0 == "Content-Type";
        assert hs[i].0[0] != "Authorization"[0];
      }
    }
  }

  const CompletionsPath := "/v1/chat/completions"

  function MakeHttpRequest(ep: Endpoint, tools: seq<OpenAITool>, messages: seq<ChatMessage>): (req: HttpRequest)
    ensures req.body.messages == messages
    ensures req.body.tools.Some? <==> tools != []
    ensures req.body.toolChoice.Some? <==> tools != []
  {
    HttpRequest(ep.baseUrl + CompletionsPath, Headers(ep.apiKey),
                ChatRequest(ep.model, messages,
                            if |tools| > 0 then Some(tools) else None,
                            if |tools| > 0 then Some("auto") else None))
  }

  // ---- The response ----

  datatype Choice = Choice(finishReason: string, content: Option<string>, toolCalls: Option<seq<ToolCallReq>>)

  /** What `fetch` and reading its body come to: something thrown (rendered), a response that is
      not ok with its status and text, or the parsed choices. */
  datatype HttpOutcome =
    | Thrown(err: string)
    | HttpError(status: nat, text: string)
    | HttpOk(choices: seq<Choice>)

  type Fetch = HttpRequest -> HttpOutcome

  function HttpErrorMessage(status: nat, text: string): string {
    "OpenAI API fout " + NatToString(status) + ": " + text
  }

  /** The status in the `OpenAI API fout` message is the response's own: the digits after the lead read back as `status`. */
  lemma HttpErrorMessageStatus(status: nat, text: string)
    ensures var m := HttpErrorMessage(status, text); var d := |NatToString(status)|;
      m[..16] == "OpenAI API fout " && DecimalValue(m[16..16 + d]) == status && m[16 + d..] == ": " + text
  {
    var m := HttpErrorMessage(status, text);
    var d := |NatToString(status)|;
    assert m[16..16 + d] == NatToString(status);
    NatToStringValue(status);
  }

  function ConnectionErrorMessage(err: string): string {
    "Verbindingsfout: " + err
  }

  const EmptyAnswerMessage := "Leeg antwoord van API."

  /** Everything a run depends on besides its query. */
  datatype OllamaEnv = OllamaEnv(discovery: Result<seq<ConnectedTool>, string>, connectionErrors: seq<(string, string)>,
                                 fetch: Fetch, callTool: ToolCaller, stringify: Json -> string,
                                 parse: string -> Option<Json>, markdown: string -> string)

  /** A call's arguments as handed to the tool: parsed JSON text (`{}` when the text is empty),
      or the empty object when it does not parse. */
  function ToolInput(arguments: string, parse: string -> Option<Json>): (input: Json)
    ensures parse(if arguments == "" then "{}" else arguments).None? ==> input == EmptyObject
    ensures parse(if arguments == "" then "{}" else arguments).Some? ==>
      input == parse(if arguments == "" then "{}" else arguments).value
  {
    match parse(if arguments == "" then "{}" else arguments)
    case Some(j) => j
    case None => EmptyObject
  }

  // ---- Running the requested tools ----

  /** The message fed back for one tool call. */
  function ToolMessage(call: ToolCallReq, r: Result<Json, string>, stringify: Json -> string): (m: ChatMessage)
    ensures m.ToolMsg? && m.toolCallId == call.id
  {
    ToolMsg(call.id, if r.Ok? then ResultText(r.value, stringify) else ToolFailedText(r.error))
  }

  /** The `tool_call` event announcing a call, with its parsed arguments. */
  function Announce(env: OllamaEnv): ToolCallReq -> ProgressEvent {
    (call: ToolCallReq) => ToolCall(call.name, ServerIdOf(call.name), ToolInput(call.arguments, env.parse))
  }

  /** Running a call given the events so far: its `tool_result` event and its tool message. */
  function Perform(env: OllamaEnv): (ToolCallReq, seq<ProgressEvent>) -> (ProgressEvent, ChatMessage) {
    (call: ToolCallReq, evs: seq<ProgressEvent>) =>
      var outcome := env.callTool(call.name, ToolInput(call.arguments, env.parse), evs);
      (ToolResult(call.name, outcome.Ok?), ToolMessage(call, outcome, env.stringify))
  }

  /** The events and tool messages after the first `k` tool calls of a round. */
  function RunCalls(calls: seq<ToolCallReq>, k: nat, evs0: seq<ProgressEvent>, env: OllamaEnv)
    : (r: (seq<ProgressEvent>, seq<ChatMessage>))
    requires k <= |calls|
    ensures |r.0| == |evs0| + 2 * k && |r.1| == k
    ensures r.0[..|evs0|] == evs0
  {
    RunEachPrefix(calls, 0, k, evs0, Announce(env), Perform(env));
    RunEach(calls, k, evs0, Announce(env), Perform(env))
  }

  /** Every requested call yields `tool_call` and then exactly one `tool_result`, in request
      order, and one tool message answering its `tool_call_id`; the tool sees every event up to
      its own `tool_call`; a failure is reported with `ok: false` and the round goes on. */
  lemma RunCallsShape(calls: seq<ToolCallReq>, k: nat, evs0: seq<ProgressEvent>, env: OllamaEnv)
    requires k <= |calls|
    ensures RunCalls(calls, k, evs0, env).0[..|evs0|] == evs0
    ensures forall i :: 0 <= i < k ==>
      var r := RunCalls(calls, k, evs0, env);
      var here := |evs0| + 2 * i;
      var input := ToolInput(calls[i].arguments, env.parse);
      var outcome := env.callTool(calls[i].name, input, r.0[..here + 1]);
      && r.0[here] == ToolCall(calls[i].name, ServerIdOf(calls[i].name), input)
      && r.0[here + 1] == ToolResult(calls[i].name, outcome.Ok?)
      && r.1[i].ToolMsg? && r.1[i].toolCallId == calls[i].id
      && r.1[i] == ToolMessage(calls[i], outcome, env.stringify)
  {
    RunEachPrefix(calls, 0, k, evs0, Announce(env), Perform(env));
    forall i | 0 <= i < k
      ensures var r := RunCalls(calls, k, evs0, env);
        var here := |evs0| + 2 * i;
        var input := ToolInput(calls[i].arguments, env.parse);
        var outcome := env.callTool(calls[i].name, input, r.0[..here + 1]);
        && r.0[here] == ToolCall(calls[i].name, ServerIdOf(calls[i].name), input)
        && r.0[here + 1] == ToolResult(calls[i].name, outcome.Ok?)
        && r.1[i].ToolMsg? && r.1[i].toolCallId == calls[i].id
        && r.1[i] == ToolMessage(calls[i], outcome, env.stringify)
    {
      RunEachAt(calls, k, evs0, Announce(env), Perform(env), i);
    }
  }

  /** Tool calls add no terminal event and no `done`. */
  lemma RunCallsQuiet(calls: seq<ToolCallReq>, evs0: seq<ProgressEvent>, env: OllamaEnv)
    requires NoTerminal(evs0) && DonesAreDocuments(evs0)
    ensures var evs := RunCalls(calls, |calls|, evs0, env).0;
      NoTerminal(evs) && DonesAreDocuments(evs)
  {
    var evs := RunCalls(calls, |calls|, evs0, env).0;
    RunEachPrefix(calls, 0, |calls|, evs0, Announce(env), Perform(env));
    RunEachKeeps(calls, |calls|, evs0, Announce(env), Perform(env), IsToolEvent);
    ToolEventsQuiet(evs, |evs0|);
  }

  // ---- The rounds of the loop ----

  /** The tool calls of a choice; none when it carries no list. */
  function CallsOf(choice: Choice): seq<ToolCallReq> {
    if choice.toolCalls.Some? then choice.toolCalls.value else []
  }

  /** The text of a choice; empty when it carries none. */
  function TextOf(choice: Choice): string {
    if choice.content.Some? then choice.content.value else ""
  }

  /** The single `thinking` event of a round, when its text is not blank. */
  function ThinkingOf(text: string): (r: seq<ProgressEvent>)
    ensures |r| <= 1 && NoTerminal(r)
    ensures r != [] <==> NonBlank(text)
    ensures r != [] ==> r[0] == Thinking(text)
  {
    if NonBlank(text) then [Thinking(text)] else []
  }

  /** The choice ends the run: the model stopped, or it requested no tool. */
  predicate ChoiceIsFinal(choice: Choice)
    ensures ChoiceIsFinal(choice) <==>
      choice.finishReason == "stop" || choice.toolCalls.None? || choice.toolCalls.value == []
  {
    choice.finishReason == "stop" || |CallsOf(choice)| == 0
  }

  /** The assistant message recorded for a tool round; an empty text is sent as `null`. */
  function AssistantMessage(choice: Choice): (m: ChatMessage)
    ensures m.AssistantMsg? && m.toolCalls == CallsOf(choice)
    ensures m.text.None? <==> TextOf(choice) == ""
  {
    AssistantMsg(if TextOf(choice) == "" then None else Some(TextOf(choice)), CallsOf(choice))
  }

  /** The part of a round that follows a response with at least one choice: at most one
      `thinking` event, then either `done` or the tool round. */
  function ChoiceRound(query: string, st: Loop<ChatMessage>, choice: Choice, env: OllamaEnv): (r: Loop<ChatMessage>)
    ensures r.calls == st.calls + 1
    ensures r.finished ==> r.messages == st.messages
    ensures !r.finished ==> |r.messages| == |st.messages| + 1 + |CallsOf(choice)| && r.messages[..|st.messages|] == st.messages
    ensures |r.events| > |st.events| && r.events[..|st.events|] == st.events
  {
    var thought := st.events + ThinkingOf(TextOf(choice));
    assert thought[..|st.events|] == st.events;
    if ChoiceIsFinal(choice) then
      var events := thought + [Done(ExtractOrWrapHtml(TextOf(choice), query, env.markdown))];
      assert events[..|st.events|] == thought[..|st.events|];
      Loop(st.messages, events, st.calls + 1, true)
    else
      var calls := CallsOf(choice);
      var ran := RunCalls(calls, |calls|, thought, env);
      var messages := st.messages + [AssistantMessage(choice)] + ran.1;
      assert messages[..|st.messages|] == st.messages;
      assert ran.0[..|st.events|] == ran.0[..|thought|][..|st.events|];
      Loop(messages, ran.0, st.calls + 1, false)
  }

  /** One iteration of the loop. */
  function Round(ep: Endpoint, query: string, tools: seq<OpenAITool>, st: Loop<ChatMessage>, env: OllamaEnv): (r: Loop<ChatMessage>)
    ensures r.calls == st.calls + 1
    ensures r.finished ==> r.messages == st.messages
    ensures |r.messages| >= |st.messages| && r.messages[..|st.messages|] == st.messages
    ensures |r.events| > |st.events| && r.events[..|st.events|] == st.events
  {
    match env.fetch(MakeHttpRequest(ep, tools, st.messages))
    case Thrown(err) =>
      Loop(st.messages, st.events + [Error(ConnectionErrorMessage(err))], st.calls + 1, true)
    case HttpError(status, text) =>
      Loop(st.messages, st.events + [Error(HttpErrorMessage(status, text))], st.calls + 1, true)
    case HttpOk(choices) =>
      if choices == [] then Loop(st.messages, st.events + [Error(EmptyAnswerMessage)], st.calls + 1, true)
      else ChoiceRound(query, st, choices[0], env)
  }

  function Start(system: string, query: string): Loop<ChatMessage> {
    Loop([SystemMsg(system), UserMsg(query)], [], 0, false)
  }

  function Step(ep: Endpoint, query: string, tools: seq<OpenAITool>, env: OllamaEnv): Loop<ChatMessage> -> Loop<ChatMessage> {
    (st: Loop<ChatMessage>) => Round(ep, query, tools, st, env)
  }

  /** `step` is the loop body of a run with these parameters. */
  ghost predicate IsRound(ep: Endpoint, query: string, tools: seq<OpenAITool>, env: OllamaEnv,
                          step: Loop<ChatMessage> -> Loop<ChatMessage>) {
    forall st {:trigger Round(ep, query, tools, st, env)} :: step(st) == Round(ep, query, tools, st, env)
  }

  lemma StepIsRound(ep: Endpoint, query: string, tools: seq<OpenAITool>, env: OllamaEnv)
    ensures IsRound(ep, query, tools, env, Step(ep, query, tools, env))
  {
  }

  datatype RunOutcome = RunOutcome(events: seq<ProgressEvent>, messages: seq<ChatMessage>, calls: nat)

  /** What a run yields, the history it built and the number of requests it made. */
  function RunSpec(ep: Endpoint, query: string, env: OllamaEnv): (r: RunOutcome)
    ensures r.events != []
    ensures r.calls <= MaxIterations
  {
    if env.discovery.Err? then RunOutcome([Error(LoadFailedMessage(env.discovery.error))], [], 0)
    else
      var tools := Map(env.discovery.value, ToOpenAITool);
      if |tools| == 0 then RunOutcome([Error(NoToolsMessage(env.connectionErrors))], [], 0)
      else
        var step := Step(ep, query, tools, env);
        IterateCalls(Start(ep.system, query), step, MaxIterations);
        IterateInvariant(Start(ep.system, query), step, (st: Loop<ChatMessage>) => st.finished ==> st.events != [], MaxIterations);
        var st := Iterate(Start(ep.system, query), step, MaxIterations);
        RunOutcome(if st.finished then st.events else st.events + [Error(ExhaustedMessage)], st.messages, st.calls)
  }

  // ---- Properties of a round ----

  /** A request that throws, a response that is not ok, and a response without choices each end
      the run with their error; the history is unchanged. */
  lemma RoundFails(ep: Endpoint, query: string, tools: seq<OpenAITool>, st: Loop<ChatMessage>, env: OllamaEnv)
    requires var o := env.fetch(MakeHttpRequest(ep, tools, st.messages)); !(o.HttpOk? && o.choices != [])
    ensures var o := env.fetch(MakeHttpRequest(ep, tools, st.messages));
      var st' := Round(ep, query, tools, st, env);
      && st'.finished && st'.messages == st.messages && st'.calls == st.calls + 1
      && st'.events == st.events + [Error(match o
           case Thrown(err) => ConnectionErrorMessage(err)
           case HttpError(status, text) => HttpErrorMessage(status, text)
           case HttpOk(_) => EmptyAnswerMessage)]
  {
  }

  /** A response with choices is handled by its first choice. */
  lemma RoundChoice(ep: Endpoint, query: string, tools: seq<OpenAITool>, st: Loop<ChatMessage>, env: OllamaEnv)
    requires var o := env.fetch(MakeHttpRequest(ep, tools, st.messages)); o.HttpOk? && o.choices != []
    ensures Round(ep, query, tools, st, env) == ChoiceRound(query, st, env.fetch(MakeHttpRequest(ep, tools, st.messages)).choices[0], env)
  {
    var o := env.fetch(MakeHttpRequest(ep, tools, st.messages));
    assert o == HttpOk(o.choices);
  }

  /** A final choice ends the run: at most one `thinking` event, then `done` with the finalised
      text; the history is unchanged. */
  lemma FinalChoice(query: string, st: Loop<ChatMessage>, choice: Choice, env: OllamaEnv)
    requires ChoiceIsFinal(choice)
    ensures var st' := ChoiceRound(query, st, choice, env);
      && st'.finished && st'.messages == st.messages && st'.calls == st.calls + 1
      && st'.events == st.events + ThinkingOf(TextOf(choice)) + [Done(ExtractOrWrapHtml(TextOf(choice), query, env.markdown))]
  {
  }

  lemma ToolChoiceIs(query: string, st: Loop<ChatMessage>, choice: Choice, env: OllamaEnv)
    requires !ChoiceIsFinal(choice)
    ensures var calls := CallsOf(choice);
      var ran := RunCalls(calls, |calls|, st.events + ThinkingOf(TextOf(choice)), env);
      ChoiceRound(query, st, choice, env) == Loop(st.messages + [AssistantMessage(choice)] + ran.1, ran.0, st.calls + 1, false)
  {
  }

  /** A history extended by one assistant message and then one answer per call, in order. */
  lemma AnswersFollow(messages: seq<ChatMessage>, m: ChatMessage, answers: seq<ChatMessage>, calls: seq<ToolCallReq>)
    requires |answers| == |calls|
    requires forall i :: 0 <= i < |calls| ==> answers[i].ToolMsg? && answers[i].toolCallId == calls[i].id
    ensures var msgs := messages + [m] + answers;
      var n := |messages|;
      && |msgs| == n + 1 + |calls|
      && msgs[..n] == messages
      && msgs[n] == m
      && (forall i :: 0 <= i < |calls| ==> msgs[n + 1 + i].ToolMsg? && msgs[n + 1 + i].toolCallId == calls[i].id)
  {
    var msgs := messages + [m] + answers;
    var n := |messages|;
    forall i | 0 <= i < |calls| ensures msgs[n + 1 + i] == answers[i] {
    }
    assert msgs[..n] == messages;
  }

  /** The tool messages of a round answer its calls' ids, in order. */
  lemma ToolAnswers(calls: seq<ToolCallReq>, evs0: seq<ProgressEvent>, env: OllamaEnv)
    ensures var msgs := RunCalls(calls, |calls|, evs0, env).1;
      |msgs| == |calls| && forall i :: 0 <= i < |calls| ==> msgs[i].ToolMsg? && msgs[i].toolCallId == calls[i].id
  {
    RunCallsShape(calls, |calls|, evs0, env);
  }

  /** The events of a round's calls: a `tool_call` and a `tool_result` per call, in order. */
  lemma CallEvents(calls: seq<ToolCallReq>, evs0: seq<ProgressEvent>, env: OllamaEnv)
    ensures var evs := RunCalls(calls, |calls|, evs0, env).0;
      var before := |evs0|;
      && evs[..before] == evs0
      && |evs| == before + 2 * |calls|
      && (forall i :: 0 <= i < |calls| ==>
            && evs[before + 2 * i] == ToolCall(calls[i].name, ServerIdOf(calls[i].name), ToolInput(calls[i].arguments, env.parse))
            && evs[before + 2 * i + 1].ToolResult?
            && evs[before + 2 * i + 1].toolName == calls[i].name)
  {
    RunCallsShape(calls, |calls|, evs0, env);
  }

  /** A tool round appends the assistant message carrying the requested calls, then one tool
      message per call answering its id, in order; its events are those of the round's thought
      followed by the calls' events (see `CallEvents`). */
  lemma ToolChoice(query: string, st: Loop<ChatMessage>, choice: Choice, env: OllamaEnv)
    requires !ChoiceIsFinal(choice)
    ensures var st' := ChoiceRound(query, st, choice, env);
      !st'.finished && st'.calls == st.calls + 1 && |CallsOf(choice)| > 0
    ensures var calls := CallsOf(choice);
      var msgs := ChoiceRound(query, st, choice, env).messages;
      var n := |st.messages|;
      && |msgs| == n + 1 + |calls|
      && msgs[..n] == st.messages
      && msgs[n] == AssistantMsg(if TextOf(choice) == "" then None else Some(TextOf(choice)), calls)
      && (forall i :: 0 <= i < |calls| ==> msgs[n + 1 + i].ToolMsg? && msgs[n + 1 + i].toolCallId == calls[i].id)
    ensures ChoiceRound(query, st, choice, env).events
      == RunCalls(CallsOf(choice), |CallsOf(choice)|, st.events + ThinkingOf(TextOf(choice)), env).0
  {
    var calls := CallsOf(choice);
    var thought := st.events + ThinkingOf(TextOf(choice));
    var ran := RunCalls(calls, |calls|, thought, env);
    ToolChoiceIs(query, st, choice, env);
    ToolAnswers(calls, thought, env);
    AnswersFollow(st.messages, AssistantMessage(choice), ran.1, calls);
    var st' := ChoiceRound(query, st, choice, env);
    assert st'.messages == st.messages + [AssistantMessage(choice)] + ran.1;
  }

  /** The events of a tool round add no terminal event. */
  lemma ToolEvents(events: seq<ProgressEvent>, choice: Choice, env: OllamaEnv)
    requires NoTerminal(events) && DonesAreDocuments(events)
    ensures var calls := CallsOf(choice);
      var evs := RunCalls(calls, |calls|, events + ThinkingOf(TextOf(choice)), env).0;
      NoTerminal(evs) && DonesAreDocuments(evs)
  {
    var thought := events + ThinkingOf(TextOf(choice));
    DonesAppend(events, ThinkingOf(TextOf(choice)));
    assert NoTerminal(thought);
    RunCallsQuiet(CallsOf(choice), thought, env);
  }

  /** A choice handled without a terminal event before either adds none and goes on, or ends
      with exactly one; `done` events carry documents. */
  lemma ChoiceTerminal(query: string, st: Loop<ChatMessage>, choice: Choice, env: OllamaEnv)
    requires NoTerminal(st.events) && DonesAreDocuments(st.events)
    ensures var st' := ChoiceRound(query, st, choice, env);
      && (st'.finished ==> EndsWithOneTerminal(st'.events))
      && (!st'.finished ==> NoTerminal(st'.events))
      && DonesAreDocuments(st'.events)
  {
    if ChoiceIsFinal(choice) {
      FinalChoice(query, st, choice, env);
      FinishWithDocument(st.events, ThinkingOf(TextOf(choice)), TextOf(choice), query, env.markdown);
    } else {
      ToolChoiceIs(query, st, choice, env);
      ToolEvents(st.events, choice, env);
    }
  }

  /** A round started without a terminal event either adds none and goes on, or ends with exactly
      one; `done` events carry documents. */
  lemma RoundTerminal(ep: Endpoint, query: string, tools: seq<OpenAITool>, st: Loop<ChatMessage>, env: OllamaEnv)
    requires NoTerminal(st.events) && DonesAreDocuments(st.events)
    ensures var st' := Round(ep, query, tools, st, env);
      && (st'.finished ==> EndsWithOneTerminal(st'.events))
      && (!st'.finished ==> NoTerminal(st'.events))
      && DonesAreDocuments(st'.events)
  {
    var o := env.fetch(MakeHttpRequest(ep, tools, st.messages));
    if o.HttpOk? && o.choices != [] {
      RoundChoice(ep, query, tools, st, env);
      ChoiceTerminal(query, st, o.choices[0], env);
    } else {
      RoundFails(ep, query, tools, st, env);
      var st' := Round(ep, query, tools, st, env);
      var last := st'.events[|st'.events| - 1];
      Terminate(st.events, last);
      DonesAppend(st.events, [last]);
    }
  }

  /** The loop's invariant: the system prompt and the query open the history, each tool round
      adds at least two messages, and no terminal event comes before the one that finishes the
      run; `done` events carry documents. */
  ghost predicate Inv(system: string, query: string, st: Loop<ChatMessage>) {
    && |st.messages| >= 2 && st.messages[0] == SystemMsg(system) && st.messages[1] == UserMsg(query)
    && (!st.finished ==> NoTerminal(st.events) && |st.messages| >= 2 + 2 * st.calls)
    && (st.finished ==> EndsWithOneTerminal(st.events))
    && DonesAreDocuments(st.events)
  }

  lemma RoundKeepsInv(ep: Endpoint, query: string, tools: seq<OpenAITool>, st: Loop<ChatMessage>, env: OllamaEnv)
    requires Inv(ep.system, query, st) && !st.finished
    ensures Inv(ep.system, query, Round(ep, query, tools, st, env))
  {
    RoundTerminal(ep, query, tools, st, env);
    var o := env.fetch(MakeHttpRequest(ep, tools, st.messages));
    if o.HttpOk? && o.choices != [] && !ChoiceIsFinal(o.choices[0]) {
      RoundChoice(ep, query, tools, st, env);
      ToolChoice(query, st, o.choices[0], env);
    }
  }

  /** Each iteration makes one request. */
  lemma RoundCalls(ep: Endpoint, query: string, tools: seq<OpenAITool>, env: OllamaEnv)
    ensures forall st: Loop<ChatMessage> :: Step(ep, query, tools, env)(st).calls == st.calls + 1
  {
  }

  /** After any number of iterations: at most one request per iteration, the system prompt and
      the query first in the history, and no terminal event until the one that finishes the run. */
  lemma RoundsInvariant(ep: Endpoint, query: string, tools: seq<OpenAITool>, env: OllamaEnv, n: nat)
    ensures var st := Iterate(Start(ep.system, query), Step(ep, query, tools, env), n);
      && st.calls <= n
      && (!st.finished ==> st.calls == n && NoTerminal(st.events) && |st.messages| >= 2 + 2 * n)
      && (st.finished ==> EndsWithOneTerminal(st.events))
      && |st.messages| >= 2 && st.messages[0] == SystemMsg(ep.system) && st.messages[1] == UserMsg(query)
      && DonesAreDocuments(st.events)
  {
    var step := Step(ep, query, tools, env);
    forall st | Inv(ep.system, query, st) && !st.finished
      ensures Inv(ep.system, query, step(st))
    {
      RoundKeepsInv(ep, query, tools, st, env);
    }
    IterateInvariant(Start(ep.system, query), step, st => Inv(ep.system, query, st), n);
    RoundCalls(ep, query, tools, env);
    IterateCalls(Start(ep.system, query), step, n);
  }

  // ---- Properties of a run ----

  /** Every run yields exactly one terminal event, as its last event; every `done` carries a
      complete HTML document; at most `MaxIterations` requests are made. */
  lemma RunTerminatesOnce(ep: Endpoint, query: string, env: OllamaEnv)
    ensures var o := RunSpec(ep, query, env);
      EndsWithOneTerminal(o.events) && DonesAreDocuments(o.events) && o.calls <= MaxIterations
  {
    if env.discovery.Ok? {
      var tools := Map(env.discovery.value, ToOpenAITool);
      if |tools| > 0 {
        RoundsInvariant(ep, query, tools, env, MaxIterations);
        var st := Iterate(Start(ep.system, query), Step(ep, query, tools, env), MaxIterations);
        if !st.finished {
          Terminate(st.events, Error(ExhaustedMessage));
        }
      }
    }
  }

  /** A failed discovery, or one that found no tools, yields a single error and sends nothing. */
  lemma RunWithoutTools(ep: Endpoint, query: string, env: OllamaEnv)
    requires env.discovery.Err? || env.discovery.value == []
    ensures var o := RunSpec(ep, query, env);
      && o.calls == 0 && o.messages == []
      && o.events == [Error(if env.discovery.Err? then LoadFailedMessage(env.discovery.error)
                            else NoToolsMessage(env.connectionErrors))]
  {
  }

  /** The endpoint keeps requesting tools, whatever it is sent. */
  ghost predicate AlwaysRequestsTools(fetch: Fetch) {
    forall r :: fetch(r).HttpOk? && fetch(r).choices != [] && !ChoiceIsFinal(fetch(r).choices[0])
  }

  /** If every answer requests tools, exactly `MaxIterations` requests are made and the run ends
      with the exhaustion error. */
  lemma RunExhausts(ep: Endpoint, query: string, env: OllamaEnv)
    requires env.discovery.Ok? && env.discovery.value != []
    requires AlwaysRequestsTools(env.fetch)
    ensures var o := RunSpec(ep, query, env);
      o.calls == MaxIterations && |o.events| > 0 && o.events[|o.events| - 1] == Error(ExhaustedMessage)
  {
    var tools := Map(env.discovery.value, ToOpenAITool);
    var step := Step(ep, query, tools, env);
    forall st: Loop<ChatMessage> | !st.finished
      ensures !step(st).finished
    {
      var o := env.fetch(MakeHttpRequest(ep, tools, st.messages));
      assert o.HttpOk? && o.choices != [] && !ChoiceIsFinal(o.choices[0]);
    }
    IterateNeverFinishes(Start(ep.system, query), step, MaxIterations);
    RoundCalls(ep, query, tools, env);
    IterateCalls(Start(ep.system, query), step, MaxIterations);
  }

  /** Every tool offered to the model declares parameters, and the catalog keeps its order. */
  lemma ToolsOffered(connected: seq<ConnectedTool>)
    ensures var tools := Map(connected, ToOpenAITool);
      |tools| == |connected|
      && forall i :: 0 <= i < |tools| ==> tools[i].name == connected[i].tool.name && tools[i].parameters != JNull
  {
  }

  /** The `thinking` event of a choice whose text is not blank, appended to the events. */
  method YieldThought(text: string, events: seq<ProgressEvent>) returns (events': seq<ProgressEvent>)
    ensures events' == events + ThinkingOf(text)
  {
    TrimEmptyIffBlank(text);
    events' := events;
    if Trim(text) != [] {
      events' := events' + [Thinking(text)];
    }
  }

  /** The loop over a round's tool calls: parse the arguments, announce, call, report, and
      record the tool message; a failing call is reported and recorded like any other. */
  method ExecuteToolCalls(toolCalls: seq<ToolCallReq>, events: seq<ProgressEvent>, env: OllamaEnv)
    returns (events': seq<ProgressEvent>, toolMessages: seq<ChatMessage>)
    ensures (events', toolMessages) == RunCalls(toolCalls, |toolCalls|, events, env)
  {
    events' := events;
    toolMessages := [];
    for k := 0 to |toolCalls|
      invariant (events', toolMessages) == RunCalls(toolCalls, k, events, env)
    {
      var toolCall := toolCalls[k];
      var toolName := toolCall.name;
      var serverId := ServerIdOf(toolName);
      var toolInput := EmptyObject;
      var parsed := env.parse(if toolCall.arguments == "" then "{}" else toolCall.arguments);
      if parsed.Some? {
        toolInput := parsed.value;
      }
      events' := events' + [ToolCall(toolName, serverId, toolInput)];
      var result := env.callTool(toolName, toolInput, events');
      if result.Ok? {
        var resultText := ResultText(result.value, env.stringify);
        events' := events' + [ToolResult(toolName, true)];
        toolMessages := toolMessages + [ToolMsg(toolCall.id, resultText)];
      } else {
        events' := events' + [ToolResult(toolName, false)];
        toolMessages := toolMessages + [ToolMsg(toolCall.id, ToolFailedText(result.error))];
      }
    }
  }

  /** `OllamaAgentLoop`: the endpoint's base URL without trailing slashes, the model and the
      optional API key. */
  class OllamaAgentLoop {
    const baseUrl: string
    const model: string
    const apiKey: Option<string>
    /** The module's system prompt, shared with the Anthropic loop. */
    const systemPrompt: string

    constructor(url: string, model: string, apiKey: Option<string>)
      ensures baseUrl == StripTrailingSlashes(url) && this.model == model && this.apiKey == apiKey
      ensures systemPrompt == SystemPrompt
    {
      systemPrompt := SystemPrompt;
      baseUrl := StripTrailingSlashes(url);
      this.model := model;
      this.apiKey := apiKey;
    }

    function Config(): (ep: Endpoint)
      ensures ep.baseUrl == baseUrl && ep.model == model && ep.apiKey == apiKey && ep.system == systemPrompt
    {
      Endpoint(baseUrl, model, apiKey, systemPrompt)
    }

    /** One pass of the loop body of `run`: one request, then an error, or the handling of the
        first choice; it is the round of the specification. */
    method Iteration(userQuery: string, tools: seq<OpenAITool>, messages: seq<ChatMessage>,
                     events: seq<ProgressEvent>, env: OllamaEnv,
                     ghost step: Loop<ChatMessage> -> Loop<ChatMessage>, ghost st: Loop<ChatMessage>)
      returns (messages': seq<ChatMessage>, events': seq<ProgressEvent>, finished: bool)
      requires IsRound(Config(), userQuery, tools, env, step)
      requires st.messages == messages && st.events == events
      ensures messages' == step(st).messages && events' == step(st).events && finished == step(st).finished
    {
      var response := env.fetch(MakeHttpRequest(Config(), tools, messages));
      if response.HttpOk? && response.choices != [] {
        RoundChoice(Config(), userQuery, tools, st, env);
        messages', events', finished := HandleChoice(userQuery, response.choices[0], messages, events, env, st);
        return;
      }
      RoundFails(Config(), userQuery, tools, st, env);
      messages' := messages;
      finished := true;
      if response.Thrown? {
        events' := events + [Error(ConnectionErrorMessage(response.err))];
      } else if response.HttpError? {
        events' := events + [Error(HttpErrorMessage(response.status, response.text))];
      } else {
        events' := events + [Error(EmptyAnswerMessage)];
      }
    }

    /** The rest of the loop body once a choice has arrived: the reasoning text, then the final
        answer or the tool calls. */
    method HandleChoice(userQuery: string, choice: Choice, messages: seq<ChatMessage>,
                        events: seq<ProgressEvent>, env: OllamaEnv, ghost st: Loop<ChatMessage>)
      returns (messages': seq<ChatMessage>, events': seq<ProgressEvent>, finished: bool)
      requires st.messages == messages && st.events == events
      ensures var st' := ChoiceRound(userQuery, st, choice, env);
        messages' == st'.messages && events' == st'.events && finished == st'.finished
    {
      var toolCalls := if choice.toolCalls.Some? then choice.toolCalls.value else [];
      var textContent := if choice.content.Some? then choice.content.value else "";
      assert toolCalls == CallsOf(choice) && textContent == TextOf(choice);
      events' := YieldThought(textContent, events);
      if choice.finishReason == "stop" || |toolCalls| == 0 {
        FinalChoice(userQuery, st, choice, env);
        events' := events' + [Done(ExtractOrWrapHtml(textContent, userQuery, env.markdown))];
        return messages, events', true;
      }
      ToolChoiceIs(userQuery, st, choice, env);
      messages' := messages + [AssistantMsg(if textContent == "" then None else Some(textContent), toolCalls)];
      assert messages' == messages + [AssistantMessage(choice)];
      var toolMessages;
      events', toolMessages := ExecuteToolCalls(toolCalls, events', env);
      messages' := messages' + toolMessages;
      finished := false;
    }

    /** `run`: the events yielded, in order, and the history sent to the endpoint. */
    method Run(userQuery: string, env: OllamaEnv) returns (events: seq<ProgressEvent>, messages: seq<ChatMessage>)
      ensures var o := RunSpec(Config(), userQuery, env); events == o.events && messages == o.messages
    {
      events := [];
      messages := [];
      if env.discovery.Err? {
        events := [Error(LoadFailedMessage(env.discovery.error))];
        return;
      }
      var tools := Map(env.discovery.value, ToOpenAITool);
      if |tools| == 0 {
        events := [Error(NoToolsMessage(env.connectionErrors))];
        return;
      }
      StepIsRound(Config(), userQuery, tools, env);
      events, messages := Rounds(userQuery, tools, env, Step(Config(), userQuery, tools, env));
    }

    /** The `for` loop of `run`: at most `MaxIterations` rounds, then the exhaustion error. */
    method Rounds(userQuery: string, tools: seq<OpenAITool>, env: OllamaEnv, ghost step: Loop<ChatMessage> -> Loop<ChatMessage>)
      returns (events: seq<ProgressEvent>, messages: seq<ChatMessage>)
      requires IsRound(Config(), userQuery, tools, env, step)
      ensures var st := Iterate(Start(systemPrompt, userQuery), step, MaxIterations);
        && messages == st.messages
        && events == if st.finished then st.events else st.events + [Error(ExhaustedMessage)]
    {
      messages := [SystemMsg(systemPrompt), UserMsg(userQuery)];
      events := [];
      var iteration := 0;
      while iteration < MaxIterations
        invariant 0 <= iteration <= MaxIterations
        invariant var st := Iterate(Start(systemPrompt, userQuery), step, iteration);
          !st.finished && st.messages == messages && st.events == events
      {
        ghost var st := Iterate(Start(systemPrompt, userQuery), step, iteration);
        var finished;
        messages, events, finished := Iteration(userQuery, tools, messages, events, env, step, st);
        IterateNext(Start(systemPrompt, userQuery), step, iteration);
        if finished {
          IterateStable(Start(systemPrompt, userQuery), step, iteration + 1, MaxIterations);
          return;
        }
        iteration := iteration + 1;
      }
      events := events + [Error(ExhaustedMessage)];
    }
  }
}
