/** What both agent loops share: the progress events they yield, the prompt and the limit,
    the messages of their terminal errors and failed tool calls, and the loop of at most
    `MaxIterations` rounds, stated once for any kind of history. */
module Progress {
  import opened Wrappers
  import opened Strings
  import opened Json
  import opened Html

  /** What a run yields to its consumer. */
  datatype ProgressEvent =
    | ToolCall(toolName: string, serverId: string, input: Json)
    | ToolResult(toolName: string, ok: bool)
    | Thinking(text: string)
    | Done(html: string)
    | Error(message: string)
  {
    /** `done` and `error` end a run. */
    predicate IsTerminal() {
      Done? || Error?
    }
  }

  predicate NoTerminal(evs: seq<ProgressEvent>) {
    forall i :: 0 <= i < |evs| ==> !evs[i].IsTerminal()
  }

  /** Exactly one terminal event, and it is the last one. */
  predicate EndsWithOneTerminal(evs: seq<ProgressEvent>) {
    |evs| > 0 && evs[|evs| - 1].IsTerminal() && NoTerminal(evs[..|evs| - 1])
  }

  /** Every `done` event carries a complete HTML document. */
  predicate DonesAreDocuments(evs: seq<ProgressEvent>) {
    forall i :: 0 <= i < |evs| && evs[i].Done? ==>
      StartsWith(evs[i].html, Doctype) && EndsWith(evs[i].html, HtmlClose)
  }

  lemma DonesAppend(a: seq<ProgressEvent>, b: seq<ProgressEvent>)
    requires DonesAreDocuments(a) && DonesAreDocuments(b)
    ensures DonesAreDocuments(a + b)
  {
    forall i | 0 <= i < |a + b| && (a + b)[i].Done?
      ensures StartsWith((a + b)[i].html, Doctype) && EndsWith((a + b)[i].html, HtmlClose)
    {
      if i >= |a| {
        assert (a + b)[i] == b[i - |a|];
      }
    }
  }

  lemma Terminate(evs: seq<ProgressEvent>, last: ProgressEvent)
    requires NoTerminal(evs) && last.IsTerminal()
    ensures EndsWithOneTerminal(evs + [last])
  {
    assert (evs + [last])[..|evs|] == evs;
  }

  /** Events without a terminal one, followed by non-terminal events and a `done` with the
      finalised answer, end with exactly one terminal event and their `done` carries a document. */
  lemma FinishWithDocument(events: seq<ProgressEvent>, thought: seq<ProgressEvent>, text: string,
                           query: string, markdown: string -> string)
    requires NoTerminal(events) && DonesAreDocuments(events) && NoTerminal(thought)
    ensures var evs := events + thought + [Done(ExtractOrWrapHtml(text, query, markdown))];
      EndsWithOneTerminal(evs) && DonesAreDocuments(evs)
  {
    assert DonesAreDocuments(thought);
    DonesAppend(events, thought);
    var before := events + thought;
    assert NoTerminal(before);
    var done := Done(ExtractOrWrapHtml(text, query, markdown));
    Terminate(before, done);
    DonesAppend(before, [done]);
  }

  const MaxIterations: nat := 20

  /** The instructions sent with every request (both loops use the same text). */
  const SystemPrompt := "You are MCP Browser, an AI-powered information browser.\n"
    + "The user has asked a question. Use the available tools to gather accurate, up-to-date information.\n"
    + "After gathering enough information, synthesize a comprehensive answer.\n"
    + "\n"
    + "Return your final answer as a complete, self-contained HTML document with the following requirements:\n"
    + "- Start exactly with <!DOCTYPE html>\n"
    + "- Use inline styles only (no external CSS links or <link> tags)\n"
    + "- Use a clean, modern sans-serif font (font-family: system-ui, -apple-system, sans-serif)\n"
    + "- max-width: 820px, margin: 0 auto, comfortable line-height (1.65), padding: 32px 24px\n"
    + "- Use proper headings (h1, h2, h3), paragraphs, lists, blockquotes\n"
    + "- Include source citations as clickable links where applicable\n"
    + "- Color scheme: white background, #1a1a2e headings, #333 body text, #0066cc links\n"
    + "- DO NOT include any JavaScript\n"
    + "- Return ONLY the HTML document as your final response, no other text around it"

  // ---- Messages of the terminal errors and of failed tool calls ----

  function LoadFailedMessage(err: string): string {
    "Kon geen MCP-tools laden: " + err
  }

  function ErrorLine(entry: (string, string)): (line: string)
    ensures line != []
  {
    "• " + entry.0 + ": " + entry.1
  }

  const CouldNotConnect := "Geen MCP-servers konden verbinden:\n\n"
  const CheckInstallation := "\n\nControleer of Node.js correct is geïnstalleerd en of de servers zijn ingeschakeld."
  const NoServersActive := "Geen MCP-servers actief. Schakel minstens één server in via ⚙ Instellingen."

  /** The error of a discovery that found no tools: the recorded connection errors, one line each,
      or the generic hint when nothing was recorded. */
  function NoToolsMessage(errors: seq<(string, string)>): (m: string)
    ensures errors == [] <==> m == NoServersActive
  {
    var errorLines := Join(Map(errors, ErrorLine), "\n");
    if errorLines != [] then
      assert StartsWith(CouldNotConnect + errorLines + CheckInstallation, CouldNotConnect) by {
        Framed(CouldNotConnect, errorLines, CheckInstallation);
      }
      CouldNotConnect + errorLines + CheckInstallation
    else NoServersActive
  }

  /** With recorded errors, the message lists every one of them, between the fixed lead and hint. */
  lemma NoToolsMessageLists(errors: seq<(string, string)>)
    requires errors != []
    ensures var m := NoToolsMessage(errors);
      && StartsWith(m, CouldNotConnect) && EndsWith(m, CheckInstallation)
      && forall i :: 0 <= i < |errors| ==> Contains(m, ErrorLine(errors[i]))
  {
    var lines := Map(errors, ErrorLine);
    var errorLines := Join(lines, "\n");
    assert NoToolsMessage(errors) == CouldNotConnect + errorLines + CheckInstallation;
    Framed(CouldNotConnect, errorLines, CheckInstallation);
    FramedJoinContains(CouldNotConnect, lines, "\n", CheckInstallation);
  }

  const ExhaustedMessage := "Maximaal aantal stappen (" + NatToString(MaxIterations) + ") bereikt zonder definitief antwoord."

  function ToolFailedText(err: string): string {
    "Fout bij uitvoeren tool: " + err
  }

  /** A tool's result as sent back: a string as is, anything else serialised. */
  function ResultText(result: Json, stringify: Json -> string): string {
    if result.JString? then result.s else stringify(result)
  }

  /** `mcpManager.callTool(name, input)`, given the events yielded so far (which tells apart every
      call of a run, so the oracle may answer each one differently). */
  type ToolCaller = (string, Json, seq<ProgressEvent>) -> Result<Json, string>

  /** `text.trim()` is not empty. */
  predicate NonBlank(text: string) {
    Trim(text) != []
  }

  /** The limit appears in the exhaustion message as "20". */
  lemma MaxIterationsText()
    ensures NatToString(MaxIterations) == "20"
  {
    assert NatToString(2) == [DigitChar(2)] == "2";
    assert NatToString(20) == NatToString(2) + [DigitChar(0)];
  }

  // ---- The rounds of the loop ----

  /** The loop's state: the history sent to the model, the events so far, the number of model
      calls made, and whether a terminal event has ended the run. */
  datatype Loop<M> = Loop(messages: seq<M>, events: seq<ProgressEvent>, calls: nat, finished: bool)

  /** The state after the first `n` iterations of a loop whose body is `step`; a finished state
      is final. */
  function Iterate<M>(init: Loop<M>, step: Loop<M> -> Loop<M>, n: nat): Loop<M> {
    if n == 0 then init
    else
      var st := Iterate(init, step, n - 1);
      if st.finished then st else step(st)
  }

  /** An unfinished state takes one more step. */
  lemma IterateNext<M>(init: Loop<M>, step: Loop<M> -> Loop<M>, n: nat)
    requires !Iterate(init, step, n).finished
    ensures Iterate(init, step, n + 1) == step(Iterate(init, step, n))
  {
  }

  /** Once finished, later iterations change nothing. */
  lemma {:induction false} IterateStable<M>(init: Loop<M>, step: Loop<M> -> Loop<M>, n: nat, m: nat)
    requires n <= m && Iterate(init, step, n).finished
    ensures Iterate(init, step, m) == Iterate(init, step, n)
  {
    if n < m {
      IterateStable(init, step, n, m - 1);
    }
  }

  /** A property that holds initially and that each unfinished iteration preserves holds after
      any number of iterations. */
  lemma {:induction false} IterateInvariant<M>(init: Loop<M>, step: Loop<M> -> Loop<M>, inv: Loop<M> -> bool, n: nat)
    requires inv(init)
    requires forall st: Loop<M> :: inv(st) && !st.finished ==> inv(step(st))
    ensures inv(Iterate(init, step, n))
  {
    if n > 0 {
      IterateInvariant(init, step, inv, n - 1);
    }
  }

  /** If each iteration makes exactly one model call, `n` iterations make at most `n`, and exactly
      `n` while unfinished. */
  lemma {:induction false} IterateCalls<M>(init: Loop<M>, step: Loop<M> -> Loop<M>, n: nat)
    requires init.calls == 0
    requires forall st: Loop<M> :: step(st).calls == st.calls + 1
    ensures Iterate(init, step, n).calls <= n
    ensures !Iterate(init, step, n).finished ==> Iterate(init, step, n).calls == n
  {
    if n > 0 {
      IterateCalls(init, step, n - 1);
    }
  }

  /** If no iteration ever finishes, none of the first `n` does. */
  lemma {:induction false} IterateNeverFinishes<M>(init: Loop<M>, step: Loop<M> -> Loop<M>, n: nat)
    requires !init.finished
    requires forall st: Loop<M> :: !st.finished ==> !step(st).finished
    ensures !Iterate(init, step, n).finished
  {
    if n > 0 {
      IterateNeverFinishes(init, step, n - 1);
    }
  }

  // ---- Running the tool calls of a round ----

  /** The events and replies after the first `k` tool calls of a round, run in request order:
      each call is announced by an event, then run given every event so far, which yields its
      closing event and the reply fed back to the model. */
  function RunEach<C, E, R>(calls: seq<C>, k: nat, evs0: seq<E>, announce: C -> E, run: (C, seq<E>) -> (E, R))
    : (r: (seq<E>, seq<R>))
    requires k <= |calls|
    ensures |r.0| == |evs0| + 2 * k && |r.1| == k
  {
    if k == 0 then (evs0, [])
    else
      var done := RunEach(calls, k - 1, evs0, announce, run);
      var announced := done.0 + [announce(calls[k - 1])];
      var ran := run(calls[k - 1], announced);
      (announced + [ran.0], done.1 + [ran.1])
  }

  /** Call `k` appends its announcement, its closing event and its reply. */
  lemma RunEachLast<C, E, R>(calls: seq<C>, k: nat, evs0: seq<E>, announce: C -> E, run: (C, seq<E>) -> (E, R))
    requires 0 < k <= |calls|
    ensures var done := RunEach(calls, k - 1, evs0, announce, run);
      var announced := done.0 + [announce(calls[k - 1])];
      RunEach(calls, k, evs0, announce, run)
        == (announced + [run(calls[k - 1], announced).0], done.1 + [run(calls[k - 1], announced).1])
  {
  }

  /** Later calls only append: the events and replies of the first `j` calls stay in place. */
  lemma {:induction false} RunEachPrefix<C, E, R>(calls: seq<C>, j: nat, k: nat, evs0: seq<E>,
                                                  announce: C -> E, run: (C, seq<E>) -> (E, R))
    requires j <= k <= |calls|
    ensures RunEach(calls, k, evs0, announce, run).0[..|evs0| + 2 * j] == RunEach(calls, j, evs0, announce, run).0
    ensures RunEach(calls, k, evs0, announce, run).1[..j] == RunEach(calls, j, evs0, announce, run).1
    decreases k
  {
    var cur := RunEach(calls, k, evs0, announce, run);
    if j == k {
      assert cur.0[..|evs0| + 2 * j] == cur.0;
      assert cur.1[..j] == cur.1;
    } else {
      var prev := RunEach(calls, k - 1, evs0, announce, run);
      RunEachPrefix(calls, j, k - 1, evs0, announce, run);
      RunEachLast(calls, k, evs0, announce, run);
      assert cur.0[..|evs0| + 2 * j] == prev.0[..|evs0| + 2 * j];
      assert cur.1[..j] == prev.1[..j];
    }
  }

  /** Call `i` is announced at position `|evs0| + 2 * i`; it runs given exactly the events up to
      and including its announcement, and its closing event and reply follow. */
  lemma RunEachAt<C, E, R>(calls: seq<C>, k: nat, evs0: seq<E>, announce: C -> E, run: (C, seq<E>) -> (E, R), i: nat)
    requires i < k <= |calls|
    ensures var r := RunEach(calls, k, evs0, announce, run);
      var here := |evs0| + 2 * i;
      && r.0[..|evs0|] == evs0
      && r.0[here] == announce(calls[i])
      && r.0[here + 1] == run(calls[i], r.0[..here + 1]).0
      && r.1[i] == run(calls[i], r.0[..here + 1]).1
  {
    var cur := RunEach(calls, k, evs0, announce, run);
    var upto := RunEach(calls, i + 1, evs0, announce, run);
    var before := RunEach(calls, i, evs0, announce, run);
    var here := |evs0| + 2 * i;
    RunEachPrefix(calls, 0, k, evs0, announce, run);
    RunEachPrefix(calls, i + 1, k, evs0, announce, run);
    RunEachLast(calls, i + 1, evs0, announce, run);
    var announced := before.0 + [announce(calls[i])];
    assert upto.0 == announced + [run(calls[i], announced).0];
    assert cur.0[..here + 1] == announced by {
      assert cur.0[..here + 1] == upto.0[..here + 1];
    }
    assert cur.0[here] == upto.0[here] && cur.0[here + 1] == upto.0[here + 1];
    assert cur.1[i] == upto.1[i];
  }

  lemma ClosingHas<C, E, R>(c: C, evs: seq<E>, run: (C, seq<E>) -> (E, R), p: E -> bool)
    requires forall c: C, evs: seq<E> :: p(run(c, evs).0)
    ensures p(run(c, evs).0)
  {
  }

  /** If every announcement and every closing event has property `p`, so does every event the
      calls add. */
  lemma {:induction false} RunEachKeeps<C, E, R>(calls: seq<C>, k: nat, evs0: seq<E>, announce: C -> E,
                                                 run: (C, seq<E>) -> (E, R), p: E -> bool)
    requires k <= |calls|
    requires forall c: C :: p(announce(c))
    requires forall c: C, evs: seq<E> :: p(run(c, evs).0)
    ensures forall i :: |evs0| <= i < |RunEach(calls, k, evs0, announce, run).0| ==> p(RunEach(calls, k, evs0, announce, run).0[i])
  {
    if k > 0 {
      var prev := RunEach(calls, k - 1, evs0, announce, run);
      var cur := RunEach(calls, k, evs0, announce, run);
      RunEachKeeps(calls, k - 1, evs0, announce, run, p);
      RunEachLast(calls, k, evs0, announce, run);
      forall i | |evs0| <= i < |cur.0| ensures p(cur.0[i]) {
        var announced := prev.0 + [announce(calls[k - 1])];
        if i < |prev.0| {
          assert cur.0[i] == prev.0[i];
        } else if i == |prev.0| {
          assert cur.0[i] == announce(calls[k - 1]);
        } else {
          assert cur.0[i] == run(calls[k - 1], announced).0;
          ClosingHas(calls[k - 1], announced, run, p);
        }
      }
    }
  }

  /** A `tool_call` or `tool_result` event. */
  predicate IsToolEvent(e: ProgressEvent) {
    e.ToolCall? || e.ToolResult?
  }

  /** Events followed by tool events keep having no terminal event and documents in every `done`. */
  lemma ToolEventsQuiet(evs: seq<ProgressEvent>, n: nat)
    requires n <= |evs| && NoTerminal(evs[..n]) && DonesAreDocuments(evs[..n])
    requires forall i :: n <= i < |evs| ==> IsToolEvent(evs[i])
    ensures NoTerminal(evs) && DonesAreDocuments(evs)
  {
    forall i | 0 <= i < n ensures evs[i] == evs[..n][i] {
    }
  }
}
