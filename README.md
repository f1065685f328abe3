# MCP Browser: a verified model of the tool-orchestration core

MCP Browser is an Electron app. It answers a query by letting a language model call tools that MCP
servers expose, and it shows the model's final answer as an HTML page. This project models, in
Dafny, the parts of the app that decide what happens. It proves what those parts promise.

- **The session manager** (`MCPClientManager`).
  - It keeps one lazily created session per configured server id, a per-server error record and a
    per-server tool count.
  - Tool discovery goes through the servers one after the other. One server's failure is recorded
    against its id and never hides another server's tools.
  - Every tool is renamed `serverId__toolName`. `callTool` routes a name by splitting it on the
    first `__`.
  - The manager is a class (`MCPClientManager.Manager`) whose methods update its maps. Its
    discovery loop is proved against a specification function (`Sweep`), with lemmas that relate
    it to an independent account of each server's own contribution.
- **The two agent loops** (`AgentLoop` for the Anthropic Messages API, `OllamaAgentLoop` for an
  OpenAI-compatible chat-completions endpoint).
  - A loop makes at most twenty rounds. Each round asks the model and yields `thinking` events.
    It then finishes with `done`, or runs the requested tools in order and feeds their results
    back.
  - Both loops are classes whose `Run` method is proved equal to a run specification (`RunSpec`).
    The lemmas prove that every run ends with exactly one terminal event, that every `done`
    carries a whole HTML document, and that the model is called at most twenty times.
  - What the loops share is in `Progress`: the events, the prompt, the messages, the bounded loop
    and the execution of tool calls.
- **The answer finaliser** (`Html`). It models `extractOrWrapHTML` and `escapeHTML`. The two
  source files hold identical copies, at src/main/claude/AgentLoop.ts:155-196 and
  src/main/claude/OllamaAgentLoop.ts:210-249, so the model defines them once.
- **Server enablement and key storage** (`AppStore`).
  - The store is a class with the four persisted fields.
  - The enablement queries are functions over lists, with lemmas about them.
- **The back/forward history** of the renderer (`Navigation`). It is a class with the history and
  the cursor.
- **The Windows icon writer** of the build scripts (`MakeIco`). It writes the ICONDIR header, the
  ICONDIRENTRY records and the image bytes into an `array<byte>` in place. It is proved to
  produce exactly the file layout that `IcoFile` specifies.

The model replaces everything outside the app by function-typed parameters ("oracles"), and it
proves its properties for every oracle:

- the MCP SDK's connect, `listTools`, `callTool` and `close`;
- the model endpoints;
- the tool calls that go through the manager;
- `JSON.parse` and `JSON.stringify`;
- the markdown renderer;
- the platform cipher.

A tool-call oracle also receives the events yielded so far, so it may answer every call of a run
differently.

Supporting modules:

- `Wrappers`: `Option`, `Result`, `Filter` and `Map`.
- `Strings`: JavaScript's `indexOf`, `lastIndexOf`, `trim`, `join` and the trailing-slash strip.
- `OrderedMaps`: a JavaScript `Map` with its insertion order.
- `Namespacing`: the `__` names.
- `ServerConfigs`: configurations and the three built-in servers.
- `Json`: JSON values.
- `Scans`: a left-to-right pass that threads a state.

## Model

| member | source | states |
|---|---|---|
| MCPClientManager.FindConfig | src/main/mcp/MCPClientManager.ts:75 | no config is found exactly when no config has the id; otherwise the found config has that id and is the first one with it |
| MCPClientManager.IndexOfId | src/main/mcp/MCPClientManager.ts:75 | the position of the first config with the id: every earlier config has another id, and the position is the length of the list when none matches |
| MCPClientManager.Connected | src/main/mcp/MCPClientManager.ts:71-80 | `getOrConnect` on a session map: the map gains exactly the requested id, and only when the outcome is a session, which is then the one stored under that id; every existing session is kept |
| MCPClientManager.ConnectedCaches | src/main/mcp/MCPClientManager.ts:71-80 | a cached session is returned as is and a second call reuses it without a handshake, whatever the connect oracle would answer; an unconfigured id gives `Unknown server`; only the requested id can gain a session, only on success, and existing sessions are unchanged |
| MCPClientManager.ConnectedFrame | src/main/mcp/MCPClientManager.ts:71-80 | connecting one id leaves every other id's session, or its absence, as it was |
| MCPClientManager.Manager.GetOrConnect | src/main/mcp/MCPClientManager.ts:71-80 | the result and the new session map are those of the connection semantics on the old map; only the session map may change |
| MCPClientManager.Manager.SetConfigs | src/main/mcp/MCPClientManager.ts:24-36 | the configs are replaced; exactly the ids that have a session and are no longer configured lose their session, tool count and error entry; every other entry is unchanged; no session is created; error keys stay unique |
| MCPClientManager.NamespaceTools | src/main/mcp/MCPClientManager.ts:90-101 | one catalog entry per listed tool, in the server's order, each the namespaced form of that tool |
| MCPClientManager.NamespaceToolWell | src/main/mcp/MCPClientManager.ts:91-96 | a namespaced entry belongs to its server and its name starts with the server id followed by `__` |
| MCPClientManager.RecordFailureFrame | src/main/mcp/MCPClientManager.ts:104-105 | recording a failure leaves every other id's session, count and error untouched |
| MCPClientManager.RecordSuccessFrame | src/main/mcp/MCPClientManager.ts:88-89 | recording a success leaves every other id's session, count and error untouched |
| MCPClientManager.DiscoverOne | src/main/mcp/MCPClientManager.ts:85-108 | one iteration of the discovery loop: the server's recorded tool count is the number of tools it adds to the catalog (0 on failure), no other count changes, and every tool it adds belongs to that server |
| MCPClientManager.DiscoverOneFrame | src/main/mcp/MCPClientManager.ts:85-108 | one iteration of the discovery loop changes nothing about any server other than its own |
| MCPClientManager.DiscoverOneRecords | src/main/mcp/MCPClientManager.ts:85-108 | after one iteration its server's count is the number of listed tools and its error is gone on success, or its count is 0 and its error the message on failure; the outcome depends only on that server's own earlier entry |
| MCPClientManager.DiscoverOneContributes | src/main/mcp/MCPClientManager.ts:85-101 | one iteration adds exactly its server's own contribution: its namespaced tools, or nothing when connecting or listing fails |
| MCPClientManager.DiscoverOneNamespaces | src/main/mcp/MCPClientManager.ts:90-101 | every tool one iteration adds belongs to that iteration's server and is well namespaced |
| MCPClientManager.DiscoverOneUnique | src/main/mcp/MCPClientManager.ts:88-105 | one iteration keeps the error map's keys unique |
| MCPClientManager.SweepZero | src/main/mcp/MCPClientManager.ts:83 | before the first iteration the catalog is empty and the books are untouched |
| MCPClientManager.Sweep | src/main/mcp/MCPClientManager.ts:82-111 | the first `k` iterations of `getAllTools`: afterwards an id has a tool count exactly when it had one before or is among the first `k` configured ids |
| MCPClientManager.SweepStep | src/main/mcp/MCPClientManager.ts:84-109 | each iteration appends its tools to the catalog and passes its books on to the next |
| MCPClientManager.SweepStepBooks | src/main/mcp/MCPClientManager.ts:84-109 | the books after one more iteration are that iteration's books |
| MCPClientManager.SweepStepTools | src/main/mcp/MCPClientManager.ts:84-101 | the catalog after one more iteration is the earlier catalog followed by that iteration's tools |
| MCPClientManager.SweepFrame | src/main/mcp/MCPClientManager.ts:84-109 | iterations that do not process an id leave that id's session, count and error as they were |
| MCPClientManager.DistinctIdUnique | src/main/mcp/MCPClientManager.ts:84 | with distinct ids, no config other than config `j` has config `j`'s id |
| MCPClientManager.SweepKeepsOwnEntry | src/main/mcp/MCPClientManager.ts:84-109 | before its own iteration, a server whose id is unique still has its original entry |
| MCPClientManager.SweepCatalogStep | src/main/mcp/MCPClientManager.ts:84-101 | iteration `k` extends the expected catalog by exactly its server's own contribution |
| MCPClientManager.SweepCatalog | src/main/mcp/MCPClientManager.ts:84-110 | with distinct ids, the catalog is the concatenation, in config order, of every server's own contribution (config order, then each server's tool order) |
| MCPClientManager.SweepRecordsOne | src/main/mcp/MCPClientManager.ts:84-109 | a server's own outcome, once recorded, survives every later iteration |
| MCPClientManager.SweepRecords | src/main/mcp/MCPClientManager.ts:84-109 | with distinct ids, every processed server's count and error record its own outcome |
| MCPClientManager.SweepIsolatesFailures | src/main/mcp/MCPClientManager.ts:84-110 | failure isolation: a full discovery's catalog is every server's own contribution in order, so a failing server hides nobody else's tools; every server's count and error record its own outcome; unconfigured ids keep their entries |
| MCPClientManager.SweepNamespacesEveryTool | src/main/mcp/MCPClientManager.ts:84-101 | whatever the ids, every catalog entry belongs to a configured server and its name is that server's id, `__` and the tool's name |
| MCPClientManager.SweepUniqueErrors | src/main/mcp/MCPClientManager.ts:84-109 | discovery keeps the error map's keys unique |
| MCPClientManager.Manager.DiscoverServer | src/main/mcp/MCPClientManager.ts:85-108 | the loop body's tools and new state are those of one step of the discovery specification; it never fails |
| MCPClientManager.Manager.GetAllTools | src/main/mcp/MCPClientManager.ts:82-111 | the catalog and the new maps are those of the full discovery specification (so every Sweep lemma applies to them); it never fails; error keys stay unique |
| MCPClientManager.Manager.CallTool | src/main/mcp/MCPClientManager.ts:113-123 | a name without `__` fails with `Invalid namespaced tool name` and changes nothing; otherwise the prefix before the first `__` is connected as by `getOrConnect`, and the remainder is called there, or the connection error is returned |
| MCPClientManager.Manager.GetConnectionError | src/main/mcp/MCPClientManager.ts:125-127 | the recorded message for the id, and none exactly when no error is recorded for it |
| MCPClientManager.Manager.GetToolCount | src/main/mcp/MCPClientManager.ts:133-135 | the recorded count, and 0 for an id never counted |
| MCPClientManager.Manager.DisconnectAll | src/main/mcp/MCPClientManager.ts:141-152 | every session is asked to close, whatever the answers, and afterwards sessions, counts and errors are all empty |
| MCPClientManager.Manager.constructor | src/main/mcp/MCPClientManager.ts:18-22 | a new manager has no sessions, configs, errors or counts |
| Namespacing.OccursSeparator | src/main/mcp/MCPClientManager.ts:114 | `__` occurs at `i` exactly when the characters at `i` and `i + 1` are both `_` |
| Namespacing.SplitNamespaced | src/main/mcp/MCPClientManager.ts:114-119 | the parse fails exactly when the name does not contain `__` |
| Namespacing.ServerIdOf | src/main/claude/AgentLoop.ts:113 | `split('__')[0]` is the prefix before the first `__`, or the whole name when there is none |
| Namespacing.SplitNamespacedRoundTrip | src/main/mcp/MCPClientManager.ts:113-119 | splitting `id__name` gives back `(id, name)` for every tool name whenever `id` has no `__` and does not end in `_` |
| Namespacing.SplitNamespacedSound | src/main/mcp/MCPClientManager.ts:113-119 | every successful split gives such an id, and rebuilding from the two parts gives the name back |
| OrderedMaps.Keys | src/main/mcp/MCPClientManager.ts:130 | the keys in insertion order |
| OrderedMaps.Get | src/main/mcp/MCPClientManager.ts:126 | no value exactly when the key is absent; a value found is the key's entry |
| OrderedMaps.Put | src/main/mcp/MCPClientManager.ts:104 | setting a present key keeps the key order; a new key goes last |
| OrderedMaps.Remove | src/main/mcp/MCPClientManager.ts:89 | only entries of the map remain, none with the key |
| OrderedMaps.RemoveAll | src/main/mcp/MCPClientManager.ts:27-34 | only entries of the map remain, none with a removed key |
| OrderedMaps.GetPut | src/main/mcp/MCPClientManager.ts:104 | after setting, the key reads the new value and every other key reads as before |
| OrderedMaps.PutUnique | src/main/mcp/MCPClientManager.ts:104 | setting keeps keys unique |
| OrderedMaps.GetRemoveAll | src/main/mcp/MCPClientManager.ts:27-34 | after removing a set of keys they read as absent and every other key reads as before |
| OrderedMaps.RemoveAllNothing | src/main/mcp/MCPClientManager.ts:27-34 | removing no key changes nothing |
| OrderedMaps.RemoveIsRemoveAll | src/main/mcp/MCPClientManager.ts:89 | deleting one key is removing the set of that key |
| OrderedMaps.RemoveAppend | src/main/mcp/MCPClientManager.ts:32 | deleting from a concatenation deletes from each part |
| OrderedMaps.RemoveAllStep | src/main/mcp/MCPClientManager.ts:27-34 | deleting the keys one at a time, in any order, is removing them all at once |
| OrderedMaps.RemoveAllUnique | src/main/mcp/MCPClientManager.ts:27-34 | removing keys keeps keys unique |
| ServerConfigs.IdsOf | src/main/store/AppStore.ts:81 | the configs' ids, one per config, in order |
| ServerConfigs.DefaultEnabledIdsValue | src/main/registry/builtinServers.ts:23-63 | the built-in defaults are DuckDuckGo and Web Fetch, in that order; Brave starts disabled |
| Progress.DonesAppend | src/main/claude/AgentLoop.ts:103 | joining event sequences whose `done` events carry documents keeps that property |
| Progress.Terminate | src/main/claude/AgentLoop.ts:148-151 | adding a terminal event to events without one gives exactly one terminal event, the last |
| Progress.FinishWithDocument | src/main/claude/AgentLoop.ts:101-104 | thinking events followed by `done` with the finalised answer end a run with exactly one terminal event, and that `done` carries a document |
| Progress.ErrorLine | src/main/claude/AgentLoop.ts:56 | an error line is never empty |
| Progress.NoToolsMessage | src/main/claude/AgentLoop.ts:52-61 | the generic "Geen MCP-servers actief" hint is given exactly when no connection error is recorded |
| Progress.NoToolsMessageLists | src/main/claude/AgentLoop.ts:54-60 | with recorded errors the message starts with the lead, ends with the installation hint and contains a `• id: msg` line for every recorded error |
| Progress.MaxIterationsText | src/main/claude/AgentLoop.ts:148-151 | the exhaustion message names the limit as "20" |
| Progress.IterateNext | src/main/claude/AgentLoop.ts:71 | an unfinished loop state takes one more round |
| Progress.IterateStable | src/main/claude/AgentLoop.ts:71-146 | once a round finishes the run, later rounds change nothing |
| Progress.IterateInvariant | src/main/claude/AgentLoop.ts:71-146 | a property kept by every unfinished round holds after any number of rounds |
| Progress.IterateCalls | src/main/claude/AgentLoop.ts:71-80 | with one model call per round, `n` rounds make at most `n` calls, and exactly `n` while unfinished |
| Progress.IterateNeverFinishes | src/main/claude/AgentLoop.ts:71-146 | if no round finishes the run, the loop is still running after any number of rounds |
| Progress.RunEach | src/main/claude/AgentLoop.ts:112-142 | after `k` tool calls there are two more events per call and one reply per call |
| Progress.RunEachLast | src/main/claude/AgentLoop.ts:112-142 | call `k` appends its announcement, its closing event and its reply |
| Progress.RunEachPrefix | src/main/claude/AgentLoop.ts:112-142 | later calls only append: earlier events and replies stay in place |
| Progress.RunEachAt | src/main/claude/AgentLoop.ts:112-142 | call `i` is announced at position `2i` after the round's earlier events; it runs given exactly the events up to its announcement; its closing event and reply follow it |
| Progress.RunEachKeeps | src/main/claude/AgentLoop.ts:112-142 | if every announcement and closing event has a property, every event the calls add has it |
| Progress.ToolEventsQuiet | src/main/claude/AgentLoop.ts:114-134 | `tool_call` and `tool_result` events add no terminal event and no `done` |
| Html.ReplaceAll | src/main/claude/AgentLoop.ts:192 | a global one-character replacement removes the character unless the replacement contains it, and it neither adds nor removes any other character that is not in the replacement |
| Html.ReplaceAllAppend | src/main/claude/AgentLoop.ts:192 | replacing in a concatenation replaces in each part |
| Html.ReplaceAllSingle | src/main/claude/AgentLoop.ts:192 | a one-character string is replaced exactly when it is the character |
| Html.ReplaceAllAbsent | src/main/claude/AgentLoop.ts:192 | replacing a character that does not occur changes nothing |
| Html.PassesSingle | src/main/claude/AgentLoop.ts:191-195 | four passes in a row turn one character into its own replacement, provided no replacement contains a character a later pass replaces |
| Html.EscapeChar | src/main/claude/AgentLoop.ts:190-196 | the reference escaping of one character contains no `<`, `>` or `"` and is never empty |
| Html.EscapeEach | src/main/claude/AgentLoop.ts:190-196 | per-character escaping contains no `<`, `>` or `"` |
| Html.EscapeHtml | src/main/claude/AgentLoop.ts:190-196 | `escapeHTML` equals the per-character reference escaping, so its output holds no `<`, `>` or `"`, and decoding the four entities gives the text back |
| Html.EscapeCharByPasses | src/main/claude/AgentLoop.ts:190-196 | on one character the four passes of `escapeHTML` give the reference escaping |
| Html.PassesArePerChar | src/main/claude/AgentLoop.ts:190-196 | the four global replacements, `&` first, equal escaping each character on its own, so no entity is escaped twice |
| Html.UnescapeChar | src/main/claude/AgentLoop.ts:190-196 | decoding an escaped character followed by any text gives the character back, followed by the decoded text |
| Html.EscapeEachRoundTrip | src/main/claude/AgentLoop.ts:190-196 | decoding undoes per-character escaping |
| Html.WrapPage | src/main/claude/AgentLoop.ts:166-187 | the wrapped page starts with `<!DOCTYPE` and ends with `</html>` |
| Html.ExtractOrWrapHtml | src/main/claude/AgentLoop.ts:155-188 | both branches return a string that starts with `<!DOCTYPE` and ends with `</html>` |
| Html.CloseAfterDoctype | src/main/claude/AgentLoop.ts:157-159 | a `</html>` found after a `<!DOCTYPE` starts after its end |
| Html.ExtractSlice | src/main/claude/AgentLoop.ts:157-161 | with the first `<!DOCTYPE` at `d` and the last `</html>` at `h > d`, the result is exactly the text from `d` to the end of that `</html>`, whatever the query and the renderer |
| Html.WrapWhenNoDocument | src/main/claude/AgentLoop.ts:163-187 | without a `<!DOCTYPE` followed by a `</html>`, the result is the page wrapped around the escaped query and the rendered text |
| Html.ExtractOrWrapIdempotent | src/main/claude/AgentLoop.ts:155-188 | finalising a finalised answer again returns it unchanged, whatever the query and the renderer |
| AgentLoop.ThinkingEvents | src/main/claude/AgentLoop.ts:94-98 | the thinking events of a round are never terminal |
| AgentLoop.ThinkingEventsExactly | src/main/claude/AgentLoop.ts:94-98 | a `thinking` event is yielded exactly for each text block whose trimmed text is not empty; it carries the untrimmed text; the events follow block order |
| AgentLoop.ToAnthropicTool | src/main/claude/AgentLoop.ts:42-46 | a catalog entry is offered to the model under its namespaced name with its schema; a missing description becomes empty |
| AgentLoop.NoToolUses | src/main/claude/AgentLoop.ts:85-87 | the `tool_use` filter is empty exactly when no content block is a `tool_use` block |
| AgentLoop.IsFinal | src/main/claude/AgentLoop.ts:101 | a response ends the run exactly when its stop reason is `end_turn` or none of its blocks is a `tool_use` block |
| AgentLoop.RunTools | src/main/claude/AgentLoop.ts:111-142 | after `k` tool calls, two more events per call and one result block per call, and the round's earlier events are kept |
| AgentLoop.Round | src/main/claude/AgentLoop.ts:72-145 | one loop iteration: exactly one model call; a finishing round leaves the history as it was, a continuing one appends two messages; events are only appended, and at least one per round |
| AgentLoop.RunSpec | src/main/claude/AgentLoop.ts:37-152 | a run always yields at least one event and calls the model at most 20 times |
| AgentLoop.RunToolsShape | src/main/claude/AgentLoop.ts:111-142 | each tool request yields `tool_call` (with the `__` prefix as server id), then exactly one `tool_result`, in request order; each adds one result block answering its `tool_use_id`; a failure gives `ok: false` and an `is_error` block, and the round goes on; each call is made given every event up to its own `tool_call` |
| AgentLoop.RunToolsQuiet | src/main/claude/AgentLoop.ts:111-142 | tool calls add no terminal event and no `done` |
| AgentLoop.StepIsRound | src/main/claude/AgentLoop.ts:71-146 | the loop body is the round of the specification |
| AgentLoop.RoundApiError | src/main/claude/AgentLoop.ts:73-84 | a failing model call ends the run with one `Claude API fout` error; the history is unchanged |
| AgentLoop.RoundFinal | src/main/claude/AgentLoop.ts:100-105 | a response without tool requests, or with stop reason `end_turn` even when it has tool requests, ends the run: its thinking events, then `done` with the finalised concatenation of the text blocks; the history is unchanged |
| AgentLoop.RoundContinues | src/main/claude/AgentLoop.ts:107-145 | any other response makes a tool round that adds the assistant turn and the tool results to the history and does not finish |
| AgentLoop.ToolRound | src/main/claude/AgentLoop.ts:107-145 | a tool round appends exactly two messages: the assistant content, then one user message whose result blocks answer the tool requests one to one and in order by `tool_use_id`; its events are the thinking events, then a `tool_call`/`tool_result` pair per request |
| AgentLoop.ThinkingIsQuiet | src/main/claude/AgentLoop.ts:94-98 | thinking events add no terminal event and no `done` |
| AgentLoop.FinalTerminal | src/main/claude/AgentLoop.ts:100-105 | a final round ends with exactly one terminal event, a `done` that carries a document |
| AgentLoop.ToolsTerminal | src/main/claude/AgentLoop.ts:107-145 | a tool round adds no terminal event |
| AgentLoop.RoundTerminal | src/main/claude/AgentLoop.ts:71-146 | a round either adds no terminal event and goes on, or ends the run with exactly one |
| AgentLoop.RoundKeepsInv | src/main/claude/AgentLoop.ts:71-146 | a round keeps the loop invariant: the query opens the history, each tool round adds two messages, and the only terminal event is the one that ends the run |
| AgentLoop.RoundCalls | src/main/claude/AgentLoop.ts:74 | each round calls the model once |
| AgentLoop.RoundsInvariant | src/main/claude/AgentLoop.ts:71-146 | after any number of rounds: at most one call per round, the query first in the history, and no terminal event until the one that ends the run |
| AgentLoop.RunTerminatesOnce | src/main/claude/AgentLoop.ts:37-152 | every run yields exactly one terminal event, as its last event; every `done` carries an HTML document; the model is called at most 20 times |
| AgentLoop.RunWithoutTools | src/main/claude/AgentLoop.ts:38-65 | a failed discovery gives the single `Kon geen MCP-tools laden` error; an empty catalog gives the single no-tools error; neither calls the model |
| AgentLoop.RunExhausts | src/main/claude/AgentLoop.ts:71-151 | if the model always requests tools, it is called exactly 20 times and the run ends with the `Maximaal aantal stappen (20)` error |
| AgentLoop.YieldThinking | src/main/claude/AgentLoop.ts:94-98 | the loop over the text blocks appends exactly the round's thinking events |
| AgentLoop.ExecuteTools | src/main/claude/AgentLoop.ts:111-142 | the loop over the tool requests yields the events and result blocks of the tool-call specification |
| AgentLoop.AgentLoop.constructor | src/main/claude/AgentLoop.ts:32-35 | every request uses the given key, the `claude-opus-4-6` model, 8192 tokens and the system prompt |
| AgentLoop.AgentLoop.Iteration | src/main/claude/AgentLoop.ts:72-145 | one pass of the loop body gives the history, the events and the finished flag of one round of the specification |
| AgentLoop.AgentLoop.Rounds | src/main/claude/AgentLoop.ts:71-151 | the `for` loop gives the state after at most 20 rounds, followed by the exhaustion error when no round finished |
| AgentLoop.AgentLoop.Run | src/main/claude/AgentLoop.ts:37-152 | `run` yields exactly the events of the run specification and builds its history |
| OllamaAgentLoop.ToOpenAITool | src/main/claude/OllamaAgentLoop.ts:80-87 | the tool keeps its name; a missing description becomes empty; a missing schema becomes the empty object schema, so parameters are never null |
| OllamaAgentLoop.ToolsOffered | src/main/claude/OllamaAgentLoop.ts:80-87 | every offered tool declares parameters, and the catalog keeps its order and names |
| OllamaAgentLoop.Headers | src/main/claude/OllamaAgentLoop.ts:115-116 | the first header is always `Content-Type: application/json` |
| OllamaAgentLoop.HeadersAuthorization | src/main/claude/OllamaAgentLoop.ts:115-116 | an `Authorization: Bearer <key>` header is sent exactly when the key is present and not empty, and no header is repeated |
| OllamaAgentLoop.MakeHttpRequest | src/main/claude/OllamaAgentLoop.ts:118-128 | the body carries the history; `tools` and `tool_choice` are sent exactly when there are tools |
| OllamaAgentLoop.ToolInput | src/main/claude/OllamaAgentLoop.ts:174-179 | the arguments are parsed (empty text as `{}`), and unparseable arguments become the empty object |
| OllamaAgentLoop.ToolMessage | src/main/claude/OllamaAgentLoop.ts:187-198 | each call is answered by a `tool` message with the call's id, whether it succeeded or failed |
| OllamaAgentLoop.RunCallsShape | src/main/claude/OllamaAgentLoop.ts:171-200 | each call yields `tool_call` with the `__` prefix as server id and the parsed input, then exactly one `tool_result`, in request order, plus one tool message answering its id; a failure gives `ok: false` and the round goes on |
| OllamaAgentLoop.RunCallsQuiet | src/main/claude/OllamaAgentLoop.ts:171-200 | tool calls add no terminal event and no `done` |
| OllamaAgentLoop.ThinkingOf | src/main/claude/OllamaAgentLoop.ts:152-155 | at most one `thinking` event per round, there exactly when the trimmed text is not empty, carrying the untrimmed text |
| OllamaAgentLoop.ChoiceIsFinal | src/main/claude/OllamaAgentLoop.ts:158 | a choice ends the run exactly when its finish reason is `stop` or its tool-call list is missing or empty |
| OllamaAgentLoop.RunCalls | src/main/claude/OllamaAgentLoop.ts:171-200 | after `k` tool calls, two more events per call and one tool message per call, and the round's earlier events are kept |
| OllamaAgentLoop.ChoiceRound | src/main/claude/OllamaAgentLoop.ts:148-200 | handling the first choice: one request counted; a final choice leaves the history as it was, a tool choice appends the assistant message and one message per call; events are only appended, at least one |
| OllamaAgentLoop.Round | src/main/claude/OllamaAgentLoop.ts:113-200 | one loop iteration: exactly one request; a finishing round leaves the history as it was, and the history and the events are only appended to, with at least one event per round |
| OllamaAgentLoop.RunSpec | src/main/claude/OllamaAgentLoop.ts:75-207 | a run always yields at least one event and makes at most 20 requests |
| OllamaAgentLoop.AssistantMessage | src/main/claude/OllamaAgentLoop.ts:163-168 | the assistant message carries the requested calls, and its text is null exactly when the content is empty |
| OllamaAgentLoop.StepIsRound | src/main/claude/OllamaAgentLoop.ts:112-201 | the loop body is the round of the specification |
| OllamaAgentLoop.HttpErrorMessageStatus | src/main/claude/OllamaAgentLoop.ts:132 | the `OpenAI API fout` message carries the response's status: the digits after the lead read back as that status, followed by `: ` and the error text |
| OllamaAgentLoop.RoundFails | src/main/claude/OllamaAgentLoop.ts:130-146 | a thrown request, a response that is not ok, or one without choices each end the run with their one error (`Verbindingsfout`, `OpenAI API fout <status>`, `Leeg antwoord van API.`); the history is unchanged |
| OllamaAgentLoop.RoundChoice | src/main/claude/OllamaAgentLoop.ts:142-148 | a response with choices is handled by its first choice |
| OllamaAgentLoop.FinalChoice | src/main/claude/OllamaAgentLoop.ts:157-161 | finish reason `stop`, or no tool call, ends the run: at most one thinking event, then `done` with the finalised text; the history is unchanged |
| OllamaAgentLoop.ToolChoiceIs | src/main/claude/OllamaAgentLoop.ts:163-200 | any other choice makes a tool round that does not finish |
| OllamaAgentLoop.AnswersFollow | src/main/claude/OllamaAgentLoop.ts:163-200 | the history grows by the assistant message first and then the answers, in order, and its earlier part is untouched |
| OllamaAgentLoop.ToolAnswers | src/main/claude/OllamaAgentLoop.ts:187-198 | a round's tool messages answer its calls' ids one to one, in order |
| OllamaAgentLoop.CallEvents | src/main/claude/OllamaAgentLoop.ts:171-200 | a round's calls add a `tool_call`/`tool_result` pair per call, in order |
| OllamaAgentLoop.ToolChoice | src/main/claude/OllamaAgentLoop.ts:163-200 | a tool round appends the assistant message first, then exactly one `tool` message per call, in order, with `tool_call_id` equal to the call's id; it does not finish |
| OllamaAgentLoop.ToolEvents | src/main/claude/OllamaAgentLoop.ts:171-200 | a tool round's events add no terminal event |
| OllamaAgentLoop.ChoiceTerminal | src/main/claude/OllamaAgentLoop.ts:148-200 | handling a choice either adds no terminal event and goes on, or ends the run with exactly one |
| OllamaAgentLoop.RoundTerminal | src/main/claude/OllamaAgentLoop.ts:112-201 | a round either adds no terminal event and goes on, or ends the run with exactly one |
| OllamaAgentLoop.RoundKeepsInv | src/main/claude/OllamaAgentLoop.ts:112-201 | a round keeps the loop invariant: the system prompt and the query open the history, and the only terminal event is the one that ends the run |
| OllamaAgentLoop.RoundCalls | src/main/claude/OllamaAgentLoop.ts:118 | each round makes one request |
| OllamaAgentLoop.RoundsInvariant | src/main/claude/OllamaAgentLoop.ts:106-201 | after any number of rounds: at most one request per round, the history opened by exactly the system prompt and the query, and no terminal event until the one that ends the run |
| OllamaAgentLoop.RunTerminatesOnce | src/main/claude/OllamaAgentLoop.ts:75-207 | every run yields exactly one terminal event, as its last event; every `done` carries an HTML document; at most 20 requests are made |
| OllamaAgentLoop.RunWithoutTools | src/main/claude/OllamaAgentLoop.ts:76-103 | a failed discovery, or an empty catalog, yields its single error and sends nothing |
| OllamaAgentLoop.RunExhausts | src/main/claude/OllamaAgentLoop.ts:112-206 | if every answer requests tools, exactly 20 requests are made and the run ends with the exhaustion error |
| OllamaAgentLoop.YieldThought | src/main/claude/OllamaAgentLoop.ts:152-155 | the round's thinking step appends exactly its thinking event, if any |
| OllamaAgentLoop.ExecuteToolCalls | src/main/claude/OllamaAgentLoop.ts:171-200 | the loop over the calls yields the events and tool messages of the tool-call specification |
| OllamaAgentLoop.OllamaAgentLoop.constructor | src/main/claude/OllamaAgentLoop.ts:62-73 | the base URL is the given URL without its trailing slashes; model and key are kept |
| OllamaAgentLoop.OllamaAgentLoop.Config | src/main/claude/OllamaAgentLoop.ts:56-60 | the endpoint the loop talks to is the one the constructor set up |
| OllamaAgentLoop.OllamaAgentLoop.Iteration | src/main/claude/OllamaAgentLoop.ts:113-200 | one pass of the loop body gives the history, the events and the finished flag of one round of the specification |
| OllamaAgentLoop.OllamaAgentLoop.HandleChoice | src/main/claude/OllamaAgentLoop.ts:148-200 | handling the first choice gives the history, events and finished flag of the choice's part of the round |
| OllamaAgentLoop.OllamaAgentLoop.Rounds | src/main/claude/OllamaAgentLoop.ts:112-206 | the `for` loop gives the state after at most 20 rounds, followed by the exhaustion error when no round finished |
| OllamaAgentLoop.OllamaAgentLoop.Run | src/main/claude/OllamaAgentLoop.ts:75-207 | `run` yields exactly the events of the run specification and builds its history |
| AppStore.Sealed | src/main/store/AppStore.ts:30-38 | without encryption the key is stored as it is |
| AppStore.Unsealed | src/main/store/AppStore.ts:40-49 | an empty stored string loads as no key; without encryption the stored string is the key; otherwise the key is its decryption, or none when decryption fails |
| AppStore.SealRoundTrip | src/main/store/AppStore.ts:30-49 | a saved non-empty key loads back; without encryption unconditionally, otherwise when the cipher inverts itself and never yields an empty text |
| AppStore.SealEmptyNoKey | src/main/store/AppStore.ts:30-53 | without encryption, saving the empty key leaves the store as if no key had been saved |
| AppStore.BuiltinIds | src/main/registry/builtinServers.ts:23-63 | the first three known ids are the built-in servers', in order |
| AppStore.DefaultsKnown | src/main/store/AppStore.ts:81-88 | the default ids are known, whatever the custom servers |
| AppStore.DefaultsNonEmpty | src/main/store/AppStore.ts:87-91 | the defaults are not empty |
| AppStore.EnabledIds | src/main/store/AppStore.ts:79-94 | the ids `getEnabledServerIds` returns are never empty and every one is a built-in or custom server id |
| AppStore.EnabledIdsShape | src/main/store/AppStore.ts:79-94 | the enabled ids are never empty and all known; they are the known stored ids, in stored order, when any stored id is known, and otherwise the built-in defaults |
| AppStore.EnabledIdsStable | src/main/store/AppStore.ts:79-94 | asking again, with what the first query left in the store, gives the same ids |
| AppStore.Toggled | src/main/store/AppStore.ts:96-106 | after enabling, the id is in the list; after disabling, it is not; no id other than it is ever added |
| AppStore.ToggledMembers | src/main/store/AppStore.ts:96-106 | after enabling, the id is present and nothing else is added; after disabling, every occurrence of the id is gone and every other id stays |
| AppStore.EnableIdempotent | src/main/store/AppStore.ts:98-99 | enabling twice is enabling once |
| AppStore.DisableIdempotent | src/main/store/AppStore.ts:100-104 | disabling twice is disabling once |
| AppStore.FilterNoDuplicates | src/main/store/AppStore.ts:103 | filtering a list without duplicates leaves none |
| AppStore.ToggledNoDuplicates | src/main/store/AppStore.ts:96-106 | neither enabling nor disabling introduces a duplicate |
| AppStore.WithoutServer | src/main/store/AppStore.ts:117-122 | no remaining custom server has the removed id |
| AppStore.WithoutServerKeeps | src/main/store/AppStore.ts:117-122 | removal keeps exactly the servers with another id |
| AppStore.Resolved | src/main/store/AppStore.ts:135-140 | a configuration is unchanged except that the Brave server, given a present non-empty key, gains it as `resolvedApiKey` |
| AppStore.EnabledConfigs | src/main/store/AppStore.ts:130-141 | no more servers than there are, and every one returned is enabled |
| AppStore.EnabledConfigsShape | src/main/store/AppStore.ts:130-141 | every returned server is enabled and one of all servers up to its key, every enabled server is returned, and only the Brave one may differ from its stored form |
| AppStore.AllWithStatus | src/main/store/AppStore.ts:143-158 | one entry per server, in order, each carrying that server's config and `enabled` exactly when its id is enabled |
| AppStore.AllWithStatusShape | src/main/store/AppStore.ts:143-158 | one entry per server, in order, with `enabled` equal to membership in the enabled ids; without a manager it is disconnected with 0 tools and no error, otherwise the manager's three answers |
| AppStore.Store.constructor | src/main/store/AppStore.ts:16-26 | a new store has no keys, no custom servers, and DuckDuckGo and Web Fetch enabled |
| AppStore.Store.SaveApiKey | src/main/store/AppStore.ts:30-38 | the stored key is the sealed plaintext; no other field changes |
| AppStore.Store.LoadApiKey | src/main/store/AppStore.ts:40-53 | no key when none is stored; without encryption a key exactly when one is stored |
| AppStore.Store.SaveBraveApiKey | src/main/store/AppStore.ts:57-64 | the stored Brave key is the sealed plaintext; no other field changes |
| AppStore.Store.LoadBraveApiKey | src/main/store/AppStore.ts:66-75 | no key when none is stored; without encryption a key exactly when one is stored |
| AppStore.Store.GetEnabledServerIds | src/main/store/AppStore.ts:79-94 | returns the enabled ids of the stored list, and writes the defaults back exactly when no stored id is known; nothing else changes |
| AppStore.Store.SetServerEnabled | src/main/store/AppStore.ts:96-106 | the enabled list becomes the toggled list, whose properties are the lemmas above; nothing else changes |
| AppStore.Store.AddCustomServer | src/main/store/AppStore.ts:112-115 | the config is appended at the end, even when its id is already there; nothing else changes |
| AppStore.Store.RemoveCustomServer | src/main/store/AppStore.ts:117-124 | every custom server with the id goes and the id is disabled; the keys are unchanged |
| AppStore.Store.GetAllServers | src/main/store/AppStore.ts:126-128 | the built-in servers first, then the custom ones |
| AppStore.Store.GetEnabledServerConfigs | src/main/store/AppStore.ts:130-141 | the enabled servers with the loaded Brave key, as `EnabledConfigsShape` describes; the stored list may be reset as by `getEnabledServerIds` |
| AppStore.Store.GetAllServersWithStatus | src/main/store/AppStore.ts:143-158 | every server with its status, as `AllWithStatusShape` describes; the stored list may be reset as by `getEnabledServerIds` |
| Navigation.Prefix | src/renderer/hooks/useNavigation.ts:9 | `slice(0, k)`: the first `k` entries, or all when there are fewer |
| Navigation.Query | src/renderer/hooks/useNavigation.ts:24 | the entry under the cursor, or `''` when the cursor is not on an entry (as initially at -1) |
| Navigation.Navigated | src/renderer/hooks/useNavigation.ts:7-13 | navigating from a well-formed state gives a well-formed state whose current query is the new one |
| Navigation.StepBackAsWritten | src/renderer/hooks/useNavigation.ts:15 | `back` as written keeps the history, moves one entry back from any entry after the first, and never leaves the cursor below 0, even on an empty history (see Findings) |
| Navigation.StepBack | src/renderer/hooks/useNavigation.ts:15 | the corrected `back` keeps the history, moves the cursor by at most one entry back and keeps a well-formed state well formed |
| Navigation.StepForward | src/renderer/hooks/useNavigation.ts:17-20 | `forward` keeps the history and keeps a well-formed state well formed |
| Navigation.BackEnabled | src/renderer/hooks/useNavigation.ts:22 | `canGoBack` holds exactly when going back would move the cursor |
| Navigation.ForwardEnabled | src/renderer/hooks/useNavigation.ts:23 | on a well-formed state, `canGoForward` holds exactly when going forward would move the cursor |
| Navigation.NavigatedShows | src/renderer/hooks/useNavigation.ts:7-13 | navigating keeps the entries up to the cursor, appends the query and moves onto it; afterwards it is the current query, forward is disabled, and back is enabled exactly when there was a current entry |
| Navigation.NavigateThenBack | src/renderer/hooks/useNavigation.ts:7-15 | going back after navigating returns to the entry that was current |
| Navigation.BackStep | src/renderer/hooks/useNavigation.ts:15 | back moves the cursor exactly one entry back when back is enabled, and otherwise changes nothing; the history is unchanged |
| Navigation.ForwardStep | src/renderer/hooks/useNavigation.ts:17-20 | forward moves one entry on when forward is enabled, never past the last entry; the history is unchanged |
| Navigation.BackForwardInverse | src/renderer/hooks/useNavigation.ts:15-20 | forward undoes back, and back undoes forward from an entry, whenever the first step was enabled |
| Navigation.BackAgreesOnEntries | src/renderer/hooks/useNavigation.ts:15 | the written and the corrected back agree whenever the cursor is on an entry, in particular whenever back is enabled |
| Navigation.BackFromStartLosesQuery | src/renderer/hooks/useNavigation.ts:4-15 | as written, back from the initial state moves the cursor off the empty history, and the next query is then not shown; the corrected back keeps the state and shows it |
| Navigation.History.constructor | src/renderer/hooks/useNavigation.ts:4-5 | an empty history with the cursor at -1 |
| Navigation.History.Navigate | src/renderer/hooks/useNavigation.ts:7-13 | the new state is the navigated state; the current query is the new one and forward is disabled |
| Navigation.History.Back | src/renderer/hooks/useNavigation.ts:15 | the new state is the corrected back of the old one (see Findings), and it stays well formed |
| Navigation.History.Forward | src/renderer/hooks/useNavigation.ts:17-20 | the new state is the forward step of the old one, and it stays well formed |
| Navigation.History.CurrentQuery | src/renderer/hooks/useNavigation.ts:24 | the query of the state |
| MakeIco.LE16 | scripts/make-ico.mjs:53-55 | a 16-bit field is two bytes |
| MakeIco.LE32 | scripts/make-ico.mjs:66-67 | a 32-bit field is four bytes |
| MakeIco.LE16RoundTrip | scripts/make-ico.mjs:53-55 | a 16-bit little-endian field decodes to the value written |
| MakeIco.LE32RoundTrip | scripts/make-ico.mjs:66-67 | a 32-bit little-endian field decodes to the value written |
| MakeIco.Header | scripts/make-ico.mjs:52-55 | the header is six bytes |
| MakeIco.Entry | scripts/make-ico.mjs:58-68 | a directory entry is sixteen bytes |
| MakeIco.Dimension | scripts/make-ico.mjs:60-61 | the width or height byte is 0 exactly for sizes 0 and from 256 up, and is the size itself otherwise |
| MakeIco.DataLengthGrows | scripts/make-ico.mjs:42-47 | the running offset never decreases |
| MakeIco.OffsetOf | scripts/make-ico.mjs:42-47 | every image is placed after the header and the whole directory, and ends within the image area |
| MakeIco.ImageFits | scripts/make-ico.mjs:42-50 | image `i` ends where image `i + 1` starts, inside the file |
| MakeIco.Entries | scripts/make-ico.mjs:57-68 | the directory has sixteen bytes per image |
| MakeIco.Data | scripts/make-ico.mjs:70-73 | the image area is as long as all images together |
| MakeIco.IcoFile | scripts/make-ico.mjs:37-73 | the file is `6 + 16n` bytes plus the images' lengths |
| MakeIco.OffsetsChain | scripts/make-ico.mjs:37-49 | the first offset is `6 + 16n`, each next one is the previous plus the previous image's length, and the buffer length is `6 + 16n` plus all image lengths |
| MakeIco.RangesDisjoint | scripts/make-ico.mjs:71-73 | the images' byte ranges lie after the directory, inside the buffer, and do not overlap |
| MakeIco.EntryInEntries | scripts/make-ico.mjs:58-68 | entry `i` of the directory describes image `i` |
| MakeIco.ImageInData | scripts/make-ico.mjs:70-73 | image `i`'s bytes sit at its running offset in the image area |
| MakeIco.HeaderFields | scripts/make-ico.mjs:53-55 | the file's bytes 0, 2 and 4 decode to reserved 0, type 1 and the image count |
| MakeIco.EntryDecodes | scripts/make-ico.mjs:58-67 | an entry's width, height, palette, reserved, planes, bit count, length and offset fields decode to the values written |
| MakeIco.EntryAt | scripts/make-ico.mjs:58-59 | entry `i` occupies bytes `[6 + 16i, 6 + 16i + 16)` of the file |
| MakeIco.EntryFields | scripts/make-ico.mjs:58-67 | in the file, entry `i` has width and height 0 for 256 pixels and more and the size otherwise, no palette, one plane, 32 bits, and image `i`'s length and offset, decodable |
| MakeIco.DataFields | scripts/make-ico.mjs:71-73 | image `i`'s bytes are at `[offset_i, offset_i + length_i)` of the file |
| MakeIco.Splice | scripts/make-ico.mjs:50 | writing into a buffer keeps its length |
| MakeIco.SpliceAdjacent | scripts/make-ico.mjs:58-68 | two writes side by side are one write of both |
| MakeIco.SpliceEmpty | scripts/make-ico.mjs:50 | writing nothing changes nothing |
| MakeIco.SpliceWhole | scripts/make-ico.mjs:50 | writing a whole buffer's worth from 0 replaces it |
| MakeIco.WriteUInt8 | scripts/make-ico.mjs:60-63 | `writeUInt8` sets exactly one byte |
| MakeIco.WriteUInt16LE | scripts/make-ico.mjs:53-55 | `writeUInt16LE` writes exactly the two little-endian bytes at the offset |
| MakeIco.WriteUInt32LE | scripts/make-ico.mjs:66-67 | `writeUInt32LE` writes exactly the four little-endian bytes at the offset |
| MakeIco.Copy | scripts/make-ico.mjs:72 | `data.copy(buf, offset)` writes exactly the data at the offset |
| MakeIco.PlaceImages | scripts/make-ico.mjs:41-49 | the running offset places each image after the directory and all images before it, and ends at the file size |
| MakeIco.WriteEntry | scripts/make-ico.mjs:59-67 | the eight field writes put exactly one directory entry at its base |
| MakeIco.WriteHeader | scripts/make-ico.mjs:52-55 | the three header writes put exactly the header at 0 |
| MakeIco.DirectoryStep | scripts/make-ico.mjs:58-68 | writing entry `i` after the first `i` entries gives the first `i + 1` |
| MakeIco.WriteDirectory | scripts/make-ico.mjs:57-68 | the entry loop writes exactly the directory right after the header |
| MakeIco.DataStep | scripts/make-ico.mjs:71-73 | copying image `i` after the first `i` images gives the first `i + 1` |
| MakeIco.WriteData | scripts/make-ico.mjs:70-73 | the copy loop writes exactly the image area after the directory |
| MakeIco.WriteIco | scripts/make-ico.mjs:37-73 | the fresh buffer holds exactly the laid-out file, with every property above |
| Scans.ScanKeeps | src/main/mcp/MCPClientManager.ts:84-109 | a state property that each step keeps holds along the whole pass |
| Scans.ScanEmits | src/main/mcp/MCPClientManager.ts:84-101 | if every step emits only values with a property, the whole pass does |
| Wrappers.Filter | src/main/store/AppStore.ts:84 | keeps only elements that pass, keeps every element that passes, and is never longer than its input; the order and multiplicity of what it keeps follow from `FilterAppend` and `FilterMapSnoc` |
| Wrappers.Map | src/main/claude/AgentLoop.ts:42-46 | one image per element, in order |
| Wrappers.FilterAppend | src/main/store/AppStore.ts:84 | filtering a concatenation filters each part |
| Wrappers.FilterIdempotent | src/main/store/AppStore.ts:103 | filtering twice by the same predicate is filtering once |
| Wrappers.FilterAll | src/main/store/AppStore.ts:84 | a filter every element passes changes nothing |
| Wrappers.MapAppend | src/main/claude/AgentLoop.ts:42-46 | mapping a concatenation maps each part |
| Wrappers.FilterMapSnoc | src/main/claude/AgentLoop.ts:94-98 | one more element adds its image exactly when it passes the filter |
| Wrappers.YieldEachIsMapFilter | src/main/claude/AgentLoop.ts:94-98 | a loop that yields `f(x)` for every `x` that passes yields the images of the filtered elements, in order |
| Strings.Framed | src/main/claude/AgentLoop.ts:166-187 | a text built as lead, middle and tail starts with the lead and ends with the tail |
| Strings.IndexOf | src/main/mcp/MCPClientManager.ts:114 | `indexOf`: -1, or an occurrence at or after the start with none between the start and it |
| Strings.LastIndexOfFrom | src/main/claude/AgentLoop.ts:158 | the last occurrence at or before the bound, or -1 |
| Strings.LastIndexOf | src/main/claude/AgentLoop.ts:158 | `lastIndexOf`: -1, or an occurrence with none after it |
| Strings.IndexOfFirst | src/main/claude/AgentLoop.ts:157 | `indexOf` finds the first occurrence |
| Strings.LastIndexOfLast | src/main/claude/AgentLoop.ts:158 | `lastIndexOf` finds the last occurrence |
| Strings.TrimStartShape | src/main/claude/AgentLoop.ts:95 | trimming the start keeps a suffix of the text, every dropped character is white space, and what is kept is empty or starts with another character |
| Strings.TrimEndShape | src/main/claude/AgentLoop.ts:95 | trimming the end keeps a prefix of the text, every dropped character is white space, and what is kept is empty or ends with another character |
| Strings.Trim | src/main/claude/AgentLoop.ts:95 | `trim()` is a contiguous slice of its text with only white space on either side of it, and a non-empty result neither starts nor ends with JavaScript white space |
| Strings.TrimFrame | src/main/claude/AgentLoop.ts:95 | trimming the start and then the end leaves the slice that starts after the leading white space, with blank text on both sides |
| Strings.TrimEmptyIffBlank | src/main/claude/AgentLoop.ts:95 | `trim()` is empty exactly when every character is JavaScript white space |
| Strings.TrimEndNonEmpty | src/main/claude/AgentLoop.ts:95 | text that starts with a non-space does not trim to empty |
| Strings.TrimEndKeepsNonBlank | src/main/claude/AgentLoop.ts:95 | trimming the end keeps a leading non-space |
| Strings.StripTrailingSlashes | src/main/claude/OllamaAgentLoop.ts:69 | the result is a prefix of the URL without a trailing `/`, and the URL is the result followed only by slashes |
| Strings.NatToString | src/main/claude/AgentLoop.ts:150 | `String(n)` is a non-empty run of decimal digits with no leading zero |
| Strings.NatToStringValue | src/main/claude/AgentLoop.ts:150 | the digits of `String(n)` denote `n`: reading them back in base ten gives `n` |
| Strings.DigitChar | src/main/claude/AgentLoop.ts:150 | the character of digit `d` is the decimal digit whose value is `d` |
| Strings.Join | src/main/claude/AgentLoop.ts:55-57 | joining non-empty parts is empty exactly when there are none |
| Strings.OccursContains | src/main/claude/AgentLoop.ts:59 | an occurrence anywhere makes `indexOf` succeed |
| Strings.JoinOccurs | src/main/claude/AgentLoop.ts:55-57 | every part occurs in the joined text |
| Strings.FramedJoinContains | src/main/claude/AgentLoop.ts:59-60 | every part occurs in the joined text however it is framed |

## Left out

- Connecting (`connectServer`, src/main/mcp/MCPClientManager.ts:38-69) is an oracle. The MCP SDK client, the stdio, Streamable HTTP and SSE transports, the HTTP-then-SSE fallback and the augmented environment are the SDK's and the platform's business. Connecting counts as one attempt that gives a session or a message.
- `listTools`, `callTool` and `close` are oracles. They give a result or the message the source would render with `err.message` or `String(err)`.
- The `console.error` log in discovery is I/O.
- The model has no async-generator mechanics. It does not model a consumer that stops early, the 120-second request timeout, or overlapping runs racing in `getOrConnect`. A run is a sequential method whose yielded events are a sequence.
- The Anthropic SDK call and `fetch` with its `res.json()` are oracles. So are `JSON.parse`/`JSON.stringify` and `simpleMarkdownToHTML` (src/main/claude/AgentLoop.ts:198-221), which depends on JavaScript regular-expression semantics.
- `HttpError` carries the text the caller gets. That is the body from `res.text()`, or `statusText` when reading the body fails.
- `response.choices` missing is given as an empty list.
- A choice is assumed to carry a message. A choice without one makes the source throw a `TypeError` outside its `try`, and the model has no such response.
- Strings are sequences of Unicode scalar values, while JavaScript strings are UTF-16 code units: the model has no lone surrogates, and an astral character counts once. Every pattern the core searches for (`__`, `<!DOCTYPE`, `</html>`, `&`, `<`, `>`, `"` and `/`) is ASCII, so no search or split depends on the difference.
- JSON numbers are integers. Floating point plays no part in the core.
- `safeStorage` is an oracle, with base64 encoding folded into its encryption. `electron-store` persistence is the class's four fields.
- `hasApiKey`, `getCustomServers`, `isConnected` and `getAllConnectionErrors` are plain readers without a contract of their own: `HasApiKey`, `GetCustomServers`, `IsConnected` and `GetAllConnectionErrors`. `getAllServersWithStatus` takes the manager as its three queries.
- In the build script, the `sips` resizing, the file reads and writes, the fixed size list and the logging are I/O. The resized PNGs are an input.
- The UI, React state, IPC and window wiring are not part of this model. So are the bundled search and fetch servers, the registry client, the Node resolver and the packaging scripts.
- The built-in servers' command is the node binary found at run time, and their script paths depend on the install location. Only their names appear.
- MCPClientManager.Manager.SetConfigs: only ids that have a session are dropped, because the loop at src/main/mcp/MCPClientManager.ts:27-34 runs over `clients`; a removed id that never had a session keeps its error and tool count. The best-effort `close()` that is not awaited is not modelled.
- MCPClientManager.Manager.DisconnectAll: the sessions are closed in an unspecified order, and the close outcomes are ignored as in the source. The model returns the set of ids it asked, not the order.
- MCPClientManager.SweepCatalog, MCPClientManager.SweepRecords and MCPClientManager.SweepIsolatesFailures are stated for configs with distinct ids. With a repeated id, a later config overwrites and reuses the earlier config's entry. MCPClientManager.SweepNamespacesEveryTool and MCPClientManager.SweepUniqueErrors hold for any configs.
- MakeIco.WriteIco requires at most 65535 images and a file below 4 GiB. Beyond that, Node's field writers throw a `RangeError`, and the model has no error path for it.
- Html.WrapPage: the stylesheet's content width is passed in as `ContentWidth` ("820px"), and the rest of the page text is as in the source.
- Navigation.History.Back: implements the corrected `back` (see Findings). The written `back` is `Navigation.StepBackAsWritten`, and `Navigation.BackAgreesOnEntries` proves the two agree whenever the back button is enabled.

## Findings

| source | as written | input that shows it | evidently intended | confidence | as-written member | corrected member |
|---|---|---|---|---|---|---|
| src/renderer/hooks/useNavigation.ts:15 | `back` sets the cursor to `max(0, i - 1)`, so from the initial cursor -1 it moves to 0 on an empty history | `back()` on the initial state, then `navigate(q)`: the history is `[q]` with the cursor at 1, and the current query is `''` instead of `q` | the cursor moves back only from an entry after the first, and otherwise stays, so the next query is shown | low, not executed: the address bar disables the back button while `canGoBack` is false (src/renderer/components/AddressBar.tsx:55) | Navigation.StepBackAsWritten, Navigation.BackFromStartLosesQuery | Navigation.StepBack, Navigation.BackStep, Navigation.History.Back |
