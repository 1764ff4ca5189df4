# Agent execution core: streaming accumulator and tool-dispatch loop

This project models, in Dafny, the core of an LLM agent that calls tools exposed by MCP
servers until the model gives a final answer. It has two parts.

- **The chat session** (`AsyncChatOpenAI`, `src/chat_openai.py`). A chat turn appends the
  user prompt (if any) to the message log. It then folds the model's streamed deltas into
  one response. Text pieces are concatenated. Tool-call fragments are merged into a call list
  keyed by their index, with each id, name and argument piece appended, never overwritten.
  The turn then appends exactly one assistant message. The log is append-only. It also holds
  the optional system message seeded at construction and the tool-result messages.
- **The agent** (`Agent`, `src/agent.py`). `create` connects the MCP clients in order and
  gathers their tools. `invoke` runs the dispatch loop. Each tool call of a response is
  routed to the first client that lists a tool of that name. An unknown name is answered
  with `"Tool not found"`. The model is then asked again with an empty prompt, until a
  response has no tool calls, whose content is returned. `cleanup` pops and releases the
  clients from the end of the list.

Files:

- `wrappers.dfy` holds `Option` and `Result`.
- `mcp_client.dfy` reduces an MCP client to its name and the tool descriptors its server lists.
- `chat_openai.dfy` holds the records, the fold `Accumulate` and the loop `AccumulateStream`
  proved equal to it, the spec of one chat turn `ChatTurn`, and the class `AsyncChatOpenAI`.
- `chat_openai_proofs.dfy` states what the fold computes, against reference definitions
  written independently of it.
- `agent.dfy` holds first-match resolution, the dispatch spec (`Dispatch`, `Continue`, `Run`)
  and the class `Agent`, whose methods are proved against those functions.
- `agent_proofs.dfy` holds the lemmas about the dispatch loop and the lifecycle, plus two
  client methods.

The model is driven by a **script**: one stream of deltas per model turn, consumed in order.
What the agent cannot see into is a parameter, `ToolBackend`. It says whether an argument
text parses as JSON, and what serialized result a client returns for a call. Connect and
cleanup calls are recorded in a ghost log, `Agent.lifecycle`. Every request sent to the model
is recorded in a ghost log, `AsyncChatOpenAI.requests`.

Behaviour of the code a reader might not expect, which the model follows:

- A fragment whose index is at least the list's length grows the list by **one** empty entry
  (src/chat_openai.py:91-92). It does not fill the list up to the index. So an index more than
  one past the end hits an IndexError at src/chat_openai.py:93. An accumulator that filled
  the list up to the index would accept indices 2, 0, 1 in that order; this code does not.
  In the model the turn fails with `ToolCallIndexError` (`IndexMayNotSkipAhead`).
- When the stream raises, the user message appended before it stays in the log. Only the
  assistant message is missing (`ChatTurn`).
- When a call's arguments do not parse, the tool results appended for the earlier calls
  of that response stay in the log (`Dispatch`).
- Two clients may list the same tool name. The first in list order wins (`Owner`).

Quirks of the code, and how each is modelled:

- `ToolCall()` is built without its required `id` (src/chat_openai.py:26, 92). A new entry
  starts with id `""`.
- `self.messages.append(0, {...})` (src/chat_openai.py:52) takes two arguments and raises
  TypeError whenever `context` is non-empty. The session constructor requires an empty
  context. `Agent.Create` returns `ContextNotSupported` after connecting the clients, and
  leaves `llm` as it was.
- `Agent.create` passes `tools=` (src/agent.py:38), but the session's field is `tooles`
  (src/chat_openai.py:37). The dataclass would reject the keyword. The model passes the
  gathered tools to the session's tool list, as evidently intended.
- `Agent` calls `call_tool` (src/agent.py:76), but the client defines `call_tools`
  (src/mcp_client.py:44). The model calls the client's tool, as evidently intended.

## Model

| member | source | states |
|---|---|---|
| `ChatOpenAI.MergeFragment` | src/chat_openai.py:90-104 | merging one fragment fails exactly when its index is past the list's length; otherwise the list's length becomes max(old length, index + 1), the entry at the index (a new empty one if just added) has the fragment's id, name and argument pieces appended, and every other entry is unchanged |
| `ChatOpenAI.Accumulate` | src/chat_openai.py:70-104 | the fold over the stream's chunks that the loop is proved against: text pieces concatenated, fragments merged by `MergeFragment` in arrival order, the first IndexError ending it; what it computes is stated by `AccumulateSpec` |
| `ChatOpenAI.AccumulateStream` | src/chat_openai.py:70-104 | the streaming loop, which mutates the call list in place, returns exactly what the fold `Accumulate` computes, including the IndexError |
| `ChatOpenAI.ChatTurn` | src/chat_openai.py:63-124 | one chat turn keeps every earlier message, adds the user message first when the prompt is non-empty, and on success adds exactly one assistant message last, carrying the returned content and tool calls; the log grows by 1 or 2 on success, and by 0 or 1 when the stream raises |
| `ChatOpenAI.Definitions` | src/chat_openai.py:126-137 | one tool definition per tool, in the same order, copying name, description and input schema |
| `ChatOpenAI.AsyncChatOpenAI.constructor` | src/chat_openai.py:44-52 | a non-empty system prompt becomes message 0, in front of the given messages; an empty one adds nothing |
| `ChatOpenAI.AsyncChatOpenAI.Chat` | src/chat_openai.py:54-124 | the log after the turn and the result are those of `ChatTurn`; the request sent carries the whole log, including the new user message, and the tool definitions, or none when there are no tools |
| `ChatOpenAI.AsyncChatOpenAI.AppendToolResult` | src/chat_openai.py:139-146 | appends exactly one tool message with the given call id and content, and changes nothing else |
| `ChatOpenAIProofs.MergeFragmentsJoinsEachIndex` | src/chat_openai.py:89-104 | merging fragments into an empty list succeeds exactly when each index is at most the number of calls seen before it; then there is one entry per index, and entry k is the concatenation, field by field, of the pieces of index k in arrival order |
| `ChatOpenAIProofs.AccumulateIsJoinAndMerge` | src/chat_openai.py:80-104 | accumulating a stream, chunk by chunk, equals joining all text pieces in arrival order and merging all fragments in arrival order |
| `ChatOpenAIProofs.AccumulateSpec` | src/chat_openai.py:70-104 | a stream accumulates exactly when no fragment index skips past the end of the call list; the content is every text piece in arrival order, and call k joins the id, name and argument pieces of index k |
| `ChatOpenAIProofs.ReorderingAcrossIndicesIsHarmless` | src/chat_openai.py:89-104 | reordering fragments of different indices, while keeping each index's own order, leaves the merged calls unchanged |
| `ChatOpenAIProofs.IndexMayNotSkipAhead` | src/chat_openai.py:91-93 | fragments of indices 2, 0, 1 raise an IndexError at the first fragment, against a list of length 1; indices 0, 2, 1 raise it at the fragment of index 2, against a list of length 2 |
| `ChatOpenAIProofs.InterleavedIndicesMerge` | src/chat_openai.py:89-104 | fragments of indices 0, 1, 0 give two calls, the first joining both of its argument pieces |
| `Mcp.ToolNames` | src/agent.py:66-68 | the names of the tools, one per tool and in order |
| `Agents.Owner` | src/agent.py:64-70 | the resolved client is the first, in list order, whose tool names contain the name; there is none exactly when no client lists it |
| `Agents.FindClient` | src/agent.py:64-70 | the search loop with its early exit returns exactly the first matching client given by `Owner` |
| `Agents.ToolResult` | src/agent.py:72-81 | an unresolved call is answered with "Tool not found"; handling a call raises exactly when it resolves and its arguments do not parse; a resolved call with parsable arguments is answered by what the first client providing the tool returns |
| `Agents.Dispatch` | src/agent.py:63-81 | handling a response's calls in list order, one tool message per call, stopping at the first call that raises; stated by `DispatchAnswersEachCall` |
| `Agents.Continue` | src/agent.py:58-85 | the loop after the first chat turn: a response without calls returns its content, otherwise its calls are handled and the model is asked again with an empty prompt; stated by `ContinueTranscript` |
| `Agents.Run` | src/agent.py:56-85 | a whole run: the first chat turn carries the prompt, the rest is `Continue`; stated by `RunTranscript` |
| `Agents.Agent.constructor` | src/agent.py:21-27 | a new agent holds the given clients and no chat session |
| `Agents.Agent.Create` | src/agent.py:29-41 | connects every client once, in list order; the session's tool list is the clients' tool lists concatenated in order; a non-empty system prompt is the session's only message; a non-empty context raises and leaves the session unset |
| `Agents.Agent.Cleanup` | src/agent.py:43-47 | leaves no client, and releases every client, the last one first |
| `Agents.Agent.DispatchToolCalls` | src/agent.py:63-81 | appends to the log exactly the tool messages of `Dispatch` over the response's calls, and raises exactly when it does |
| `Agents.Agent.Invoke` | src/agent.py:49-85 | without a session it raises ValueError; otherwise the result and the final log are those of `Run` over the clients, the prompt and the scripted model turns; the session's tool list is unchanged and earlier requests are kept; the first request the run sends carries the log with the prompt's user message and the session's tool definitions, or none when there are no tools |
| `AgentProofs.DispatchAnswersEachCall` | src/agent.py:63-81 | handling a response's calls appends one tool message per call, in list order, keyed by its call's id and carrying that call's result; it covers every call unless one raises, and then stops at exactly that call |
| `AgentProofs.UnknownToolIsAnswered` | src/agent.py:79-81 | a call no client provides adds exactly one tool message, "Tool not found" keyed by its id, and handling goes on |
| `AgentProofs.ContinueTranscript` | src/agent.py:58-85 | after the first turn, the loop only appends, never appends a user message, and, when it returns, returns the content of the final assistant message, which has no tool calls |
| `AgentProofs.RunTranscript` | src/agent.py:52-85 | a whole run keeps every earlier message; the prompt's user message is the first one appended and no user message follows it; an answer is the content of the final assistant message |
| `AgentProofs.AnswerWithoutToolCallsEndsTheRun` | src/agent.py:56-85 | a first response without tool calls ends the run at once, returning its content unchanged, with only the user and assistant messages appended |
| `AgentProofs.GatheredIffProvided` | src/agent.py:31-34 | a name is among the tools gathered at creation exactly when some client provides it |
| `AgentProofs.ResolvableIffAdvertised` | src/agent.py:31-81 | a call resolves to a client exactly when the model was given a tool definition of that name, so the sentinel answers exactly the names the model was never told of |
| `AgentProofs.ConnectAllInOrder` | src/agent.py:31-34 | creation makes one connection per client, in list order |
| `AgentProofs.ReleaseAllReversed` | src/agent.py:45-47 | cleanup makes one release per client, in reverse list order |
| `AgentProofs.CleanupTwice` | src/agent.py:43-47 | a second cleanup releases nothing more |
| `AgentProofs.CalculatorExchange` | src/agent.py:52-85 | a run in which the model calls a calculator tool and then answers returns the answer; the log holds the question, the call, its result "4" and the answer, in that order |

## Left out

- The OpenAI client, its streaming transport and its errors (src/chat_openai.py:45-48, 73-80) are not modelled. Each model turn is given as its stream of deltas.
- Async/await, console logging, `print_llm_output` printing, `.env` loading and both `test()` entry points are left out. None of them changes the log or a result.
- The MCP side (src/mcp_client.py) is reduced to a client's name and the tools its server lists. That covers spawning the subprocess, the handshake, `AsyncExitStack` and the session. Connecting is assumed to succeed, so a connection error is not modelled. Cleanup never fails, because `MCPClient.cleanup` swallows its exceptions.
- `json.loads` on the arguments and `model_dump_json` on the result are opaque: `ToolBackend.parses` and `ToolBackend.call`. A failing tool call inside the MCP session is not modelled; a call always yields a result text.
- Agents.Agent.Invoke: the source's loop is unbounded. The model has only as many turns as the script holds, and asking for one more returns `ScriptExhausted`. When the script is empty from the start, no user message is appended, whereas the source would append it before blocking on the model.
- A stream delta's absent field and its empty string are the same in the model. The source guards each append with a truthiness test, and appending an empty string changes nothing.
- Tool-call indices are natural numbers. The API never sends a negative index, so Python's negative indexing is not modelled.
- The `"type": "function"` tag of each tool call in the assistant message, and of each tool definition, is a constant and is not stored.
- Each new `ToolCall` gets its own `ToolCallFunction` (pydantic copies the default), so entries never share state. The model uses values.
