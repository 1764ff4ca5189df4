/**
 * The agent: it connects its MCP clients and gathers their tools, runs the
 * tool-dispatch loop over the chat session until the model answers without
 * tool calls, and releases its clients.
 *
 * The model is a script: the stream of deltas it produces for each turn, one
 * per turn, in order. The agent has no more turns than the script holds.
 */
module Agents {
  import opened Wrappers
  import opened Mcp
  import opened ChatOpenAI

  /** The tool result recorded for a call that no client provides. */
  const ToolNotFound := "Tool not found"

  datatype AgentError =
    | LlmNotInitialized           // the ValueError of an agent whose session was never created
    | ContextNotSupported         // the TypeError raised while seeding a non-empty context
    | ChatFailed(cause: ChatError)
    | ArgumentsNotJson(toolCallId: string)
    | ScriptExhausted             // the model was asked for more turns than the script holds

  /** A call the agent makes on one of its clients' lifecycles. */
  datatype LifecycleEvent = Connected(client: string) | Released(client: string)

  /**
   * What the agent cannot see into: whether a call's argument text parses as
   * JSON, and the serialized result a client returns for a tool call.
   */
  datatype ToolBackend = ToolBackend(parses: string -> bool, call: (McpClient, string, string) -> string)

  /** The first client, in list order, whose tools include one named `name`. */
  function Owner(clients: seq<McpClient>, name: string): (r: Option<nat>)
    ensures r.Some? ==> r.value < |clients| && name in ToolNames(clients[r.value].tools)
    ensures r.Some? ==> forall j :: 0 <= j < r.value ==> name !in ToolNames(clients[j].tools)
    ensures r.None? <==> forall j :: 0 <= j < |clients| ==> name !in ToolNames(clients[j].tools)
  {
    if clients == [] then None
    else if name in ToolNames(clients[0].tools) then Some(0)
    else
      match Owner(clients[1..], name)
      case None => None
      case Some(i) => Some(i + 1)
  }

  /** The search over the clients for the one that provides `name`; the scan stops at the first. */
  method FindClient(clients: seq<McpClient>, name: string) returns (target: Option<nat>)
    ensures target == Owner(clients, name)
  {
    target := None;
    var i := 0;
    while i < |clients|
      invariant 0 <= i <= |clients|
      invariant forall j :: 0 <= j < i ==> name !in ToolNames(clients[j].tools)
    {
      if name in ToolNames(clients[i].tools) {
        target := Some(i);
        break;
      }
      i := i + 1;
    }
  }

  /**
   * The tool result recorded for `call`: the sentinel when no client provides
   * its function, otherwise what the first provider returns, unless the
   * argument text does not parse.
   */
  function ToolResult(clients: seq<McpClient>, backend: ToolBackend, call: ToolCall): (r: Result<string, AgentError>)
    ensures Owner(clients, call.func.name).None? ==> r == Ok(ToolNotFound)
    ensures r.Err? <==> Owner(clients, call.func.name).Some? && !backend.parses(call.func.arguments)
    ensures Owner(clients, call.func.name).Some? && backend.parses(call.func.arguments) ==>
      r == Ok(backend.call(clients[Owner(clients, call.func.name).value], call.func.name, call.func.arguments))
  {
    match Owner(clients, call.func.name)
    case None => Ok(ToolNotFound)
    case Some(i) =>
      if backend.parses(call.func.arguments)
      then Ok(backend.call(clients[i], call.func.name, call.func.arguments))
      else Err(ArgumentsNotJson(call.id))
  }

  /** The tool turns appended while handling a list of calls, and the error that stopped it, if any. */
  datatype Dispatched = Dispatched(results: seq<Message>, failure: Option<AgentError>)

  /** Handling `calls` in list order: one tool turn per call, until a call raises. */
  function Dispatch(clients: seq<McpClient>, backend: ToolBackend, calls: seq<ToolCall>): Dispatched
  {
    if calls == [] then Dispatched([], None)
    else
      var done := Dispatch(clients, backend, calls[..|calls| - 1]);
      var last := calls[|calls| - 1];
      if done.failure.Some? then done
      else
        match ToolResult(clients, backend, last)
        case Err(e) => Dispatched(done.results, Some(e))
        case Ok(text) => Dispatched(done.results + [ToolMessage(last.id, text)], None)
  }

  /**
   * The rest of a run, given the response the last chat turn produced and
   * the log after it: a response without tool calls ends the run with its
   * content; otherwise its calls are handled and the model is asked again
   * with an empty prompt.
   */
  function Continue(clients: seq<McpClient>, backend: ToolBackend, response: ChatResponse,
                    messages: seq<Message>, script: seq<seq<Delta>>): (Result<string, AgentError>, seq<Message>)
    decreases |script|
  {
    if response.toolCalls == [] then (Ok(response.content), messages)
    else
      var d := Dispatch(clients, backend, response.toolCalls);
      var handled := messages + d.results;
      if d.failure.Some? then (Err(d.failure.value), handled)
      else if script == [] then (Err(ScriptExhausted), handled)
      else
        var turn := ChatTurn(handled, "", script[0]);
        match turn.0
        case Err(e) => (Err(ChatFailed(e)), turn.1)
        case Ok(next) => Continue(clients, backend, next, turn.1, script[1..])
  }

  /** A whole run: the first chat turn carries the prompt, the rest are driven by `Continue`. */
  function Run(clients: seq<McpClient>, backend: ToolBackend, messages: seq<Message>, prompt: string,
               script: seq<seq<Delta>>): (Result<string, AgentError>, seq<Message>)
  {
    if script == [] then (Err(ScriptExhausted), messages)
    else
      var turn := ChatTurn(messages, prompt, script[0]);
      match turn.0
      case Err(e) => (Err(ChatFailed(e)), turn.1)
      case Ok(response) => Continue(clients, backend, response, turn.1, script[1..])
  }

  /** The tools of `clients`, each client's list in turn. */
  function AllTools(clients: seq<McpClient>): seq<Tool>
  {
    if clients == [] then [] else AllTools(clients[..|clients| - 1]) + clients[|clients| - 1].tools
  }

  /** The connections made for `clients`, in list order. */
  function ConnectAll(clients: seq<McpClient>): seq<LifecycleEvent>
  {
    if clients == [] then [] else ConnectAll(clients[..|clients| - 1]) + [Connected(clients[|clients| - 1].name)]
  }

  /** The releases made for `clients` when they are popped off the end of the list. */
  function ReleaseAll(clients: seq<McpClient>): seq<LifecycleEvent>
  {
    if clients == [] then [] else ReleaseAll(clients[1..]) + [Released(clients[0].name)]
  }

  class Agent {
    var mcpClients: seq<McpClient>
    var llm: AsyncChatOpenAI?
    const model: string
    const systemPrompt: string
    const context: string
    /** The connect and cleanup calls made on the clients so far, oldest first. */
    ghost var lifecycle: seq<LifecycleEvent>

    constructor (mcpClients: seq<McpClient>, model: string, systemPrompt: string, context: string)
      ensures this.mcpClients == mcpClients && llm == null
      ensures this.model == model && this.systemPrompt == systemPrompt && this.context == context
      ensures lifecycle == []
    {
      this.mcpClients := mcpClients;
      llm := null;
      this.model := model;
      this.systemPrompt := systemPrompt;
      this.context := context;
      lifecycle := [];
    }

    /**
     * Connects every client in list order and gathers their tools, then
     * creates the chat session over them; seeding a non-empty context raises
     * and leaves the session as it was.
     */
    method Create() returns (r: Result<(), AgentError>)
      modifies this`lifecycle, this`llm
      ensures lifecycle == old(lifecycle) + ConnectAll(mcpClients)
      ensures r.Err? <==> context != ""
      ensures r.Err? ==> r.error == ContextNotSupported && llm == old(llm)
      ensures r.Ok? ==> llm != null && fresh(llm)
      ensures r.Ok? ==> llm.model == model && llm.tools == AllTools(mcpClients) && llm.requests == []
      ensures r.Ok? ==> llm.messages == (if systemPrompt == "" then [] else [SystemMessage(systemPrompt)])
    {
      var tools: seq<Tool> := [];
      for i := 0 to |mcpClients|
        invariant tools == AllTools(mcpClients[..i])
        invariant lifecycle == old(lifecycle) + ConnectAll(mcpClients[..i])
        invariant llm == old(llm)
      {
        assert mcpClients[..i + 1][..i] == mcpClients[..i];
        lifecycle := lifecycle + [Connected(mcpClients[i].name)];
        tools := tools + mcpClients[i].tools;
      }
      assert mcpClients[..|mcpClients|] == mcpClients;
      if context != "" {
        return Err(ContextNotSupported);
      }
      llm := new AsyncChatOpenAI(model, [], tools, systemPrompt, context);
      return Ok(());
    }

    /** Pops and releases the clients from the end of the list until none is left. */
    method Cleanup()
      modifies this`mcpClients, this`lifecycle
      ensures mcpClients == []
      ensures lifecycle == old(lifecycle) + ReleaseAll(old(mcpClients))
    {
      while mcpClients != []
        invariant mcpClients == old(mcpClients)[..|mcpClients|]
        invariant lifecycle == old(lifecycle) + ReleaseAll(old(mcpClients)[|mcpClients|..])
        decreases |mcpClients|
      {
        var n := |mcpClients|;
        var client := mcpClients[n - 1];
        assert old(mcpClients)[n - 1..] == [client] + old(mcpClients)[n..];
        mcpClients := mcpClients[..n - 1];
        lifecycle := lifecycle + [Released(client.name)];
      }
    }

    /**
     * Handles the tool calls of one response in list order, appending one
     * tool turn per call; a call whose arguments do not parse raises and ends
     * the handling there.
     */
    method DispatchToolCalls(calls: seq<ToolCall>, backend: ToolBackend) returns (failure: Option<AgentError>)
      requires llm != null
      modifies llm`messages
      ensures llm.messages == old(llm.messages) + Dispatch(mcpClients, backend, calls).results
      ensures failure == Dispatch(mcpClients, backend, calls).failure
    {
      for i := 0 to |calls|
        invariant llm.messages == old(llm.messages) + Dispatch(mcpClients, backend, calls[..i]).results
        invariant Dispatch(mcpClients, backend, calls[..i]).failure.None?
      {
        var call := calls[i];
        assert calls[..i + 1][..i] == calls[..i];
        var target := FindClient(mcpClients, call.func.name);
        if target.Some? {
          if !backend.parses(call.func.arguments) {
            DispatchStaysFailed(mcpClients, backend, calls, i + 1);
            return Some(ArgumentsNotJson(call.id));
          }
          var result := backend.call(mcpClients[target.value], call.func.name, call.func.arguments);
          llm.AppendToolResult(call.id, result);
        } else {
          llm.AppendToolResult(call.id, ToolNotFound);
        }
      }
      assert calls[..|calls|] == calls;
      return None;
    }

    /**
     * Runs the dispatch loop: one chat turn with the prompt, then, while the
     * response has tool calls, handle them and ask again with an empty prompt.
     */
    method Invoke(prompt: string, script: seq<seq<Delta>>, backend: ToolBackend) returns (r: Result<string, AgentError>)
      modifies llm
      ensures llm == null ==> r == Err(LlmNotInitialized)
      ensures llm != null ==> (r, llm.messages) == Run(mcpClients, backend, old(llm.messages), prompt, script)
      ensures llm != null ==> llm.tools == old(llm.tools)
      ensures llm != null ==> |old(llm.requests)| <= |llm.requests|
                              && llm.requests[..|old(llm.requests)|] == old(llm.requests)
      ensures llm != null && script != [] ==>
                var defs := Definitions(llm.tools);
                |old(llm.requests)| < |llm.requests|
                && llm.requests[|old(llm.requests)|]
                   == ChatRequest(old(llm.messages) + UserTurn(prompt), if defs == [] then None else Some(defs))
    {
      if llm == null {
        return Err(LlmNotInitialized);
      }
      if script == [] {
        return Err(ScriptExhausted);
      }
      ghost var defs := Definitions(llm.tools);
      ghost var first := ChatRequest(llm.messages + UserTurn(prompt), if defs == [] then None else Some(defs));
      var chat := llm.Chat(prompt, script[0]);
      if chat.Err? {
        return Err(ChatFailed(chat.error));
      }
      var response := chat.value;
      var next := 1;
      while true
        invariant 1 <= next <= |script|
        invariant llm.tools == old(llm.tools)
        invariant |old(llm.requests)| <= |llm.requests| && llm.requests[..|old(llm.requests)|] == old(llm.requests)
        invariant |old(llm.requests)| < |llm.requests|
        invariant llm.requests[|old(llm.requests)|] == first
        invariant Continue(mcpClients, backend, response, llm.messages, script[next..])
               == Run(mcpClients, backend, old(llm.messages), prompt, script)
        decreases |script| - next
      {
        if response.toolCalls == [] {
          return Ok(response.content);
        }
        var failure := DispatchToolCalls(response.toolCalls, backend);
        if failure.Some? {
          return Err(failure.value);
        }
        if next == |script| {
          return Err(ScriptExhausted);
        }
        chat := llm.Chat("", script[next]);
        if chat.Err? {
          return Err(ChatFailed(chat.error));
        }
        response := chat.value;
        next := next + 1;
      }
    }
  }

  /** Once handling a prefix of the calls raises, handling the whole list raises the same way. */
  lemma {:induction false} DispatchStaysFailed(clients: seq<McpClient>, backend: ToolBackend, calls: seq<ToolCall>, n: nat)
    requires n <= |calls| && Dispatch(clients, backend, calls[..n]).failure.Some?
    ensures Dispatch(clients, backend, calls) == Dispatch(clients, backend, calls[..n])
    decreases |calls|
  {
    if n < |calls| {
      var init := calls[..|calls| - 1];
      assert init[..n] == calls[..n];
      DispatchStaysFailed(clients, backend, init, n);
    } else {
      assert calls[..n] == calls;
    }
  }
}
