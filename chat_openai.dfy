/**
 * The streaming chat session of the agent: the records a streamed completion is
 * merged into, the fold that merges the stream, and the `AsyncChatOpenAI`
 * object whose message log every turn appends to.
 *
 * The OpenAI client and its transport are not modelled: one chat turn is given
 * the stream of deltas the model produced for it.
 */
module ChatOpenAI {
  import opened Wrappers
  import opened Mcp

  datatype ToolCallFunction = ToolCallFunction(name: string, arguments: string)

  datatype ToolCall = ToolCall(id: string, func: ToolCallFunction)

  /** The entry appended when a new tool-call index is seen: every field empty. */
  const NewToolCall := ToolCall("", ToolCallFunction("", ""))

  datatype ChatResponse = ChatResponse(content: string, toolCalls: seq<ToolCall>)

  /**
   * One tool-call fragment of a stream chunk. An absent field and an empty one
   * are treated alike by the merge, so both are written "".
   */
  datatype ToolCallDelta = ToolCallDelta(index: nat, id: string, name: string, arguments: string)

  /** The delta of one stream chunk: a text piece ("" if none) and its tool-call fragments. */
  datatype Delta = Delta(content: string, toolCalls: seq<ToolCallDelta>)

  /** The IndexError raised when a fragment's index lies past the end of the call list. */
  datatype ChatError = ToolCallIndexError(index: nat, length: nat)

  /** One entry of the conversation log, tagged by its role. */
  datatype Message =
    | SystemMessage(content: string)
    | UserMessage(content: string)
    | AssistantMessage(content: string, toolCalls: seq<ToolCall>)
    | ToolMessage(toolCallId: string, content: string)

  /** A tool as advertised to the model (a tool parameter of type "function"). */
  datatype FunctionDefinition = FunctionDefinition(name: string, description: string, parameters: string)

  /** What one chat turn sends to the model: the whole log, and the tools or nothing. */
  datatype ChatRequest = ChatRequest(messages: seq<Message>, tools: Option<seq<FunctionDefinition>>)

  function Max(a: nat, b: nat): nat { if a < b then b else a }

  /** Appends each piece of the fragment `d` to the partial call `c`. */
  function Extend(c: ToolCall, d: ToolCallDelta): ToolCall {
    ToolCall(c.id + d.id, ToolCallFunction(c.func.name + d.name, c.func.arguments + d.arguments))
  }

  /**
   * Merges one fragment into the call list: the list grows by one empty entry
   * when it is no longer than the fragment's index, then the entry at the
   * index is extended, and an index past the (grown) end is an IndexError.
   */
  function MergeFragment(calls: seq<ToolCall>, d: ToolCallDelta): (r: Result<seq<ToolCall>, ChatError>)
    ensures r.Err? <==> d.index > |calls|
    ensures r.Err? ==> r.error == ToolCallIndexError(d.index, |calls| + 1)
    ensures r.Ok? ==> |r.value| == Max(|calls|, d.index + 1)
    ensures r.Ok? ==> r.value[d.index] == Extend(if d.index < |calls| then calls[d.index] else NewToolCall, d)
    ensures r.Ok? ==> forall k :: 0 <= k < |calls| && k != d.index ==> r.value[k] == calls[k]
  {
    var grown := if |calls| <= d.index then calls + [NewToolCall] else calls;
    if d.index < |grown| then Ok(grown[d.index := Extend(grown[d.index], d)])
    else Err(ToolCallIndexError(d.index, |grown|))
  }

  /** Merges the fragments `frags`, in order, into `calls`; the first IndexError stops the merge. */
  function MergeFragments(calls: seq<ToolCall>, frags: seq<ToolCallDelta>): Result<seq<ToolCall>, ChatError>
  {
    if frags == [] then Ok(calls)
    else
      match MergeFragments(calls, frags[..|frags| - 1])
      case Err(e) => Err(e)
      case Ok(merged) => MergeFragment(merged, frags[|frags| - 1])
  }

  /** Folds one chunk into the response accumulated so far. */
  function AddDelta(acc: ChatResponse, d: Delta): Result<ChatResponse, ChatError>
  {
    var content := if d.content != "" then acc.content + d.content else acc.content;
    match MergeFragments(acc.toolCalls, d.toolCalls)
    case Err(e) => Err(e)
    case Ok(calls) => Ok(ChatResponse(content, calls))
  }

  /** The response a whole stream accumulates to, or the IndexError that stops it. */
  function Accumulate(stream: seq<Delta>): Result<ChatResponse, ChatError>
  {
    if stream == [] then Ok(ChatResponse("", []))
    else
      match Accumulate(stream[..|stream| - 1])
      case Err(e) => Err(e)
      case Ok(acc) => AddDelta(acc, stream[|stream| - 1])
  }

  /**
   * The streaming loop of a chat turn: text pieces are concatenated, and each
   * fragment grows the call list by at most one entry and then appends its
   * pieces to the entry at its index.
   */
  method AccumulateStream(stream: seq<Delta>) returns (r: Result<ChatResponse, ChatError>)
    ensures r == Accumulate(stream)
  {
    var content := "";
    var toolCalls: seq<ToolCall> := [];
    for i := 0 to |stream|
      invariant Accumulate(stream[..i]) == Ok(ChatResponse(content, toolCalls))
    {
      var delta := stream[i];
      assert stream[..i + 1][..i] == stream[..i];
      if delta.content != "" {
        content := content + delta.content;
      }
      ghost var before := toolCalls;
      for j := 0 to |delta.toolCalls|
        invariant MergeFragments(before, delta.toolCalls[..j]) == Ok(toolCalls)
      {
        var fragment := delta.toolCalls[j];
        assert delta.toolCalls[..j + 1][..j] == delta.toolCalls[..j];
        ghost var merged := toolCalls;
        if |toolCalls| <= fragment.index {
          toolCalls := toolCalls + [NewToolCall];
        }
        if fragment.index >= |toolCalls| {
          assert delta.toolCalls[..|delta.toolCalls|] == delta.toolCalls;
          MergeFragmentsStaysFailed(before, delta.toolCalls, j + 1);
          AccumulateStaysFailed(stream, i + 1);
          return Err(ToolCallIndexError(fragment.index, |toolCalls|));
        }
        var call := toolCalls[fragment.index];
        ghost var entry := call;
        if fragment.id != "" {
          call := call.(id := call.id + fragment.id);
        }
        if fragment.name != "" {
          call := call.(func := call.func.(name := call.func.name + fragment.name));
        }
        if fragment.arguments != "" {
          call := call.(func := call.func.(arguments := call.func.arguments + fragment.arguments));
        }
        assert call == Extend(entry, fragment);
        toolCalls := toolCalls[fragment.index := call];
        assert MergeFragment(merged, fragment) == Ok(toolCalls);
      }
      assert delta.toolCalls[..|delta.toolCalls|] == delta.toolCalls;
    }
    assert stream[..|stream|] == stream;
    return Ok(ChatResponse(content, toolCalls));
  }

  /** Once a prefix of the fragments fails to merge, the whole list fails the same way. */
  lemma {:induction false} MergeFragmentsStaysFailed(calls: seq<ToolCall>, frags: seq<ToolCallDelta>, n: nat)
    requires n <= |frags| && MergeFragments(calls, frags[..n]).Err?
    ensures MergeFragments(calls, frags) == MergeFragments(calls, frags[..n])
    decreases |frags|
  {
    if n < |frags| {
      var init := frags[..|frags| - 1];
      assert init[..n] == frags[..n];
      MergeFragmentsStaysFailed(calls, init, n);
    } else {
      assert frags[..n] == frags;
    }
  }

  /** Once a prefix of the stream fails, the whole stream fails the same way. */
  lemma {:induction false} AccumulateStaysFailed(stream: seq<Delta>, n: nat)
    requires n <= |stream| && Accumulate(stream[..n]).Err?
    ensures Accumulate(stream) == Accumulate(stream[..n])
    decreases |stream|
  {
    if n < |stream| {
      var init := stream[..|stream| - 1];
      assert init[..n] == stream[..n];
      AccumulateStaysFailed(init, n);
    } else {
      assert stream[..n] == stream;
    }
  }

  /** The user turn a non-empty prompt adds to the log. */
  function UserTurn(prompt: string): seq<Message> {
    if prompt == "" then [] else [UserMessage(prompt)]
  }

  /** The tool definitions the model is given for `tools`, one per tool and in order. */
  function Definitions(tools: seq<Tool>): (defs: seq<FunctionDefinition>)
    ensures |defs| == |tools|
    ensures forall i :: 0 <= i < |tools| ==>
      defs[i] == FunctionDefinition(tools[i].name, tools[i].description, tools[i].inputSchema)
  {
    if tools == [] then []
    else [FunctionDefinition(tools[0].name, tools[0].description, tools[0].inputSchema)] + Definitions(tools[1..])
  }

  /**
   * One chat turn on the log `messages`: the user turn (if any) is appended,
   * then the stream is accumulated; a stream that raises leaves the user turn
   * in place and adds no assistant turn, one that completes adds exactly one.
   */
  function ChatTurn(messages: seq<Message>, prompt: string, stream: seq<Delta>)
    : (t: (Result<ChatResponse, ChatError>, seq<Message>))
    ensures t.0 == Accumulate(stream)
    ensures |t.1| == |messages| + |UserTurn(prompt)| + (if t.0.Ok? then 1 else 0)
    ensures t.1[..|messages|] == messages
    ensures prompt != "" ==> t.1[|messages|] == UserMessage(prompt)
    ensures t.0.Ok? ==> t.1[|t.1| - 1] == AssistantMessage(t.0.value.content, t.0.value.toolCalls)
  {
    var asked := messages + UserTurn(prompt);
    match Accumulate(stream)
    case Err(e) => (Err(e), asked)
    case Ok(r) => (Ok(r), asked + [AssistantMessage(r.content, r.toolCalls)])
  }

  /** The chat session: its message log and the tools it advertises to the model. */
  class AsyncChatOpenAI {
    const model: string
    var messages: seq<Message>
    var tools: seq<Tool>
    const systemPrompt: string
    const context: string
    /** Every request sent to the model so far, oldest first. */
    ghost var requests: seq<ChatRequest>

    /** Seeds the log: a non-empty system prompt is inserted in front of the given messages. */
    constructor (model: string, messages: seq<Message>, tools: seq<Tool>, systemPrompt: string, context: string)
      requires context == ""
      ensures this.model == model && this.tools == tools
      ensures this.systemPrompt == systemPrompt && this.context == context
      ensures systemPrompt != "" ==> this.messages == [SystemMessage(systemPrompt)] + messages
      ensures systemPrompt == "" ==> this.messages == messages
      ensures requests == []
    {
      this.model := model;
      this.tools := tools;
      this.systemPrompt := systemPrompt;
      this.context := context;
      this.messages := messages;
      requests := [];
      if systemPrompt != "" {
        this.messages := [SystemMessage(systemPrompt)] + this.messages;
      }
    }

    /**
     * One chat turn: appends the user turn, sends the whole log, merges the
     * streamed reply and appends it as one assistant turn.
     */
    method Chat(prompt: string, stream: seq<Delta>) returns (r: Result<ChatResponse, ChatError>)
      modifies this`messages, this`requests
      ensures (r, messages) == ChatTurn(old(messages), prompt, stream)
      ensures var defs := Definitions(tools);
        requests == old(requests) + [ChatRequest(old(messages) + UserTurn(prompt), if defs == [] then None else Some(defs))]
    {
      if prompt != "" {
        messages := messages + [UserMessage(prompt)];
      }
      assert messages == old(messages) + UserTurn(prompt);
      var defs := Definitions(tools);
      requests := requests + [ChatRequest(messages, if defs == [] then None else Some(defs))];
      r := AccumulateStream(stream);
      if r.Ok? {
        messages := messages + [AssistantMessage(r.value.content, r.value.toolCalls)];
      }
    }

    /** Appends the result of one tool call as a tool turn. */
    method AppendToolResult(toolCallId: string, toolResult: string)
      modifies this`messages
      ensures messages == old(messages) + [ToolMessage(toolCallId, toolResult)]
    {
      messages := messages + [ToolMessage(toolCallId, toolResult)];
    }
  }
}
