/**
 * Properties of the agent's dispatch loop and lifecycle: each tool call is
 * answered by exactly one tool turn, in list order; the log only grows; only
 * the first turn adds a user turn; a run that returns returns the content of
 * the assistant turn that ends the log; a name resolves exactly when the model
 * was told of a tool by that name; clients are released in reverse order.
 */
module AgentProofs {
  import opened Wrappers
  import opened Mcp
  import opened ChatOpenAI
  import opened Agents

  /**
   * Handling a list of calls answers a prefix of it, one tool turn per call
   * and in list order, each keyed by its call's id: the whole list when
   * nothing raises, and otherwise up to the call whose arguments do not parse,
   * which is what stops it.
   */
  lemma {:induction false} DispatchAnswersEachCall(clients: seq<McpClient>, backend: ToolBackend, calls: seq<ToolCall>)
    ensures var d := Dispatch(clients, backend, calls);
      && |d.results| <= |calls|
      && (d.failure.None? <==> |d.results| == |calls|)
      && (forall k :: 0 <= k < |d.results| ==>
            ToolResult(clients, backend, calls[k]).Ok?
            && d.results[k] == ToolMessage(calls[k].id, ToolResult(clients, backend, calls[k]).value))
      && (d.failure.Some? ==> ToolResult(clients, backend, calls[|d.results|]) == Err(d.failure.value))
    decreases |calls|
  {
    if calls != [] {
      var init := calls[..|calls| - 1];
      DispatchAnswersEachCall(clients, backend, init);
      forall k | 0 <= k < |init| ensures calls[k] == init[k] { }
    }
  }

  /** A call that no client provides is answered with the sentinel and never stops the handling. */
  lemma UnknownToolIsAnswered(clients: seq<McpClient>, backend: ToolBackend, calls: seq<ToolCall>, k: nat)
    requires k < |calls| && Owner(clients, calls[k].func.name).None?
    requires Dispatch(clients, backend, calls[..k]).failure.None?
    ensures var d := Dispatch(clients, backend, calls[..k + 1]);
      d.failure.None? && d.results == Dispatch(clients, backend, calls[..k]).results + [ToolMessage(calls[k].id, ToolNotFound)]
  {
    assert calls[..k + 1][..k] == calls[..k];
  }

  /**
   * From a response whose assistant turn ends the log, the rest of the run
   * only appends, appends no user turn, and, when it returns, returns the
   * content of an assistant turn without tool calls that ends the log.
   */
  lemma {:induction false} ContinueTranscript(clients: seq<McpClient>, backend: ToolBackend, response: ChatResponse,
                                              messages: seq<Message>, script: seq<seq<Delta>>)
    requires |messages| > 0 && messages[|messages| - 1] == AssistantMessage(response.content, response.toolCalls)
    ensures var t := Continue(clients, backend, response, messages, script);
      && |messages| <= |t.1| && t.1[..|messages|] == messages
      && (forall k :: |messages| <= k < |t.1| ==> !t.1[k].UserMessage?)
      && (t.0.Ok? ==> t.1[|t.1| - 1] == AssistantMessage(t.0.value, []))
    decreases |script|
  {
    if response.toolCalls != [] {
      var d := Dispatch(clients, backend, response.toolCalls);
      DispatchAnswersEachCall(clients, backend, response.toolCalls);
      var handled := messages + d.results;
      assert forall k :: |messages| <= k < |handled| ==> handled[k].ToolMessage?;
      if d.failure.None? && script != [] {
        var turn := ChatTurn(handled, "", script[0]);
        if turn.0.Ok? {
          ContinueTranscript(clients, backend, turn.0.value, turn.1, script[1..]);
          var t := Continue(clients, backend, turn.0.value, turn.1, script[1..]);
          assert t.1[..|turn.1|] == turn.1;
          assert turn.1[..|handled|] == handled;
          assert t.1[..|handled|] == handled;
          forall k | |messages| <= k < |t.1| ensures !t.1[k].UserMessage? {
            if k < |handled| {
              assert t.1[k] == handled[k];
            } else if k < |turn.1| {
              assert t.1[k] == turn.1[k];
            }
          }
        }
      }
    }
  }

  /**
   * A run only appends to the log; the prompt's user turn, if any, is the
   * first thing it appends and no other user turn follows; and a run that
   * returns an answer returns the content of the final assistant turn, which
   * carries no tool calls.
   */
  lemma RunTranscript(clients: seq<McpClient>, backend: ToolBackend, messages: seq<Message>, prompt: string,
                      script: seq<seq<Delta>>)
    ensures var t := Run(clients, backend, messages, prompt, script);
      && |messages| <= |t.1| && t.1[..|messages|] == messages
      && (script != [] && prompt != "" ==> |messages| < |t.1| && t.1[|messages|] == UserMessage(prompt))
      && (forall k :: |messages| + |UserTurn(prompt)| <= k < |t.1| ==> !t.1[k].UserMessage?)
      && (t.0.Ok? ==> |t.1| > 0 && t.1[|t.1| - 1] == AssistantMessage(t.0.value, []))
  {
    if script != [] {
      var turn := ChatTurn(messages, prompt, script[0]);
      if turn.0.Ok? {
        ContinueTranscript(clients, backend, turn.0.value, turn.1, script[1..]);
        var t := Continue(clients, backend, turn.0.value, turn.1, script[1..]);
        assert t.1[..|turn.1|] == turn.1;
        assert turn.1[..|messages|] == messages;
        assert t.1[..|messages|] == messages;
        assert prompt != "" ==> t.1[|messages|] == turn.1[|messages|];
        forall k | |messages| + |UserTurn(prompt)| <= k < |t.1| ensures !t.1[k].UserMessage? {
          if k < |turn.1| {
            assert t.1[k] == turn.1[k];
          }
        }
      }
    }
  }

  /** A first response without tool calls ends the run at once with its content unchanged. */
  lemma AnswerWithoutToolCallsEndsTheRun(clients: seq<McpClient>, backend: ToolBackend, messages: seq<Message>,
                                         prompt: string, script: seq<seq<Delta>>)
    requires script != [] && Accumulate(script[0]).Ok? && Accumulate(script[0]).value.toolCalls == []
    ensures Run(clients, backend, messages, prompt, script)
         == (Ok(Accumulate(script[0]).value.content),
             messages + UserTurn(prompt) + [AssistantMessage(Accumulate(script[0]).value.content, [])])
  {
  }

  lemma {:induction false} ToolNamesAppend(a: seq<Tool>, b: seq<Tool>, name: string)
    ensures name in ToolNames(a + b) <==> name in ToolNames(a) || name in ToolNames(b)
  {
    var ab := a + b;
    if name in ToolNames(ab) {
      var i :| 0 <= i < |ab| && ToolNames(ab)[i] == name;
      if i < |a| {
        assert ToolNames(a)[i] == name;
      } else {
        assert ToolNames(b)[i - |a|] == name;
      }
    }
    if name in ToolNames(a) {
      var i :| 0 <= i < |a| && ToolNames(a)[i] == name;
      assert ToolNames(ab)[i] == name;
    }
    if name in ToolNames(b) {
      var i :| 0 <= i < |b| && ToolNames(b)[i] == name;
      assert ToolNames(ab)[|a| + i] == name;
    }
  }

  /** A name is among the gathered tools exactly when some client provides it. */
  lemma {:induction false} GatheredIffProvided(clients: seq<McpClient>, name: string)
    ensures name in ToolNames(AllTools(clients)) <==> Owner(clients, name).Some?
    decreases |clients|
  {
    if clients != [] {
      var init, last := clients[..|clients| - 1], clients[|clients| - 1];
      GatheredIffProvided(init, name);
      ToolNamesAppend(AllTools(init), last.tools, name);
      assert forall j :: 0 <= j < |init| ==> init[j] == clients[j];
      if name in ToolNames(last.tools) {
        assert name in ToolNames(clients[|clients| - 1].tools);
      }
      if Owner(init, name).Some? {
        var j := Owner(init, name).value;
        assert name in ToolNames(clients[j].tools);
      }
      if Owner(clients, name).Some? {
        var j := Owner(clients, name).value;
        if j < |init| {
          assert name in ToolNames(init[j].tools);
        }
      }
    }
  }

  /**
   * A tool call resolves to some client exactly when the list of definitions
   * the model is given has a tool of that name: the sentinel answers exactly
   * the names the model was never told of.
   */
  lemma ResolvableIffAdvertised(clients: seq<McpClient>, name: string)
    ensures Owner(clients, name).Some? <==>
      exists i :: 0 <= i < |AllTools(clients)| && Definitions(AllTools(clients))[i].name == name
  {
    GatheredIffProvided(clients, name);
    var tools := AllTools(clients);
    if name in ToolNames(tools) {
      var i :| 0 <= i < |tools| && ToolNames(tools)[i] == name;
      assert Definitions(tools)[i].name == name;
    }
    if exists i :: 0 <= i < |tools| && Definitions(tools)[i].name == name {
      var i :| 0 <= i < |tools| && Definitions(tools)[i].name == name;
      assert ToolNames(tools)[i] == name;
    }
  }

  /** Creation connects the clients one after another, in list order. */
  lemma {:induction false} ConnectAllInOrder(clients: seq<McpClient>)
    ensures |ConnectAll(clients)| == |clients|
    ensures forall k :: 0 <= k < |clients| ==> ConnectAll(clients)[k] == Connected(clients[k].name)
    decreases |clients|
  {
    if clients != [] {
      var init := clients[..|clients| - 1];
      ConnectAllInOrder(init);
      forall k | 0 <= k < |init| ensures init[k] == clients[k] { }
    }
  }

  /** Cleanup releases the clients in reverse list order: the last one first. */
  lemma {:induction false} ReleaseAllReversed(clients: seq<McpClient>)
    ensures |ReleaseAll(clients)| == |clients|
    ensures forall k :: 0 <= k < |clients| ==> ReleaseAll(clients)[k] == Released(clients[|clients| - 1 - k].name)
    decreases |clients|
  {
    if clients != [] {
      ReleaseAllReversed(clients[1..]);
    }
  }

  /** A second cleanup finds no client left, so it releases nothing more. */
  method CleanupTwice(agent: Agent)
    modifies agent
    ensures agent.mcpClients == []
    ensures agent.lifecycle == old(agent.lifecycle) + ReleaseAll(old(agent.mcpClients))
  {
    agent.Cleanup();
    agent.Cleanup();
  }

  /**
   * One run with a calculator tool: the model first calls the tool, which the
   * "math" client provides, and then answers; the log records the question,
   * the call, its result and the answer.
   */
  method CalculatorExchange() returns (answer: Result<string, AgentError>, log: seq<Message>)
    ensures answer == Ok("The answer is 4")
    ensures log == [UserMessage("what is 2+2"),
                    AssistantMessage("", [ToolCall("call_1", ToolCallFunction("calculator", "{\"a\":2,\"b\":2}"))]),
                    ToolMessage("call_1", "4"),
                    AssistantMessage("The answer is 4", [])]
  {
    var math := McpClient("math", [Tool("calculator", "adds two numbers", "{}")]);
    var agent := new Agent([math], "model", "", "");
    var created := agent.Create();
    var args := "{\"a\":2,\"b\":2}";
    var backend := ToolBackend(text => text == args, (client: McpClient, tool, text) => if tool == "calculator" then "4" else "");
    var call := ToolCallDelta(0, "call_1", "calculator", args);
    var script := [[Delta("", [call])], [Delta("The answer is 4", [])]];
    var first := ChatResponse("", [ToolCall("call_1", ToolCallFunction("calculator", args))]);
    assert [call][..0] == [] && [Delta("", [call])][..0] == [] && [Delta("The answer is 4", [])][..0] == [];
    assert Extend(NewToolCall, call) == first.toolCalls[0];
    assert MergeFragment([], call).value == first.toolCalls;
    assert MergeFragments([], [call]) == Ok(first.toolCalls);
    assert AddDelta(ChatResponse("", []), Delta("", [call])) == Ok(first);
    assert Accumulate(script[0]) == Ok(first);
    assert "" + "The answer is 4" == "The answer is 4";
    assert AddDelta(ChatResponse("", []), Delta("The answer is 4", [])) == Ok(ChatResponse("The answer is 4", []));
    assert Accumulate(script[1]) == Ok(ChatResponse("The answer is 4", []));
    assert "calculator" in ToolNames(math.tools);
    assert Owner([math], "calculator") == Some(0);
    assert [first.toolCalls[0]][..0] == [];
    assert Dispatch([math], backend, first.toolCalls) == Dispatched([ToolMessage("call_1", "4")], None);
    var asked := [UserMessage("what is 2+2"), AssistantMessage("", first.toolCalls)];
    assert UserTurn("what is 2+2") == [UserMessage("what is 2+2")];
    assert [] + UserTurn("what is 2+2") + [AssistantMessage("", first.toolCalls)] == asked;
    assert ChatTurn([], "what is 2+2", script[0]) == (Ok(first), asked);
    var answered := asked + [ToolMessage("call_1", "4")];
    var final := ChatResponse("The answer is 4", []);
    assert script[1..][0] == script[1];
    assert ChatTurn(answered, "", script[1]) == (Ok(final), answered + [AssistantMessage("The answer is 4", [])]);
    assert Continue([math], backend, first, asked, script[1..])
        == (Ok("The answer is 4"), answered + [AssistantMessage("The answer is 4", [])]);
    assert Run([math], backend, [], "what is 2+2", script)
        == (Ok("The answer is 4"), answered + [AssistantMessage("The answer is 4", [])]);
    answer := agent.Invoke("what is 2+2", script, backend);
    log := agent.llm.messages;
  }
}
