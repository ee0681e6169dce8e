/** Properties of the Gemini service model: the shape of the converted
    history, the reply built around a tool call, and how many tool calls
    one query makes. */
module GeminiProperties {

  import opened Wrappers
  import opened Text
  import opened Messages
  import opened ToolCall
  import opened Collaborators
  import opened Gemini

  /** The converted history is the preamble (two turns for a non-empty
      system text, none otherwise) followed by one turn per entry, in order:
      "assistant" becomes "model", other roles are kept, and the content is
      a string as it is or a list's block texts joined by newlines. */
  lemma {:induction false} ConvertedShape(messages: seq<Entry>, system: string, render: Block -> string)
    ensures var c := Converted(messages, system, render);
            var off := if system != "" then 2 else 0;
            && |c| == |messages| + off
            && c[..off] == Preamble(system)
            && forall i :: 0 <= i < |messages| ==>
                 && c[off + i].role == (if messages[i].role == "assistant" then "model" else messages[i].role)
                 && c[off + i].parts == [WireText(messages[i].content, render)]
  {
    if messages != [] {
      var init := messages[..|messages| - 1];
      ConvertedShape(init, system, render);
      assert forall i :: 0 <= i < |init| ==> init[i] == messages[i];
    }
  }

  /** For blocks that all carry text, flattening for the wire gives what
      `text_from_message` gives. */
  lemma WireTextOfTextBlocks(blocks: seq<Block>, render: Block -> string, role: string, stop: Option<string>)
    requires forall k :: 0 <= k < |blocks| ==> blocks[k].TextBlock?
    ensures WireText(Blocks(blocks), render) == TextFromMessage(Message(blocks, role, stop))
  {
    TextsAreTextBlocks(blocks);
    assert BlockTexts(blocks, render) == Texts(blocks);
  }

  /** A one-block reply reads back as its text. */
  lemma TextReplyText(t: string)
    ensures TextFromMessage(TextReply(t)) == t
    ensures TextReply(t).stopReason.None? && TextReply(t).role == "assistant"
  {
    WrappedText(t, "assistant", None, "", "", map[]);
  }

  /** Without a valid call in the answer (no marker, an empty name, no
      tools) `chat` replies with the answer text itself, one block and no
      stop reason, and calls no tool. */
  lemma ChatWithoutCall(text: string, tools: seq<Tool>, log: seq<Invocation>,
                        behaviour: (seq<Invocation>, Invocation) -> CallOutcome,
                        hash: map<string, string> -> string)
    requires Decide(text, tools) == NoCall
    ensures var out := ChatAfterReply(text, tools, log, behaviour, hash);
            && out.0.Success? && out.0.value.content == [TextBlock(text)] && out.0.value.stopReason.None?
            && out.1 == log
  {
  }


  /** For a name no tool has, `chat` replies with one text block that names
      it, with no stop reason, and calls no tool. */
  lemma ChatWithMissingTool(text: string, tools: seq<Tool>, n: string, log: seq<Invocation>,
                            behaviour: (seq<Invocation>, Invocation) -> CallOutcome,
                            hash: map<string, string> -> string)
    requires Decide(text, tools) == Missing(n)
    ensures var out := ChatAfterReply(text, tools, log, behaviour, hash);
            && out.0.Success? && out.0.value.stopReason.None? && |out.0.value.content| == 1
            && out.0.value.content[0].TextBlock?
            && |out.0.value.content[0].text| >= 33 + |n|
            && out.0.value.content[0].text[33..33 + |n|] == n
            && out.1 == log
  {
    NotFoundTextNames(n);
  }


  /** The not-found text holds the name right after its 33-character lead. */
  lemma NotFoundTextNames(n: string)
    ensures |NotFoundText(n)| >= 33 + |n| && NotFoundText(n)[33..33 + |n|] == n
  {
    var pre := "Sorry, I couldn't find the tool '";
    var post := "' that I tried to use. Let me provide a direct answer instead.";
    assert |pre| == 33;
    Infix(pre, n, post);
  }

  lemma Infix(a: string, b: string, c: string)
    ensures (a + b + c)[|a|..|a| + |b|] == b
  {
  }

  /** For a found tool `chat` makes exactly one call, with the parsed name
      and parameters; when it returns, the reply stops with `tool_use` and
      holds exactly two blocks: the request, with the same name and
      parameters, and the result text showing the result. */
  lemma ChatWithFoundTool(text: string, tools: seq<Tool>, c: Call, log: seq<Invocation>,
                          behaviour: (seq<Invocation>, Invocation) -> CallOutcome,
                          hash: map<string, string> -> string)
    requires Decide(text, tools) == Invoke(c)
    ensures var inv := Invocation(c.name, c.params);
            var out := ChatAfterReply(text, tools, log, behaviour, hash);
            && out.1 == log + [inv]
            && (behaviour(log, inv).Returned? ==>
                  var shown := behaviour(log, inv).result.shown;
                  && out.0.Success? && out.0.value.stopReason == Some(ToolUse) && |out.0.value.content| == 2
                  && out.0.value.content[0].ToolUseBlock?
                  && out.0.value.content[0].name == c.name && out.0.value.content[0].input == c.params
                  && out.0.value.content[1].TextBlock?
                  && |out.0.value.content[1].text| >= 13 + |shown|
                  && out.0.value.content[1].text[13..13 + |shown|] == shown)
            && (behaviour(log, inv).Raised? ==>
                  if behaviour(log, inv).error.jsonDecode then out.0 == Success(TextReply(ToolErrorText))
                  else out.0 == Failure(behaviour(log, inv).error))
  {
    var inv := Invocation(c.name, c.params);
    if behaviour(log, inv).Returned? {
      ToolResultTextShows(behaviour(log, inv).result);
    }
  }

  /** The result text shows the result right after its 13-character lead. */
  lemma ToolResultTextShows(res: ToolResult)
    ensures |ToolResultText(res)| >= 13 + |res.shown| && ToolResultText(res)[13..13 + |res.shown|] == res.shown
  {
    var pre := "Tool Result: ";
    assert |pre| == 13;
    Infix(pre, res.shown, "\n\nBased on the tool result, here's the answer to your question:");
  }


  /** `chat` replies with a `tool_use` stop reason only after a call that
      returned, and its first block is that call's request. */
  lemma ChatToolUseOnlyAfterCall(answer: Result<string, Error>, tools: seq<Tool>, log: seq<Invocation>,
                                 behaviour: (seq<Invocation>, Invocation) -> CallOutcome,
                                 hash: map<string, string> -> string)
    ensures var out := ChatOutcome(answer, tools, log, behaviour, hash);
            && (out.1 == log || (answer.Success? && Decide(answer.value, tools).Invoke? &&
                                 out.1 == log + [Invocation(Decide(answer.value, tools).call.name,
                                                            Decide(answer.value, tools).call.params)]))
            && (out.0.Success? && out.0.value.stopReason == Some(ToolUse) ==>
                  && answer.Success? && Decide(answer.value, tools).Invoke?
                  && FirstToolUse(out.0.value.content) == Some(0)
                  && out.0.value.content[0].name == Decide(answer.value, tools).call.name
                  && out.0.value.content[0].input == Decide(answer.value, tools).call.params)
  {
    if answer.Success? {
      var d := Decide(answer.value, tools);
      match d
      case NoCall => ChatWithoutCall(answer.value, tools, log, behaviour, hash);
      case Missing(n) => ChatWithMissingTool(answer.value, tools, n, log, behaviour, hash);
      case Invoke(c) => ChatWithFoundTool(answer.value, tools, c, log, behaviour, hash);
    }
  }


  /** The follow-up in `handle_user_query_with_tools` calls the tool of the
      first `tool_use` block once more, and only for a `tool_use` reply. */
  lemma FollowUpLog(response: Message, log: seq<Invocation>,
                    behaviour: (seq<Invocation>, Invocation) -> CallOutcome)
    ensures var (m, log') := FollowUp(response, log, behaviour);
            && (log' == log || (response.stopReason == Some(ToolUse) && FirstToolUse(response.content).Some? &&
                                var b := response.content[FirstToolUse(response.content).value];
                                log' == log + [Invocation(b.name, b.input)]))
            && (log' == log ==> m == response)
  {
  }

  /** A query whose reply names a found tool calls that tool TWICE with the
      same name and parameters: once inside `chat` and once more in
      `handle_user_query_with_tools`; the answer is the SECOND call's
      flattened result (or its error). */
  lemma TwoCallsPerToolQuery(tools: seq<Tool>, text: string, c: Call, log: seq<Invocation>,
                             behaviour: (seq<Invocation>, Invocation) -> CallOutcome,
                             hash: map<string, string> -> string)
    requires Decide(text, tools) == Invoke(c)
    requires behaviour(log, Invocation(c.name, c.params)).Returned?
    ensures var inv := Invocation(c.name, c.params);
            var out := HandleOutcome(Success(tools), Success(text), log, behaviour, hash);
            && out.1 == log + [inv, inv]
            && (behaviour(log + [inv], inv).Returned? ==>
                  out.0 == TextReply(ResultAnswer(c.name, ResultText(behaviour(log + [inv], inv).result))))
            && (behaviour(log + [inv], inv).Raised? ==>
                  out.0 == TextReply(ErrorText(behaviour(log + [inv], inv).error)))
  {
    var inv := Invocation(c.name, c.params);
    var reply := ToolUseReply("tool_" + hash(c.params), c, behaviour(log, inv).result);
    ChatReturned(text, tools, c, log, behaviour, hash);
    HandleAfterAnswer(tools, text, log, behaviour, hash);
    FollowUpOfToolUse(reply, log + [inv], behaviour);
  }

  lemma ChatReturned(text: string, tools: seq<Tool>, c: Call, log: seq<Invocation>,
                     behaviour: (seq<Invocation>, Invocation) -> CallOutcome,
                     hash: map<string, string> -> string)
    requires Decide(text, tools) == Invoke(c)
    requires behaviour(log, Invocation(c.name, c.params)).Returned?
    ensures var inv := Invocation(c.name, c.params);
            ChatAfterReply(text, tools, log, behaviour, hash) ==
              (Success(ToolUseReply("tool_" + hash(c.params), c, behaviour(log, inv).result)), log + [inv])
  {
  }

  /** The follow-up of a `tool_use` reply whose first block is a request
      calls that request's tool once and answers from that call. */
  lemma FollowUpOfToolUse(response: Message, log: seq<Invocation>,
                          behaviour: (seq<Invocation>, Invocation) -> CallOutcome)
    requires response.stopReason == Some(ToolUse)
    requires |response.content| > 0 && response.content[0].ToolUseBlock?
    ensures var b := response.content[0];
            var inv := Invocation(b.name, b.input);
            var out := FollowUp(response, log, behaviour);
            && out.1 == log + [inv]
            && (behaviour(log, inv).Returned? ==>
                  out.0 == TextReply(ResultAnswer(b.name, ResultText(behaviour(log, inv).result))))
            && (behaviour(log, inv).Raised? ==>
                  out.0 == TextReply(ErrorText(behaviour(log, inv).error)))
  {
    assert FirstToolUse(response.content) == Some(0);
  }

  /** Once `list_tools` and the backend have answered, the query's outcome
      is the follow-up of `chat`'s reply, or `chat`'s exception as text. */
  lemma HandleAfterAnswer(tools: seq<Tool>, text: string, log: seq<Invocation>,
                          behaviour: (seq<Invocation>, Invocation) -> CallOutcome,
                          hash: map<string, string> -> string)
    ensures var out1 := ChatAfterReply(text, tools, log, behaviour, hash);
            HandleOutcome(Success(tools), Success(text), log, behaviour, hash) ==
              if out1.0.Success? then FollowUp(out1.0.value, out1.1, behaviour)
              else (TextReply(ErrorText(out1.0.error)), out1.1)
  {
  }


  /** A query makes at most two tool calls, always of the call parsed from
      the first answer, and the client log only grows. */
  lemma AtMostTwoCalls(catalog: Result<seq<Tool>, Error>, answer: Result<string, Error>, log: seq<Invocation>,
                       behaviour: (seq<Invocation>, Invocation) -> CallOutcome,
                       hash: map<string, string> -> string)
    ensures var log' := HandleOutcome(catalog, answer, log, behaviour, hash).1;
            || log' == log
            || (&& catalog.Success? && answer.Success? && Decide(answer.value, catalog.value).Invoke?
                && var c := Decide(answer.value, catalog.value).call;
                   var inv := Invocation(c.name, c.params);
                   (log' == log + [inv] || log' == log + [inv, inv]))
  {
    if catalog.Success? {
      var tools := catalog.value;
      ChatToolUseOnlyAfterCall(answer, tools, log, behaviour, hash);
      var out := ChatOutcome(answer, tools, log, behaviour, hash);
      if out.0.Success? {
        FollowUpLog(out.0.value, out.1, behaviour);
        var fin := FollowUp(out.0.value, out.1, behaviour);
        assert HandleOutcome(catalog, answer, log, behaviour, hash).1 == fin.1;
        if fin.1 != out.1 {
          var d := Decide(answer.value, tools);
          var inv := Invocation(d.call.name, d.call.params);
          assert fin.1 == out.1 + [inv];
          assert out.1 == log + [inv];
        }
      } else {
        assert HandleOutcome(catalog, answer, log, behaviour, hash).1 == out.1;
      }
    }
  }

  /** Without a found tool the answer text (or the not-found message) is
      the reply and no tool is called. */
  lemma NoToolNoCall(tools: seq<Tool>, text: string, log: seq<Invocation>,
                     behaviour: (seq<Invocation>, Invocation) -> CallOutcome,
                     hash: map<string, string> -> string)
    requires !Decide(text, tools).Invoke?
    ensures var out := HandleOutcome(Success(tools), Success(text), log, behaviour, hash);
            && out.1 == log
            && TextFromMessage(out.0) == (if Decide(text, tools).NoCall? then text else NotFoundText(Decide(text, tools).name))
  {
    HandleAfterAnswer(tools, text, log, behaviour, hash);
    match Decide(text, tools)
    case NoCall =>
      ChatWithoutCall(text, tools, log, behaviour, hash);
      TextReplyText(text);
    case Missing(n) =>
      ChatWithMissingTool(text, tools, n, log, behaviour, hash);
      TextReplyText(NotFoundText(n));
  }


  /** Every exception, from `list_tools` or from `chat`, becomes one error
      text naming it; nothing propagates. */
  lemma FailuresBecomeReplies(catalog: Result<seq<Tool>, Error>, answer: Result<string, Error>, log: seq<Invocation>,
                              behaviour: (seq<Invocation>, Invocation) -> CallOutcome,
                              hash: map<string, string> -> string)
    requires catalog.Failure? || answer.Failure?
    ensures var (m, log') := HandleOutcome(catalog, answer, log, behaviour, hash);
            var e := if catalog.Failure? then catalog.error else answer.error;
            m == TextReply("I encountered an error while processing your request: " + e.message + ". Please try again.") &&
            log' == log
  {
  }

  /** The answer for a tool result is never empty: an empty or
      whitespace-only result becomes the success acknowledgment. */
  lemma ResultAnswerNeverEmpty(toolName: string, content: string)
    ensures ResultAnswer(toolName, content) != ""
    ensures AllSpace(content) ==> ResultAnswer(toolName, content) == "Successfully completed the " + toolName + " operation."
    ensures !AllSpace(content) ==> ResultAnswer(toolName, content) == content
  {
    if !AllSpace(content) {
      assert content != "";
    }
  }

  /** A result's list content is flattened to its item texts joined by
      newlines; when none holds a newline, they can be read back. */
  lemma ResultTextSplits(r: ToolResult)
    requires r.content.Some? && r.content.value.Items? && r.content.value.items != []
    requires forall i :: 0 <= i < |r.content.value.items| ==> '\n' !in ItemText(r.content.value.items[i])
    ensures Split(ResultText(r), '\n') == ItemTexts(r.content.value.items)
  {
    SplitJoin(ItemTexts(r.content.value.items), '\n');
  }
}
