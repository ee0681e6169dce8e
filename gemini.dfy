/** core/gemini.py: the history helpers, the conversion of a history into
    Gemini's wire format, the reply built around a detected tool call, and
    the single-query tool flow `handle_user_query_with_tools`. */
module Gemini {

  import opened Wrappers
  import opened Text
  import opened Messages
  import opened ToolCall
  import opened Collaborators

  // ---------------------------------------------------------------------
  // add_user_message / add_assistant_message
  // ---------------------------------------------------------------------

  /** Appends `{"role": "user", "content": ...}` to the caller's list. */
  method AddUserMessage(messages: MessageList, message: Payload)
    modifies messages
    ensures messages.entries == old(messages.entries) + [Entry("user", PayloadContent(message))]
  {
    messages.Append(Entry("user", PayloadContent(message)));
  }

  /** Appends `{"role": "assistant", "content": ...}` to the caller's list. */
  method AddAssistantMessage(messages: MessageList, message: Payload)
    modifies messages
    ensures messages.entries == old(messages.entries) + [Entry("assistant", PayloadContent(message))]
  {
    messages.Append(Entry("assistant", PayloadContent(message)));
  }

  // ---------------------------------------------------------------------
  // _convert_messages_for_gemini
  // ---------------------------------------------------------------------

  /** The history's role name in Gemini's vocabulary. */
  function WireRole(role: string): string {
    if role == "assistant" then "model" else role
  }

  /** The text a block contributes when a list content is flattened: its
      `text`, or for a block without one its `str()` rendering. */
  function BlockText(b: Block, render: Block -> string): string {
    if b.TextBlock? then b.text else render(b)
  }

  /** The flattening texts of the blocks, in order. */
  function BlockTexts(blocks: seq<Block>, render: Block -> string): (r: seq<string>)
    ensures |r| == |blocks| && forall i :: 0 <= i < |blocks| ==> r[i] == BlockText(blocks[i], render)
  {
    if blocks == [] then []
    else BlockTexts(blocks[..|blocks| - 1], render) + [BlockText(blocks[|blocks| - 1], render)]
  }

  /** The inner loop of the conversion: collect each block's text, then
      join them with newlines. */
  method FlattenBlocks(blocks: seq<Block>, render: Block -> string) returns (text: string)
    ensures text == Join(BlockTexts(blocks, render), "\n")
  {
    var textParts: seq<string> := [];
    var i := 0;
    while i < |blocks|
      invariant 0 <= i <= |blocks|
      invariant textParts == BlockTexts(blocks[..i], render)
    {
      assert blocks[..i + 1][..i] == blocks[..i];
      textParts := textParts + [BlockText(blocks[i], render)];
      i := i + 1;
    }
    assert blocks[..|blocks|] == blocks;
    text := Join(textParts, "\n");
  }

  /** An entry's content on the wire: a string as it is, a list flattened. */
  function WireText(c: Content, render: Block -> string): string {
    match c
    case Plain(t) => t
    case Blocks(bs) => Join(BlockTexts(bs, render), "\n")
  }

  function WireTurn(e: Entry, render: Block -> string): Turn {
    Turn(WireRole(e.role), [WireText(e.content, render)])
  }

  /** The pair of turns that carries a non-empty system instruction. */
  function Preamble(system: string): seq<Turn> {
    if system == "" then []
    else [Turn("user", ["System: " + system]), Turn("model", ["Understood. I'll follow these instructions."])]
  }

  /** The converted history, built as the source's loop builds it: the
      preamble, then one turn per entry appended in order. */
  function Converted(messages: seq<Entry>, system: string, render: Block -> string): seq<Turn> {
    if messages == [] then Preamble(system)
    else Converted(messages[..|messages| - 1], system, render) + [WireTurn(messages[|messages| - 1], render)]
  }

  /** `_convert_messages_for_gemini` */
  method ConvertMessages(messages: seq<Entry>, system: string, render: Block -> string) returns (turns: seq<Turn>)
    ensures turns == Converted(messages, system, render)
  {
    turns := [];
    if system != "" {
      turns := turns + [Turn("user", ["System: " + system])];
      turns := turns + [Turn("model", ["Understood. I'll follow these instructions."])];
    }
    var i := 0;
    while i < |messages|
      invariant 0 <= i <= |messages|
      invariant turns == Converted(messages[..i], system, render)
    {
      var msg := messages[i];
      var role := if msg.role == "assistant" then "model" else msg.role;
      var content: string;
      match msg.content {
        case Plain(t) => content := t;
        case Blocks(bs) => content := FlattenBlocks(bs, render);
      }
      assert messages[..i + 1][..i] == messages[..i];
      turns := turns + [Turn(role, [content])];
      i := i + 1;
    }
    assert messages[..|messages|] == messages;
  }

  // ---------------------------------------------------------------------
  // Gemini.chat: the query sent and the reply built from the answer
  // ---------------------------------------------------------------------

  /** `enhanced_system`: the caller's system text, with the tool prompt
      (of a non-empty tool list) appended after a blank line. */
  function EnhancedSystem(system: string, tools: seq<Tool>, toolPrompt: seq<Tool> -> string): string {
    if |tools| == 0 then system
    else if system != "" then system + "\n\n" + toolPrompt(tools)
    else toolPrompt(tools)
  }

  /** What is sent: every converted turn but the last as history, and the
      last turn's text as the message ("" when there is no turn at all). */
  function RequestFor(turns: seq<Turn>): Request
    requires turns == [] || |turns[|turns| - 1].parts| > 0
  {
    if turns == [] then Request([], "")
    else Request(turns[..|turns| - 1], turns[|turns| - 1].parts[0])
  }

  /** `GeminiMessage([TextBlock(text)])` */
  function TextReply(text: string): Message {
    NewMessage(Blocks([TextBlock(text)]), "assistant", None)
  }

  function NotFoundText(name: string): string {
    "Sorry, I couldn't find the tool '" + name + "' that I tried to use. Let me provide a direct answer instead."
  }

  const ToolErrorText: string := "I encountered an error while trying to use a tool. Let me provide a direct answer instead."

  function ToolResultText(result: ToolResult): string {
    "Tool Result: " + result.shown + "\n\nBased on the tool result, here's the answer to your question:"
  }

  /** The reply after a successful tool call: the request block, the result
      text, and the `tool_use` stop reason. */
  function ToolUseReply(id: string, c: Call, result: ToolResult): Message {
    NewMessage(Blocks([ToolUseBlock(id, c.name, c.params), TextBlock(ToolResultText(result))]), "assistant", Some(ToolUse))
  }

  /** What `chat` returns once the backend answered `text`, and the client
      log afterwards: at most one tool call, made only for a found tool. */
  function ChatAfterReply(text: string, tools: seq<Tool>, log: seq<Invocation>,
                          behaviour: (seq<Invocation>, Invocation) -> CallOutcome,
                          hash: map<string, string> -> string): (Result<Message, Error>, seq<Invocation>)
  {
    match Decide(text, tools)
    case NoCall => (Success(TextReply(text)), log)
    case Missing(n) => (Success(TextReply(NotFoundText(n))), log)
    case Invoke(c) =>
      var inv := Invocation(c.name, c.params);
      var reply :=
        match behaviour(log, inv)
        case Returned(res) => Success(ToolUseReply("tool_" + hash(c.params), c, res))
        case Raised(e) => if e.jsonDecode then Success(TextReply(ToolErrorText)) else Failure(e);
      (reply, log + [inv])
  }

  /** What `chat` returns given the backend's answer or exception. */
  function ChatOutcome(answer: Result<string, Error>, tools: seq<Tool>, log: seq<Invocation>,
                       behaviour: (seq<Invocation>, Invocation) -> CallOutcome,
                       hash: map<string, string> -> string): (Result<Message, Error>, seq<Invocation>)
  {
    match answer
    case Failure(e) => (Failure(e), log)
    case Success(text) => ChatAfterReply(text, tools, log, behaviour, hash)
  }

  // ---------------------------------------------------------------------
  // handle_user_query_with_tools
  // ---------------------------------------------------------------------

  function ItemText(it: Item): string {
    match it
    case TextItem(t) => t
    case OtherItem(s) => s
  }

  function ItemTexts(items: seq<Item>): (r: seq<string>)
    ensures |r| == |items| && forall i :: 0 <= i < |items| ==> r[i] == ItemText(items[i])
  {
    if items == [] then []
    else ItemTexts(items[..|items| - 1]) + [ItemText(items[|items| - 1])]
  }

  /** `result_content`: a list content's item texts joined by newlines, any
      other content rendered, and a result without content rendered. */
  function ResultText(r: ToolResult): string {
    match r.content
    case None => r.shown
    case Some(Single(s)) => s
    case Some(Items(items)) => Join(ItemTexts(items), "\n")
  }

  /** The flattening loop over a tool result's content items. */
  method FlattenResult(r: ToolResult) returns (text: string)
    ensures text == ResultText(r)
  {
    match r.content {
      case None => text := r.shown;
      case Some(Single(s)) => text := s;
      case Some(Items(items)) =>
        var textParts: seq<string> := [];
        var i := 0;
        while i < |items|
          invariant 0 <= i <= |items|
          invariant textParts == ItemTexts(items[..i])
        {
          assert items[..i + 1][..i] == items[..i];
          textParts := textParts + [ItemText(items[i])];
          i := i + 1;
        }
        assert items[..|items|] == items;
        text := Join(textParts, "\n");
    }
  }

  /** The answer shown for a tool's result: the text itself, or when it is
      empty or only whitespace, a success acknowledgment naming the tool. */
  function ResultAnswer(toolName: string, content: string): string {
    if content == "" || Strip(content) == "" then "Successfully completed the " + toolName + " operation."
    else content
  }

  function ErrorText(e: Error): string {
    "I encountered an error while processing your request: " + e.message + ". Please try again."
  }

  /** The first tool-use block, if any. */
  function FirstToolUse(blocks: seq<Block>): (r: Option<nat>)
    ensures r.Some? ==> r.value < |blocks| && blocks[r.value].ToolUseBlock?
    ensures r.Some? ==> forall j :: 0 <= j < r.value ==> !blocks[j].ToolUseBlock?
    ensures r.None? ==> forall j :: 0 <= j < |blocks| ==> !blocks[j].ToolUseBlock?
  {
    if blocks == [] then None
    else if blocks[0].ToolUseBlock? then Some(0)
    else match FirstToolUse(blocks[1..])
      case None => None
      case Some(k) => Some(k + 1)
  }

  /** Steps 4 to 7: a `tool_use` reply has its first tool-use block's tool
      called (again) and is replaced by that result's answer; any other
      reply is returned as it is. */
  function FollowUp(response: Message, log: seq<Invocation>,
                    behaviour: (seq<Invocation>, Invocation) -> CallOutcome): (Message, seq<Invocation>)
  {
    if response.stopReason != Some(ToolUse) then (response, log)
    else
      match FirstToolUse(response.content)
      case None => (response, log)
      case Some(k) =>
        var b := response.content[k];
        var inv := Invocation(b.name, b.input);
        var reply :=
          match behaviour(log, inv)
          case Raised(e) => TextReply(ErrorText(e))
          case Returned(res) => TextReply(ResultAnswer(b.name, ResultText(res)));
        (reply, log + [inv])
  }

  /** What `handle_user_query_with_tools` returns, and the client log
      afterwards, given the catalog and the backend's answer; every
      exception becomes an error reply. */
  function HandleOutcome(catalog: Result<seq<Tool>, Error>, answer: Result<string, Error>, log: seq<Invocation>,
                         behaviour: (seq<Invocation>, Invocation) -> CallOutcome,
                         hash: map<string, string> -> string): (Message, seq<Invocation>)
  {
    match catalog
    case Failure(e) => (TextReply(ErrorText(e)), log)
    case Success(tools) =>
      var (c, log1) := ChatOutcome(answer, tools, log, behaviour, hash);
      match c
      case Failure(e) => (TextReply(ErrorText(e)), log1)
      case Success(response) => FollowUp(response, log1, behaviour)
  }

  /** The Gemini AI service. Its generation settings (temperature, token
      limit, stop sequences) are not modelled. */
  class Gemini {
    /** The backend chat model. */
    const model: GenerativeModel
    /** `_create_tool_system_prompt`, left abstract. */
    const toolSystemPrompt: seq<Tool> -> string
    /** `hash(str(tool_parameters))`, used only in the block id. */
    const parameterHash: map<string, string> -> string
    /** `str()` of a block that carries no text. */
    const render: Block -> string

    constructor (model: GenerativeModel, toolSystemPrompt: seq<Tool> -> string,
                 parameterHash: map<string, string> -> string, render: Block -> string)
      ensures this.model == model && this.toolSystemPrompt == toolSystemPrompt
      ensures this.parameterHash == parameterHash && this.render == render
    {
      this.model := model;
      this.toolSystemPrompt := toolSystemPrompt;
      this.parameterHash := parameterHash;
      this.render := render;
    }

    /** `chat`: one backend query over the converted history, then the
        reply built from the answer. */
    method Chat(messages: seq<Entry>, system: string, tools: seq<Tool>, client: McpClient)
      returns (r: Result<Message, Error>)
      modifies model, client
      ensures model.requests == old(model.requests) +
                [RequestFor(Converted(messages, EnhancedSystem(system, tools, toolSystemPrompt), render))]
      ensures model.script == Rest(old(model.script))
      ensures (r, client.log) == ChatOutcome(Next(old(model.script)), tools, old(client.log), client.behaviour, parameterHash)
    {
      var enhancedSystem := system;
      if |tools| > 0 {
        var toolPrompt := toolSystemPrompt(tools);
        enhancedSystem := if enhancedSystem != "" then enhancedSystem + "\n\n" + toolPrompt else toolPrompt;
      }
      var geminiMessages := ConvertMessages(messages, enhancedSystem, render);
      ConvertedParts(messages, enhancedSystem, render);
      var history := if geminiMessages != [] then geminiMessages[..|geminiMessages| - 1] else [];
      var lastMessage := if geminiMessages != [] then geminiMessages[|geminiMessages| - 1].parts[0] else "";
      var response := model.SendMessage(history, lastMessage);
      if response.Failure? {
        return Failure(response.error);
      }
      r := RespondTo(response.value, tools, client);
    }

    /** The tail of `chat` (core/gemini.py:207-273): search the answer for
        the marker, parse the call, look the tool up, and call it when found. */
    method RespondTo(responseText: string, tools: seq<Tool>, client: McpClient) returns (r: Result<Message, Error>)
      modifies client
      ensures (r, client.log) == ChatAfterReply(responseText, tools, old(client.log), client.behaviour, parameterHash)
    {
      var decision := DetectCall(responseText, tools);
      match decision {
        case NoCall =>
          return Success(TextReply(responseText));
        case Missing(toolName) =>
          return Success(TextReply(NotFoundText(toolName)));
        case Invoke(call) =>
          var toolResult := client.CallTool(call.name, call.params);
          match toolResult {
            case Raised(e) =>
              if e.jsonDecode {
                return Success(TextReply(ToolErrorText));
              }
              return Failure(e);
            case Returned(res) =>
              var contentBlocks := [ToolUseBlock("tool_" + parameterHash(call.params), call.name, call.params),
                                    TextBlock(ToolResultText(res))];
              return Success(NewMessage(Blocks(contentBlocks), "assistant", Some(ToolUse)));
          }
      }
    }

    /** `handle_user_query_with_tools`: list the tools, run `chat` on the
        query alone, then follow a `tool_use` reply up; any exception
        becomes an error reply. */
    method HandleUserQueryWithTools(userQuery: string, client: McpClient, system: string) returns (m: Message)
      modifies model, client
      ensures (m, client.log) == HandleOutcome(client.catalog, Next(old(model.script)), old(client.log), client.behaviour, parameterHash)
      ensures client.catalog.Failure? ==> model.script == old(model.script) && model.requests == old(model.requests)
      ensures client.catalog.Success? ==>
                && model.script == Rest(old(model.script))
                && model.requests == old(model.requests) +
                     [RequestFor(Converted([Entry("user", Plain(userQuery))],
                                           EnhancedSystem(system, client.catalog.value, toolSystemPrompt), render))]
    {
      var tools := client.ListTools();
      if tools.Failure? {
        return TextReply(ErrorText(tools.error));
      }
      var messages := [Entry("user", Plain(userQuery))];
      var response := Chat(messages, system, tools.value, client);
      if response.Failure? {
        return TextReply(ErrorText(response.error));
      }
      m := FollowUpToolUse(response.value, client);
    }
  }

  /** Steps 4 to 7 of `handle_user_query_with_tools`: for a `tool_use`
      reply, call the tool of its first tool-use block and answer with the
      flattened result; otherwise return the reply. */
  method FollowUpToolUse(reply: Message, client: McpClient) returns (m: Message)
    modifies client
    ensures (m, client.log) == FollowUp(reply, old(client.log), client.behaviour)
  {
    if reply.stopReason == Some(ToolUse) {
      var i := 0;
      while i < |reply.content|
        invariant 0 <= i <= |reply.content|
        invariant forall j :: 0 <= j < i ==> !reply.content[j].ToolUseBlock?
        invariant client.log == old(client.log)
      {
        var block := reply.content[i];
        if block.ToolUseBlock? {
          assert FirstToolUse(reply.content) == Some(i);
          var toolResult := client.CallTool(block.name, block.input);
          match toolResult {
            case Raised(e) =>
              return TextReply(ErrorText(e));
            case Returned(res) =>
              var resultContent := FlattenResult(res);
              return TextReply(ResultAnswer(block.name, resultContent));
          }
        }
        i := i + 1;
      }
      assert FirstToolUse(reply.content) == None;
    }
    return reply;
  }

  /** Every converted turn has exactly one part. */
  lemma {:induction false} ConvertedParts(messages: seq<Entry>, system: string, render: Block -> string)
    ensures forall i :: 0 <= i < |Converted(messages, system, render)| ==> |Converted(messages, system, render)[i].parts| == 1
  {
    if messages != [] {
      ConvertedParts(messages[..|messages| - 1], system, render);
    }
  }
}
