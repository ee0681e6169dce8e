# Document-chat agent core, modelled in Dafny

The repository is a command-line chat agent. It answers questions about a
small set of documents through a Gemini language model. Tools are served by
an MCP (Model Context Protocol) server. Two files form the core, and this
project models both:

- `core/gemini.py` wraps the model.
  - It converts an Anthropic-style history into Gemini's turn format.
  - It looks for a `TOOL_CALL: name:key=value,...` line in the model's answer.
  - It parses that line, looks the tool up, and calls it through the MCP client.
  - `handle_user_query_with_tools` then calls the same tool a second time and
    turns that second result into the answer.
- `core/chat.py` keeps the conversation history.
  - A service with `handle_user_query_with_tools` gets the query handed to it.
  - With any other service it loops: ask the service, record the reply, and
    while the reply asks for a tool, append the tool results and ask again.

Modules, one concept each:

| module | file | contents |
|---|---|---|
| `Wrappers` | wrappers.dfy | `Option`, `Result` |
| `Text` | text.dfy | Python `str.strip`, `split(c)`, `split(c, 1)`, `"\n".join`, `isspace`, with their round trips |
| `Messages` | messages.dfy | `GeminiMessage`, `TextBlock`, `ToolUseBlock`, history entries, `text_from_message`, and the history list as a class |
| `ToolCall` | tool_call.dfy | the regular expression `TOOL_CALL:\s*(.+)` as a leftmost-match specification, the call-string parser, the tool lookup |
| `ToolCallProperties` | tool_call_lemmas.dfy | lemmas about the parse |
| `Collaborators` | collaborators.dfy | the MCP client, the Gemini backend and a non-Gemini AI service, each answering from given data and logging every request |
| `Gemini` | gemini.dfy | the `Gemini` class, history conversion, reply building, the single-query tool flow |
| `GeminiProperties` | gemini_lemmas.dfy | lemmas about replies and tool calls |
| `Conversation` | chat.dfy | the `Chat` class and `run`, including the fallback loop and its specification `Loop` |
| `ConversationProperties` | chat_lemmas.dfy | lemmas about the fallback loop |

The collaborators are classes whose state is what the core can observe:

- `McpClient` has a fixed `list_tools` answer and a `behaviour` function. That
  function gives the outcome of a call from every call made before it.
- `GenerativeModel` answers from a script.
- `ScriptedAgent` stands for a service without the tool flow. It also answers
  from a script.

Each one keeps a log of what it was asked. The contracts of `Gemini.Chat`,
`Gemini.HandleUserQueryWithTools` and `Chat.Run` therefore state the reply,
the exact requests sent to the backend, and the exact tool calls made.
These are tied to the pure functions `ChatOutcome`, `HandleOutcome` and
`Loop`, and the lemmas are stated about those functions.

The regular expression is modelled exactly, including two corners:

- `\s*` may run past newlines. If nothing but whitespace follows the marker,
  the engine backtracks, and the captured group is the one last
  non-newline whitespace character. The parsed name is then empty, so no
  tool is called.
- If only newlines follow the marker, that position does not match, and
  searching continues at the next marker.

Whitespace is Python's `str.isspace` set. It is the same set for `\s` in a
`str` pattern and for `strip()`.

## Model

| member | source | states |
|---|---|---|
| `Text.Strip` | core/gemini.py:215 | the result is a slice of the input with only whitespace cut on both sides; it neither starts nor ends with whitespace; it is empty exactly when the input is all whitespace |
| `Text.IndexOf` | core/gemini.py:219 | the first position of the character, or none exactly when it does not occur |
| `Text.SplitOnce` | core/gemini.py:220 | `s == head + [c] + tail` with no `c` in `head` (split at the first separator) |
| `Text.Split` | core/gemini.py:226 | at least one piece, and no piece contains the separator |
| `Text.JoinSplit` | core/gemini.py:226 | joining the pieces with the separator gives the input back |
| `Text.SplitJoin` | core/gemini.py:338 | splitting a join of separator-free pieces gives the pieces back |
| `Text.PrefixBeforeSeparator` | core/gemini.py:220 | when the head has no separator, splitting `head + [c] + tail` once gives back exactly `head` and `tail` |
| `Text.FirstIndex` | core/gemini.py:219 | the first separator of `a + [c] + b`, with no `c` in `a`, is at `|a|` |
| `Messages.TextsAppend` | core/gemini.py:67-69 | picking out text blocks distributes over concatenation, so block order is kept |
| `Messages.TextsAreTextBlocks` | core/gemini.py:68 | there are at most as many texts as blocks; all of them when every block is text, none when no block is |
| `Messages.TextFromMessageSplits` | core/gemini.py:65-69 | when no text block holds a newline, splitting `text_from_message` at newlines gives the block texts back |
| `Messages.WrappedText` | core/gemini.py:10-13 | a message built from a bare string reads back as that string; a tool-use block before a text block does not contribute to the text |
| `Messages.MessageList.Append` | core/gemini.py:54 | the entry is added at the end and nothing else changes |
| `Gemini.AddUserMessage` | core/gemini.py:47-54 | one `user` entry at the end, holding a message's block list or any other value as given |
| `Gemini.AddAssistantMessage` | core/gemini.py:56-63 | one `assistant` entry at the end, holding a message's block list or any other value as given |
| `Gemini.BlockTexts` | core/gemini.py:96-104 | one text per block, in order: its text, or its rendering for a block without text |
| `Gemini.FlattenBlocks` | core/gemini.py:93-105 | the loop yields the block texts joined with newlines |
| `Gemini.ConvertMessages` | core/gemini.py:72-112 | the loop yields the converted history `Converted` |
| `Gemini.ConvertedParts` | core/gemini.py:107-110 | every converted turn has exactly one part, so the last turn's first part, which is what gets sent, always exists |
| `GeminiProperties.ConvertedShape` | core/gemini.py:72-112 | two preamble turns exactly when a system text is given; after them one turn per entry in order; `assistant` becomes `model` and other roles are kept; a list content becomes its block texts joined by newlines |
| `GeminiProperties.WireTextOfTextBlocks` | core/gemini.py:93-105 | for text-only content, the text sent on the wire equals `text_from_message` |
| `Gemini.Gemini.Chat` | core/gemini.py:166-273 | one backend request: the converted history without its last turn, and that turn's text; the reply and the client log are `ChatOutcome` of the backend's answer; a backend exception propagates |
| `Gemini.Gemini.RespondTo` | core/gemini.py:207-273 | from the answer text: at most one tool call, made only for a found tool; the reply is `ChatAfterReply` |
| `ToolCall.FindToolCall` | core/gemini.py:210 | none exactly when no position matches; otherwise the group captured at the leftmost matching position |
| `ToolCall.FirstMatchFrom` | core/gemini.py:210 | the leftmost matching position at or after `i`, or none when no position there matches |
| `ToolCall.SkipSpace` | core/gemini.py:210 | the greedy `\s*`: the longest run of whitespace from `p` |
| `ToolCall.LineEnd` | core/gemini.py:210 | the greedy `.+`: runs to the first newline or the end |
| `ToolCall.LastNonNewline` | core/gemini.py:210 | the backtracking point of `\s*`: the last non-newline character before `k`, or none when all are newlines |
| `ToolCallProperties.GroupIsRestOfLine` | core/gemini.py:210 | when a non-space character follows the whitespace after the marker, the group is exactly the rest of that line |
| `ToolCallProperties.BlankAfterMarker` | core/gemini.py:210-238 | when only whitespace follows the marker, the parsed tool name is empty, so no tool is called |
| `ToolCallProperties.MarkerThenLine` | core/gemini.py:210 | the marker, whitespace, then a line: the group is that line |
| `ToolCallProperties.NoMarkerNoCall` | core/gemini.py:210-212 | text without the marker never leads to a tool call |
| `ToolCall.ParsePieces` | core/gemini.py:227-230 | one parsed pair per comma piece, in order |
| `ToolCall.ParseParameters` | core/gemini.py:224-230 | the loop yields `ParamsFrom`: an empty dictionary for an empty string, otherwise the pairs of the comma pieces that hold `=`, keys and values stripped, a later key overriding an earlier one |
| `ToolCall.ParseCallString` | core/gemini.py:215-233 | yields `ParseToolCall` of the group: name and parameters split at the first `:`, or the whole stripped string as the name with no parameters |
| `ToolCallProperties.NameIsClean` | core/gemini.py:215-232 | the parsed name holds no `:` and has no surrounding whitespace |
| `ToolCallProperties.ParamSplitsAtFirstEquals` | core/gemini.py:229-230 | a piece is split at its first `=`; a later `=` stays in the value |
| `ToolCallProperties.CollectKeys` | core/gemini.py:227-230 | a key is in the dictionary exactly when some piece gives it |
| `ToolCallProperties.CollectLastWins` | core/gemini.py:230 | a key's value comes from the last piece that gives that key |
| `ToolCallProperties.ParamsLastWins` | core/gemini.py:226-230 | the same two facts, stated for the comma pieces of a parameter string |
| `ToolCallProperties.StripUnchanged` | core/gemini.py:221 | a string with no surrounding whitespace is its own strip |
| `ToolCallProperties.ParseNameAndParams` | core/gemini.py:219-230 | `name:params` with a clean name gives that name and `ParamsFrom(params)` |
| `ToolCallProperties.SingleParameter` | core/gemini.py:225-230 | one clean `key=value` piece gives the one-entry dictionary |
| `ToolCallProperties.ParseSingleParameterCall` | core/gemini.py:215-230 | `name:key=value` with clean parts gives that call |
| `ToolCallProperties.ExampleCallWithParameter` | core/gemini.py:150 | `read_doc:doc_id=x`, in the prompt's documented format, parses to tool `read_doc` with `doc_id` set to `x` |
| `ToolCallProperties.ExampleCallWithoutParameter` | core/gemini.py:231-233 | a call string without `:` is a name with no parameters |
| `ToolCallProperties.ExampleDecision` | core/gemini.py:210-249 | an answer `TOOL_CALL: read_doc:doc_id=x`, with a tool of that name present, leads to calling it with those parameters |
| `ToolCallProperties.DecideCases` | core/gemini.py:238-246 | a call is made only for a non-empty name that a listed tool has; a missing tool is reported only for a non-empty name with tools listed |
| `ToolCall.Lookup` | core/gemini.py:240-244 | none exactly when no tool has the name; otherwise the first tool with that name |
| `ToolCall.FindTool` | core/gemini.py:240-244 | the loop with its early exit yields `Lookup` |
| `ToolCall.DetectCall` | core/gemini.py:210-246 | the detection steps of `chat` (search, parse, lookup) yield `Decide`: no call, a missing tool, or a call to make |
| `GeminiProperties.ChatWithoutCall` | core/gemini.py:273 | with no valid call, the reply is the answer text as one block, no stop reason, and no tool is called |
| `GeminiProperties.ChatWithMissingTool` | core/gemini.py:264-266 | for an unknown name, the reply is one text block naming it, no stop reason, and no tool is called |
| `GeminiProperties.NotFoundTextNames` | core/gemini.py:266 | the not-found text holds the tool name right after its fixed lead |
| `GeminiProperties.ChatWithFoundTool` | core/gemini.py:246-270 | for a found tool, exactly one call with the parsed name and parameters; on return a `tool_use` reply of exactly two blocks, the request and a text showing the result; a JSON decode error becomes the fixed apology; any other exception propagates |
| `GeminiProperties.ToolResultTextShows` | core/gemini.py:260 | the result text shows the tool result right after its fixed lead |
| `GeminiProperties.ChatToolUseOnlyAfterCall` | core/gemini.py:246-273 | `chat` replies `tool_use` only after a call, and its first block is that call's request; the log grows by at most that one call |
| `Gemini.FirstToolUse` | core/gemini.py:318-319 | the position of the first tool-use block, or none when there is none |
| `Gemini.ItemTexts` | core/gemini.py:333-337 | one text per content item, in order, its text or its rendering |
| `Gemini.FlattenResult` | core/gemini.py:329-342 | the loop yields `ResultText`: list content joined by newlines, other content rendered, no content the rendered result |
| `GeminiProperties.ResultTextSplits` | core/gemini.py:331-338 | list content can be read back from the flattened text when no item holds a newline |
| `GeminiProperties.ResultAnswerNeverEmpty` | core/gemini.py:344-358 | the answer for a tool result is never empty: a blank result becomes the success acknowledgment naming the tool, any other result is kept as it is |
| `Gemini.FollowUpToolUse` | core/gemini.py:316-361 | the loop yields `FollowUp`: for a `tool_use` reply, the first tool-use block is called again and the answer is built from that call; otherwise the reply is returned unchanged |
| `GeminiProperties.FollowUpLog` | core/gemini.py:316-361 | the follow-up calls at most the first tool-use block's tool, only for a `tool_use` reply, and a reply with no call is returned unchanged |
| `GeminiProperties.FollowUpOfToolUse` | core/gemini.py:317-358 | for a `tool_use` reply whose first block is a request, that tool is called once more and the answer is built from that call, or from its exception |
| `Gemini.Gemini.HandleUserQueryWithTools` | core/gemini.py:275-368 | one `list_tools` call, then `chat` with the single user query and the tool catalog, then the follow-up; the reply and log are `HandleOutcome`; the backend is not queried when `list_tools` raises |
| `GeminiProperties.TwoCallsPerToolQuery` | core/gemini.py:249-326 | a found tool is called twice with the same name and parameters, and the answer is built from the second call |
| `GeminiProperties.AtMostTwoCalls` | core/gemini.py:238-361 | one query makes zero, one or two tool calls, and every one is the call parsed from the first answer |
| `GeminiProperties.NoToolNoCall` | core/gemini.py:264-273 | without a found tool no call is made, and the text is the answer or the not-found message |
| `GeminiProperties.FailuresBecomeReplies` | core/gemini.py:363-368 | an exception from `list_tools` or from `chat` becomes the error text naming it, and no tool is called |
| `GeminiProperties.TextReplyText` | core/gemini.py:365-366 | a one-block assistant reply reads back as its text and has no stop reason |
| `Collaborators.McpClient.ListTools` | core/gemini.py:298 | the catalog, or the exception it raises |
| `Collaborators.McpClient.CallTool` | core/gemini.py:249 | the call is logged at the end, and its outcome is a function of it and of all earlier calls |
| `Collaborators.GenerativeModel.SendMessage` | core/gemini.py:195-204 | the request is logged at the end, and the next scripted answer is consumed |
| `Collaborators.ScriptedAgent.Chat` | core/chat.py:42-45 | the history passed in is logged, and the next scripted reply is consumed; the service raises once the script is used up |
| `Conversation.Chat.ProcessQuery` | core/chat.py:15-16 | exactly one user entry holding the query is added at the end, and nothing else changes |
| `Conversation.Chat.Run` | core/chat.py:18-70 | with the tool-aware service: the history is untouched, the first client is used with the fixed system text, and the result is the text of `HandleOutcome`; with no client, an index error. With any other service: the history, the histories the service was given and the replies consumed are those of `Loop` from the current history plus the query |
| `Conversation.Chat.Delegate` | core/chat.py:25-34 | the tool-aware branch of `run`, as stated for `Run` |
| `Conversation.Chat.Fallback` | core/chat.py:37-70 | the loop's history, service log and replies are those of `Loop` |
| `Conversation.Rounds` | core/chat.py:50-62 | each tool round adds two entries, the reply and its tool results |
| `Conversation.Loop` | core/chat.py:40-68 | the loop uses at most the replies it is given and asks the service at most once per reply, plus one final call that raises when the replies run out |
| `ConversationProperties.LoopToolRounds` | core/chat.py:52-62 | every reply before the last call asked for a tool |
| `ConversationProperties.LoopSeen` | core/chat.py:40-62 | call `i` is given the starting history followed by the first `i` rounds |
| `ConversationProperties.LoopEnd` | core/chat.py:50-68 | the final history is the last call's history, plus the final reply when the loop answers |
| `ConversationProperties.LoopOutcome` | core/chat.py:50-70 | on success, the first reply that is not `tool_use` ends the loop; it is appended last, and its `text_from_message` is returned; otherwise the script ran out or the service raised, and that exception is the result |
| `ConversationProperties.RequeriedWithGrownHistory` | core/chat.py:50-62 | after a `tool_use` reply, the service is asked again with the previous history plus that reply and its tool results |
| `ConversationProperties.CallsSeePrefixes` | core/chat.py:40-62 | every history the service is given, and the final history, extend the starting one; no entry is rewritten or reordered |
| `ConversationProperties.SeenIsPrefix` | core/chat.py:40-62 | each history given to the service is a prefix of the final history |
| `ConversationProperties.HistoryOnlyGrows` | core/chat.py:16-60 | a run keeps the old history and puts the query right after it |
| `ConversationProperties.EntriesAdded` | core/chat.py:38-68 | a run with `k` tool rounds adds exactly `2k+2` entries when it answers: the query, `k+1` replies and `k` tool results; it adds `2k+1` when it raises |

## Left out

- The `google.generativeai` calls (`configure`, `GenerationConfig`, `GenerativeModel`, `start_chat`, `send_message`) go to a network library. The backend is a script of answer texts or raised exceptions. Each answer is the response's `text`.
- Temperature, stop sequences and the generation configuration only tune the network model. They are not modelled, and neither is the `temperature` argument of `run`.
- `_create_tool_system_prompt` is a fixed function of the tool list, the parameter `toolSystemPrompt`. Its wording is not modelled.
- `hash(str(tool_parameters))` depends on the Python process. It is the parameter `parameterHash`.
- `str()` of a block without text, of a tool result and of a content item have no fixed text. They are the parameter `render` and the `shown` fields.
- Dictionary blocks are not a separate kind of `Block`. In `_convert_messages_for_gemini` (core/gemini.py:97-104) a dictionary with a `text` key yields that text, exactly as a `TextBlock` does, so for conversion it is modelled as one. The equivalence holds for conversion only: `text_from_message` (:68) skips a dictionary, which has no `type` attribute. No dictionary block reaches `text_from_message` in the core's flows, because every reply it reads is built from `TextBlock` and `ToolUseBlock`.
- A dictionary block with `"type": "text"` and no `text` key raises `KeyError` at core/gemini.py:98. The model has no such block, so that exception is not modelled.
- `text_from_message` on a value that is not a `GeminiMessage` returns `str(message)`. That branch is not modelled, because every caller in the core passes a `GeminiMessage`.
- `ToolManager.get_all_tools` and `ToolManager.execute_tool_requests`: core/tools.py is not part of this model.
  - The tool list passed to a non-Gemini service is dropped, because the scripted service does not read it.
  - Executing the requests of a reply is the parameter `executeToolRequests`.
- Conversation.Chat.Run: in the fallback branch, `ToolManager.execute_tool_requests(self.clients, response)` (core/chat.py:55) runs the requested tools through the clients. The model's `executeToolRequests` is a pure function, so it makes no call through the modelled `McpClient`s. The clause that every client's `call_tool` log is unchanged in that branch is a fact about this abstraction only. It says nothing about the tool calls the program makes there.
- The `clients` dictionary is the sequence of its values in insertion order. That order is all `list(self.clients.values())[0]` uses.
- In the fallback loop the service's own `add_assistant_message`, `add_user_message` and `text_from_message` are taken to behave as the Gemini ones do. Other services' code is not part of this model.
- The service reads the live history list. It is modelled as receiving a copy, because the service never changes it.
- The source loop is unbounded (`while True`). The scripted service raises once its replies run out, so the loop ends. Termination when a real service keeps asking for tools is not modelled.
- `async`/`await`, the `[DEBUG]` prints and the `print` of the reply text in the tool branch of the loop are not modelled. Apart from the corner in the next line, they change nothing the core returns or stores.
- The `[DEBUG]` print at core/gemini.py:299 evaluates `[tool.name for tool in tools]` inside the `try`. A catalog entry without a `name`, or a `None` catalog, raises there, and :363-368 turn that into the error reply before any backend query. That path is not modelled: the model's `Tool` always has a `name` and the catalog is always a list. For the same reason the `str(tool)` fallback of `getattr(tool, 'name', str(tool))` at :120 and :242 is unreachable in the model.
- An exception other than `JSONDecodeError` raised inside `chat` (for instance by `call_tool`) propagates and is caught in `handle_user_query_with_tools`. Only its `str()` is modelled.
