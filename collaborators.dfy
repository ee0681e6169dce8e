/** The external collaborators of the conversation core, reduced to what the
    core can observe of them: the language-model backend answers from a
    script, and an MCP tool client answers `list_tools` with a fixed catalog
    and `call_tool` with a function of every call made so far. Both keep a
    log of what they were asked, so the number and order of calls can be
    stated. */
module Collaborators {

  import opened Wrappers
  import opened ToolCall
  import opened Messages

  /** A raised Python exception: the text `str(e)` gives, and whether it is
      a `json.JSONDecodeError` (the one kind `Gemini.chat` catches). */
  datatype Error = Error(message: string, jsonDecode: bool)

  /** What a scripted collaborator raises once its script is used up. */
  const Exhausted: Error := Error("no scripted reply left", false)

  /** One `call_tool(name, args)` request. */
  datatype Invocation = Invocation(name: string, args: map<string, string>)

  /** An item of a tool result's `content` list: one with a `text`
      attribute, or any other value with its `str()` rendering. */
  datatype Item = TextItem(text: string) | OtherItem(shown: string)

  /** A tool result's `content`: a list of items, or any other value with
      its `str()` rendering. */
  datatype ResultContent = Items(items: seq<Item>) | Single(shown: string)

  /** What `call_tool` returns: its `str()` rendering, and its `content`
      when it is truthy and has that attribute. */
  datatype ToolResult = ToolResult(shown: string, content: Option<ResultContent>)

  /** `call_tool` either returns a result or raises. */
  datatype CallOutcome = Returned(result: ToolResult) | Raised(error: Error)

  /** An MCP client session. */
  class McpClient {
    /** What `list_tools` returns, or raises. */
    const catalog: Result<seq<Tool>, Error>
    /** How the provider answers a call, given every call made before it
        (so a tool that edits a document may answer differently the second
        time it is called). */
    const behaviour: (seq<Invocation>, Invocation) -> CallOutcome
    /** Every `call_tool` request so far, in order. */
    var log: seq<Invocation>

    constructor (catalog: Result<seq<Tool>, Error>, behaviour: (seq<Invocation>, Invocation) -> CallOutcome)
      ensures this.catalog == catalog && this.behaviour == behaviour && log == []
    {
      this.catalog := catalog;
      this.behaviour := behaviour;
      log := [];
    }

    method ListTools() returns (r: Result<seq<Tool>, Error>)
      ensures r == catalog
    {
      r := catalog;
    }

    method CallTool(name: string, args: map<string, string>) returns (r: CallOutcome)
      modifies this
      ensures log == old(log) + [Invocation(name, args)]
      ensures r == behaviour(old(log), Invocation(name, args))
    {
      r := behaviour(log, Invocation(name, args));
      log := log + [Invocation(name, args)];
    }
  }

  /** One Gemini chat turn in wire format: a role and its text parts. */
  datatype Turn = Turn(role: string, parts: seq<string>)

  /** One backend query: `start_chat(history=...)` then `send_message(message)`. */
  datatype Request = Request(history: seq<Turn>, message: string)

  /** The next answer of a script; an exhausted script raises. */
  function Next<T>(script: seq<Result<T, Error>>): (r: Result<T, Error>)
    ensures script == [] ==> r == Failure(Exhausted)
    ensures script != [] ==> r == script[0]
  {
    if script == [] then Failure(Exhausted) else script[0]
  }

  /** The script after one answer. */
  function Rest<T>(script: seq<Result<T, Error>>): (r: seq<Result<T, Error>>)
    ensures script != [] ==> script == [script[0]] + r
    ensures script == [] ==> r == []
  {
    if script == [] then [] else script[1..]
  }

  /** The generative-model backend: each query takes the next scripted
      answer, the reply text or the exception raised. */
  class GenerativeModel {
    var script: seq<Result<string, Error>>
    /** Every query sent so far, in order. */
    var requests: seq<Request>

    constructor (script: seq<Result<string, Error>>)
      ensures this.script == script && requests == []
    {
      this.script := script;
      requests := [];
    }

    method SendMessage(history: seq<Turn>, message: string) returns (r: Result<string, Error>)
      modifies this
      ensures requests == old(requests) + [Request(history, message)]
      ensures r == Next(old(script)) && script == Rest(old(script))
    {
      r := Next(script);
      script := Rest(script);
      requests := requests + [Request(history, message)];
    }
  }

  /** An AI service without `handle_user_query_with_tools`: each `chat`
      call is given the whole history and takes the next scripted reply,
      or raises once the script is used up. */
  class ScriptedAgent {
    var replies: seq<Result<Message, Error>>
    /** The history passed to each `chat` call so far, in order. */
    var seen: seq<seq<Entry>>

    constructor (replies: seq<Result<Message, Error>>)
      ensures this.replies == replies && seen == []
    {
      this.replies := replies;
      seen := [];
    }

    method Chat(messages: seq<Entry>) returns (r: Result<Message, Error>)
      modifies this
      ensures seen == old(seen) + [messages]
      ensures r == Next(old(replies)) && replies == Rest(old(replies))
    {
      r := Next(replies);
      replies := Rest(replies);
      seen := seen + [messages];
    }
  }
}
