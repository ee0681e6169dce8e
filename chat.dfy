/** The conversation loop: a `Chat` owns an append-only message history and
    answers a query either by handing it to the tool-aware Gemini service or,
    for any other AI service, by asking the service again and again, with
    the whole history, until a reply does not ask for a tool. */
module Conversation {

  import opened Wrappers
  import opened Messages
  import opened Collaborators
  import opened Gemini

  /** The AI service: the Gemini service, which has
      `handle_user_query_with_tools`, or any other service. */
  datatype Service = ToolAware(gemini: Gemini) | Basic(agent: ScriptedAgent)

  /** The objects a run may change inside the service. */
  function ServiceState(s: Service): set<object> {
    match s
    case ToolAware(g) => {g.model}
    case Basic(a) => {a}
  }

  /** The system text of the tool-aware path. */
  const AssistantSystem: string :=
    "You are a helpful AI assistant with access to document tools. Use tools when needed to provide accurate information."

  /** `list(clients.values())[0]` on an empty dictionary. */
  const NoClient: Error := Error("list index out of range", false)

  /** The history entry for a reply of the service. */
  function Reply(m: Message): Entry {
    Entry("assistant", PayloadContent(FromMessage(m)))
  }

  /** The history entry for the tool results of a `tool_use` reply. */
  function ToolResults(m: Message, exec: Message -> Content): Entry {
    Entry("user", PayloadContent(Raw(exec(m))))
  }

  /** The two entries one tool round adds: the reply and its tool results. */
  function RoundOf(reply: Result<Message, Error>, exec: Message -> Content): seq<Entry> {
    match reply
    case Success(m) => [Reply(m), ToolResults(m, exec)]
    case Failure(_) => []
  }

  /** The entries a sequence of tool rounds adds, two per round. */
  function Rounds(replies: seq<Result<Message, Error>>, exec: Message -> Content): (r: seq<Entry>)
    ensures (forall i :: 0 <= i < |replies| ==> replies[i].Success?) ==> |r| == 2 * |replies|
  {
    if replies == [] then [] else RoundOf(replies[0], exec) + Rounds(replies[1..], exec)
  }

  /** What the fallback loop leaves behind: the final history, the history
      each service call was given, how many scripted replies it used, and
      what `run` returns (or raises). */
  datatype Transcript = Transcript(history: seq<Entry>, seen: seq<seq<Entry>>, used: nat, result: Result<string, Error>)

  /** The fallback loop from history `h`, the service answering from
      `script`: each reply is appended before its stop reason is looked at;
      a `tool_use` reply adds the tool results and asks again. */
  function Loop(h: seq<Entry>, script: seq<Result<Message, Error>>, exec: Message -> Content): (t: Transcript)
    ensures t.used <= |script| && 1 <= |t.seen| <= |script| + 1
    decreases |script|
  {
    if script == [] then Transcript(h, [h], 0, Failure(Exhausted))
    else match script[0]
      case Failure(e) => Transcript(h, [h], 1, Failure(e))
      case Success(m) =>
        if m.stopReason == Some(ToolUse) then
          var t := Loop(h + [Reply(m), ToolResults(m, exec)], script[1..], exec);
          Transcript(t.history, [h] + t.seen, t.used + 1, t.result)
        else Transcript(h + [Reply(m)], [h], 1, Success(TextFromMessage(m)))
  }

  /** One `tool_use` round of the loop. */
  lemma LoopStep(h: seq<Entry>, script: seq<Result<Message, Error>>, exec: Message -> Content)
    requires script != [] && script[0].Success? && script[0].value.stopReason == Some(ToolUse)
    ensures var m := script[0].value;
            var l := Loop(h + [Reply(m), ToolResults(m, exec)], Rest(script), exec);
            Loop(h, script, exec) == Transcript(l.history, [h] + l.seen, l.used + 1, l.result)
  {
  }

  /** `core.chat.Chat` */
  class Chat {
    const aiService: Service
    /** The values of the `clients` dictionary, in insertion order. */
    const clients: seq<McpClient>
    /** `ToolManager.execute_tool_requests`: the tool-result content for a
        `tool_use` reply. */
    const executeToolRequests: Message -> Content
    const messages: MessageList

    constructor (aiService: Service, clients: seq<McpClient>, executeToolRequests: Message -> Content)
      ensures this.aiService == aiService && this.clients == clients
      ensures this.executeToolRequests == executeToolRequests
      ensures fresh(messages) && messages.entries == []
    {
      this.aiService := aiService;
      this.clients := clients;
      this.executeToolRequests := executeToolRequests;
      messages := new MessageList();
    }

    /** `_process_query`: the query becomes one user entry at the end. */
    method ProcessQuery(query: string)
      modifies messages
      ensures messages.entries == old(messages.entries) + [Entry("user", Plain(query))]
    {
      messages.Append(Entry("user", Plain(query)));
    }

    /** `run`. The tool-aware service answers through
        `handle_user_query_with_tools` with the first client and the history
        is left alone; any other service runs the fallback loop on the
        history. */
    method Run(query: string) returns (r: Result<string, Error>)
      modifies messages, clients, ServiceState(aiService)
      ensures aiService.ToolAware? ==> messages.entries == old(messages.entries)
      ensures aiService.ToolAware? && clients == [] ==>
                r == Failure(NoClient) && unchanged(aiService.gemini.model)
      ensures aiService.ToolAware? && clients != [] ==>
                var g := aiService.gemini;
                var c := clients[0];
                var (m, log) := HandleOutcome(c.catalog, Next(old(g.model.script)), old(c.log), c.behaviour, g.parameterHash);
                && r == Success(TextFromMessage(m))
                && c.log == log
                && (c.catalog.Failure? ==> g.model.script == old(g.model.script) && g.model.requests == old(g.model.requests))
                && (c.catalog.Success? ==>
                      && g.model.script == Rest(old(g.model.script))
                      && g.model.requests == old(g.model.requests) +
                           [RequestFor(Converted([Entry("user", Plain(query))],
                                                 EnhancedSystem(AssistantSystem, c.catalog.value, g.toolSystemPrompt), g.render))])
                && forall i :: 1 <= i < |clients| && clients[i] != c ==> clients[i].log == old(clients[i].log)
      ensures aiService.Basic? ==>
                var a := aiService.agent;
                var t := Loop(old(messages.entries) + [Entry("user", Plain(query))], old(a.replies), executeToolRequests);
                && messages.entries == t.history
                && a.seen == old(a.seen) + t.seen
                && a.replies == old(a.replies)[t.used..]
                && r == t.result
                // `executeToolRequests` is a pure parameter that makes no call
                // through the clients, so their logs keep what they held.
                && forall i :: 0 <= i < |clients| ==> clients[i].log == old(clients[i].log)
    {
      if aiService.ToolAware? {
        r := Delegate(query);
      } else {
        r := Fallback(query);
      }
    }

    /** The tool-aware branch of `run`. */
    method Delegate(query: string) returns (r: Result<string, Error>)
      requires aiService.ToolAware?
      modifies clients, aiService.gemini.model
      ensures clients == [] ==> r == Failure(NoClient) && unchanged(aiService.gemini.model)
      ensures clients != [] ==>
                var g := aiService.gemini;
                var c := clients[0];
                var (m, log) := HandleOutcome(c.catalog, Next(old(g.model.script)), old(c.log), c.behaviour, g.parameterHash);
                && r == Success(TextFromMessage(m))
                && c.log == log
                && (c.catalog.Failure? ==> g.model.script == old(g.model.script) && g.model.requests == old(g.model.requests))
                && (c.catalog.Success? ==>
                      && g.model.script == Rest(old(g.model.script))
                      && g.model.requests == old(g.model.requests) +
                           [RequestFor(Converted([Entry("user", Plain(query))],
                                                 EnhancedSystem(AssistantSystem, c.catalog.value, g.toolSystemPrompt), g.render))])
                && forall i :: 1 <= i < |clients| && clients[i] != c ==> clients[i].log == old(clients[i].log)
    {
      if clients == [] {
        return Failure(NoClient);
      }
      var m := aiService.gemini.HandleUserQueryWithTools(query, clients[0], AssistantSystem);
      return Success(TextFromMessage(m));
    }

    /** The fallback branch of `run`: the query is appended, then the loop
        runs until a reply that is not `tool_use`. */
    method Fallback(query: string) returns (r: Result<string, Error>)
      requires aiService.Basic?
      modifies messages, aiService.agent
      ensures var a := aiService.agent;
              var t := Loop(old(messages.entries) + [Entry("user", Plain(query))], old(a.replies), executeToolRequests);
              && messages.entries == t.history
              && a.seen == old(a.seen) + t.seen
              && a.replies == old(a.replies)[t.used..]
              && r == t.result
    {
      var agent := aiService.agent;
      ProcessQuery(query);
      ghost var s0 := agent.replies;
      ghost var seen0 := agent.seen;
      ghost var t := Loop(messages.entries, s0, executeToolRequests);
      while true
        invariant |agent.replies| <= |s0| && agent.replies == s0[|s0| - |agent.replies|..]
        invariant var l := Loop(messages.entries, agent.replies, executeToolRequests);
                  && l.history == t.history && l.result == t.result
                  && seen0 + t.seen == agent.seen + l.seen
                  && t.used == |s0| - |agent.replies| + l.used
        decreases |agent.replies|
      {
        ghost var h, s := messages.entries, agent.replies;
        var reply := agent.Chat(messages.entries);
        if reply.Failure? {
          return Failure(reply.error);
        }
        var response := reply.value;
        AddAssistantMessage(messages, FromMessage(response));
        if response.stopReason == Some(ToolUse) {
          AddUserMessage(messages, Raw(executeToolRequests(response)));
          assert messages.entries == h + [Reply(response), ToolResults(response, executeToolRequests)];
          LoopStep(h, s, executeToolRequests);
        } else {
          return Success(TextFromMessage(response));
        }
      }
    }
  }
}
