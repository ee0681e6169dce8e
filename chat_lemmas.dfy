/** Properties of the fallback loop of `run`: the history only grows, every
    reply is recorded before its stop reason is looked at, each `tool_use`
    round adds exactly two entries and re-asks with the grown history, and
    the loop ends on the first reply that is not `tool_use`. */
module ConversationProperties {

  import opened Wrappers
  import opened Messages
  import opened Collaborators
  import opened Conversation

  /** Peeling the first round off a prefix of the replies. */
  lemma RoundsPrefix(script: seq<Result<Message, Error>>, i: nat, exec: Message -> Content)
    requires 1 <= i <= |script|
    ensures Rounds(script[..i], exec) == RoundOf(script[0], exec) + Rounds(script[1..][..i - 1], exec)
  {
    assert script[..i][1..] == script[1..][..i - 1];
  }

  /** The first `k` replies, `k` the number of rounds, all ask for a tool. */
  lemma {:induction false} LoopToolRounds(h: seq<Entry>, script: seq<Result<Message, Error>>, exec: Message -> Content)
    ensures var t := Loop(h, script, exec);
            forall i :: 0 <= i < |t.seen| - 1 ==> script[i].Success? && script[i].value.stopReason == Some(ToolUse)
    decreases |script|
  {
    if script != [] && script[0].Success? && script[0].value.stopReason == Some(ToolUse) {
      var m := script[0].value;
      var h1 := h + [Reply(m), ToolResults(m, exec)];
      LoopToolRounds(h1, script[1..], exec);
      var t1 := Loop(h1, script[1..], exec);
      assert |Loop(h, script, exec).seen| == |t1.seen| + 1;
      forall i | 0 < i < |t1.seen|
        ensures script[i].Success? && script[i].value.stopReason == Some(ToolUse)
      {
        assert script[i] == script[1..][i - 1];
      }
    }
  }

  /** Call `i` of the loop is given the starting history followed by the
      first `i` rounds. */
  lemma {:induction false} LoopSeen(h: seq<Entry>, script: seq<Result<Message, Error>>, exec: Message -> Content)
    ensures var t := Loop(h, script, exec);
            forall i :: 0 <= i < |t.seen| ==> t.seen[i] == h + Rounds(script[..i], exec)
    decreases |script|
  {
    var t := Loop(h, script, exec);
    if script != [] && script[0].Success? && script[0].value.stopReason == Some(ToolUse) {
      var m := script[0].value;
      var h1 := h + [Reply(m), ToolResults(m, exec)];
      LoopSeen(h1, script[1..], exec);
      var t1 := Loop(h1, script[1..], exec);
      assert t.seen == [h] + t1.seen;
      forall i | 0 <= i < |t.seen|
        ensures t.seen[i] == h + Rounds(script[..i], exec)
      {
        if i > 0 {
          RoundsPrefix(script, i, exec);
          assert t.seen[i] == t1.seen[i - 1];
        }
      }
    } else {
      assert t.seen == [h];
    }
  }

  lemma LoopSeenAt(h: seq<Entry>, script: seq<Result<Message, Error>>, exec: Message -> Content, i: nat)
    requires i < |Loop(h, script, exec).seen|
    ensures Loop(h, script, exec).seen[i] == h + Rounds(script[..i], exec)
  {
    LoopSeen(h, script, exec);
  }

  /** How the loop ends, relative to the history of the last call. */
  lemma {:induction false} LoopEnd(h: seq<Entry>, script: seq<Result<Message, Error>>, exec: Message -> Content)
    ensures var t := Loop(h, script, exec);
            var k := |t.seen| - 1;
            match t.result
            case Success(text) =>
              && k < |script| && script[k].Success? && script[k].value.stopReason != Some(ToolUse)
              && text == TextFromMessage(script[k].value)
              && t.used == k + 1
              && t.history == t.seen[k] + [Reply(script[k].value)]
            case Failure(e) =>
              && t.history == t.seen[k]
              && ((k == |script| && t.used == k && e == Exhausted) ||
                  (k < |script| && t.used == k + 1 && script[k] == Failure(e)))
    decreases |script|
  {
    if script != [] && script[0].Success? && script[0].value.stopReason == Some(ToolUse) {
      var m := script[0].value;
      var h1 := h + [Reply(m), ToolResults(m, exec)];
      LoopEnd(h1, script[1..], exec);
      var t := Loop(h, script, exec);
      var t1 := Loop(h1, script[1..], exec);
      var k := |t1.seen|;
      assert t.seen == [h] + t1.seen;
      assert t.seen[k] == t1.seen[k - 1];
      if k < |script| {
        assert script[k] == script[1..][k - 1];
      }
    }
  }

  /** How the loop ends, `k` being the number of rounds: on success reply
      `k` is the first that does not ask for a tool, it is appended last and
      its text is the result; otherwise the loop raised, because the script
      ran out after `k` rounds or because reply `k` was an exception. */
  lemma LoopOutcome(h: seq<Entry>, script: seq<Result<Message, Error>>, exec: Message -> Content)
    ensures var t := Loop(h, script, exec);
            var k := |t.seen| - 1;
            match t.result
            case Success(text) =>
              && k < |script| && script[k].Success? && script[k].value.stopReason != Some(ToolUse)
              && text == TextFromMessage(script[k].value)
              && t.used == k + 1
              && t.history == h + Rounds(script[..k], exec) + [Reply(script[k].value)]
            case Failure(e) =>
              && t.history == h + Rounds(script[..k], exec)
              && ((k == |script| && t.used == k && e == Exhausted) ||
                  (k < |script| && t.used == k + 1 && script[k] == Failure(e)))
  {
    LoopEnd(h, script, exec);
    LoopSeenAt(h, script, exec, |Loop(h, script, exec).seen| - 1);
  }


  /** A run's history keeps every entry it had, followed by the query. */
  lemma HistoryOnlyGrows(before: seq<Entry>, query: string, script: seq<Result<Message, Error>>, exec: Message -> Content)
    ensures var t := Loop(before + [Entry("user", Plain(query))], script, exec);
            && |t.history| > |before|
            && t.history[..|before|] == before
            && t.history[|before|] == Entry("user", Plain(query))
  {
    LoopOutcome(before + [Entry("user", Plain(query))], script, exec);
  }

  /** A run with `k` tool rounds adds exactly 2k+2 entries when it answers
      (the query, k+1 replies, k tool results) and 2k+1 when it raises. */
  lemma EntriesAdded(before: seq<Entry>, query: string, script: seq<Result<Message, Error>>, exec: Message -> Content)
    ensures var t := Loop(before + [Entry("user", Plain(query))], script, exec);
            var k := |t.seen| - 1;
            |t.history| == |before| + 2 * k + (if t.result.Success? then 2 else 1)
  {
    var h := before + [Entry("user", Plain(query))];
    LoopToolRounds(h, script, exec);
    LoopOutcome(h, script, exec);
    var t := Loop(h, script, exec);
    var k := |t.seen| - 1;
    assert forall i :: 0 <= i < |script[..k]| ==> script[..k][i].Success? by {
      forall i | 0 <= i < |script[..k]| ensures script[..k][i].Success? {
        assert script[..k][i] == script[i];
      }
    }
  }

  /** Each `tool_use` round re-asks the service with the history it was
      given plus that reply and its tool results. */
  lemma RequeriedWithGrownHistory(h: seq<Entry>, script: seq<Result<Message, Error>>, exec: Message -> Content, i: nat)
    requires i + 1 < |Loop(h, script, exec).seen|
    ensures var t := Loop(h, script, exec);
            && script[i].Success? && script[i].value.stopReason == Some(ToolUse)
            && t.seen[i + 1] == t.seen[i] + [Reply(script[i].value), ToolResults(script[i].value, exec)]
  {
    LoopToolRounds(h, script, exec);
    LoopSeenAt(h, script, exec, i);
    LoopSeenAt(h, script, exec, i + 1);
    RoundsSnoc(script[..i + 1], exec);
    assert script[..i + 1][..i] == script[..i];
  }

  /** The last round of a sequence of rounds is at its end. */
  lemma {:induction false} RoundsSnoc(replies: seq<Result<Message, Error>>, exec: Message -> Content)
    requires replies != []
    ensures Rounds(replies, exec) == Rounds(replies[..|replies| - 1], exec) + RoundOf(replies[|replies| - 1], exec)
    decreases |replies|
  {
    if |replies| > 1 {
      RoundsSnoc(replies[1..], exec);
      assert replies[1..][..|replies[1..]| - 1] == replies[..|replies| - 1][1..];
    }
  }

  /** The history every call was given, and the final history, are the
      starting history followed by more entries: the loop never rewrites or
      reorders what is there. */
  lemma CallsSeePrefixes(h: seq<Entry>, script: seq<Result<Message, Error>>, exec: Message -> Content)
    ensures var t := Loop(h, script, exec);
            forall i :: 0 <= i < |t.seen| ==> |h| <= |t.seen[i]| <= |t.history| && t.seen[i] == t.history[..|t.seen[i]|]
  {
    var t := Loop(h, script, exec);
    forall i | 0 <= i < |t.seen|
      ensures |h| <= |t.seen[i]| <= |t.history| && t.seen[i] == t.history[..|t.seen[i]|]
    {
      SeenIsPrefix(h, script, exec, i);
    }
  }

  lemma SeenIsPrefix(h: seq<Entry>, script: seq<Result<Message, Error>>, exec: Message -> Content, i: nat)
    requires i < |Loop(h, script, exec).seen|
    ensures var t := Loop(h, script, exec);
            |h| <= |t.seen[i]| <= |t.history| && t.seen[i] == t.history[..|t.seen[i]|]
  {
    LastSeenIsPrefix(h, script, exec);
    SeenGrows(h, script, exec, i);
    LoopSeenAt(h, script, exec, i);
  }

  /** The final history extends the history the last call was given. */
  lemma LastSeenIsPrefix(h: seq<Entry>, script: seq<Result<Message, Error>>, exec: Message -> Content)
    ensures var t := Loop(h, script, exec);
            var k := |t.seen| - 1;
            |t.seen[k]| <= |t.history| && t.seen[k] == t.history[..|t.seen[k]|]
  {
    LoopEnd(h, script, exec);
  }

  /** Between call `i` and the last call the history grows by the rounds
      in between. */
  lemma SeenGrows(h: seq<Entry>, script: seq<Result<Message, Error>>, exec: Message -> Content, i: nat)
    requires i < |Loop(h, script, exec).seen|
    ensures var t := Loop(h, script, exec);
            var k := |t.seen| - 1;
            t.seen[k] == t.seen[i] + Rounds(script[i..k], exec)
  {
    var t := Loop(h, script, exec);
    var k := |t.seen| - 1;
    LoopSeenAt(h, script, exec, i);
    LoopSeenAt(h, script, exec, k);
    RoundsSplit(script, i, k, exec);
    SeqAssoc(h, Rounds(script[..i], exec), Rounds(script[i..k], exec));
  }

  lemma SeqAssoc(a: seq<Entry>, b: seq<Entry>, c: seq<Entry>)
    ensures a + (b + c) == (a + b) + c
  {
  }

  /** The rounds of the first `k` replies are those of the first `i`
      followed by those of the replies in between. */
  lemma RoundsSplit(script: seq<Result<Message, Error>>, i: nat, k: nat, exec: Message -> Content)
    requires i <= k <= |script|
    ensures Rounds(script[..k], exec) == Rounds(script[..i], exec) + Rounds(script[i..k], exec)
  {
    assert script[..i] + script[i..k] == script[..k];
    RoundsAppend(script[..i], script[i..k], exec);
  }

  lemma {:induction false} RoundsAppend(a: seq<Result<Message, Error>>, b: seq<Result<Message, Error>>, exec: Message -> Content)
    ensures Rounds(a + b, exec) == Rounds(a, exec) + Rounds(b, exec)
    decreases |a|
  {
    if a == [] {
      assert a + b == b;
    } else {
      RoundsAppend(a[1..], b, exec);
      assert (a + b)[1..] == a[1..] + b;
    }
  }
}
