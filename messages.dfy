/** The message shapes of core/gemini.py (`GeminiMessage`, `TextBlock`,
    `ToolUseBlock`) and the `{"role", "content"}` entries of a history list. */
module Messages {

  import opened Wrappers
  import opened Text

  /** One content block. `OtherBlock` stands for any item that carries no
      text (for instance a part produced by a tool provider); `payload` is
      whatever it holds. */
  datatype Block =
    | TextBlock(text: string)
    | ToolUseBlock(id: string, name: string, input: map<string, string>)
    | OtherBlock(payload: string)

  /** `GeminiMessage`: ordered blocks, a role and an optional stop reason. */
  datatype Message = Message(content: seq<Block>, role: string, stopReason: Option<string>)

  const ToolUse: string := "tool_use"

  /** The `content` of a history entry: a bare string or a list of blocks. */
  datatype Content = Plain(text: string) | Blocks(blocks: seq<Block>)

  /** One `{"role": role, "content": content}` entry of a history list. */
  datatype Entry = Entry(role: string, content: Content)

  /** What `add_user_message` / `add_assistant_message` are handed: a
      `GeminiMessage`, whose block list is stored, or any other value, which
      is stored as it is. */
  datatype Payload = FromMessage(message: Message) | Raw(value: Content)

  function PayloadContent(p: Payload): Content {
    match p
    case FromMessage(m) => Blocks(m.content)
    case Raw(c) => c
  }

  /** `GeminiMessage(content, role, stop_reason)`: a list is kept as the
      blocks, anything else becomes one `TextBlock`. */
  function NewMessage(content: Content, role: string, stopReason: Option<string>): Message {
    match content
    case Blocks(bs) => Message(bs, role, stopReason)
    case Plain(t) => Message([TextBlock(t)], role, stopReason)
  }

  /** The texts of the text blocks, in order; other blocks are skipped. */
  function Texts(blocks: seq<Block>): seq<string> {
    if blocks == [] then []
    else (if blocks[0].TextBlock? then [blocks[0].text] else []) + Texts(blocks[1..])
  }

  /** `text_from_message`: the text blocks' texts joined by newlines. */
  function TextFromMessage(m: Message): string {
    Join(Texts(m.content), "\n")
  }

  /** Filtering text blocks distributes over concatenation, so the texts keep
      the order of the blocks. */
  lemma {:induction false} TextsAppend(a: seq<Block>, b: seq<Block>)
    ensures Texts(a + b) == Texts(a) + Texts(b)
  {
    if a != [] {
      TextsAppend(a[1..], b);
      assert (a + b)[1..] == a[1..] + b;
    } else {
      assert a + b == b;
    }
  }

  /** Only text blocks contribute: a block list's texts are exactly its
      text blocks, one per text block and in the same order. */
  lemma {:induction false} TextsAreTextBlocks(blocks: seq<Block>)
    ensures |Texts(blocks)| <= |blocks|
    ensures (forall k :: 0 <= k < |blocks| ==> blocks[k].TextBlock?) ==>
              |Texts(blocks)| == |blocks| && forall k :: 0 <= k < |blocks| ==> Texts(blocks)[k] == blocks[k].text
    ensures (forall k :: 0 <= k < |blocks| ==> !blocks[k].TextBlock?) ==> Texts(blocks) == []
  {
    if blocks != [] {
      TextsAreTextBlocks(blocks[1..]);
    }
  }

  /** Reading a message back: when no text block holds a newline and there
      is at least one, splitting `text_from_message` at the newlines gives
      the text blocks' texts. */
  lemma TextFromMessageSplits(m: Message)
    requires Texts(m.content) != []
    requires forall k :: 0 <= k < |Texts(m.content)| ==> '\n' !in Texts(m.content)[k]
    ensures Split(TextFromMessage(m), '\n') == Texts(m.content)
  {
    SplitJoin(Texts(m.content), '\n');
  }

  /** A message wrapped from a bare string reads back as that string, and a
      tool-use block in front of a text block does not change the text. */
  lemma WrappedText(t: string, role: string, stop: Option<string>, id: string, name: string, input: map<string, string>)
    ensures TextFromMessage(NewMessage(Plain(t), role, stop)) == t
    ensures TextFromMessage(Message([ToolUseBlock(id, name, input), TextBlock(t)], role, stop)) == t
  {
    assert Texts([TextBlock(t)]) == [t];
    assert Texts([ToolUseBlock(id, name, input), TextBlock(t)]) == [t] by {
      assert [ToolUseBlock(id, name, input), TextBlock(t)][1..] == [TextBlock(t)];
    }
  }

  /** A Python list of history entries, appended to in place. */
  class MessageList {
    var entries: seq<Entry>

    constructor ()
      ensures entries == []
    {
      entries := [];
    }

    /** `list.append` */
    method Append(e: Entry)
      modifies this
      ensures entries == old(entries) + [e]
    {
      entries := entries + [e];
    }
  }
}
