/**
 Translating a conversation to the OpenAI chat shape and a reply back
 (backend/foreman/llm.py).
 */
module OpenAiTranslation {
  import opened Messages
  import opened Options
  import opened Sequences
  import opened Strings

  /** A tool call in the chat shape. */
  datatype Call = Call(id: string, name: string, arguments: string)

  datatype ChatMessage =
    | SystemSays(content: string)
    | UserSays(content: string)
    | AssistantSays(reply: Option<string>, calls: seq<Call>)
    | ToolSays(callId: string, content: string)

  /**
   What translation takes from outside: the identifier made up for the call at a
   message and block position, and JSON reading and writing of call arguments.
   */
  datatype Outside = Outside(mint: (nat, nat) -> string, parse: string -> string, dump: string -> string)

  // ---------------------------------------------------------------- text

  function JoinLines(parts: seq<string>): string {
    Join("\n", parts)
  }

  function NonEmpty(text: string): seq<string> {
    if text == "" then [] else [text]
  }

  /** The text a block contributes where blocks are flattened. */
  function TextOf(block: Block): string {
    match block
    case Text(text, _) => text
    case ToolResult(_, output, _) => output
    case Bare(literal) => literal
    case _ => ""
  }

  function Part(block: Block): seq<string> {
    NonEmpty(TextOf(block))
  }

  /** An assistant's text blocks; it says nothing else. */
  function AssistantPart(block: Block): seq<string> {
    if block.Text? then NonEmpty(block.text) else []
  }

  /** A user's text blocks, results aside. */
  function UserPart(block: Block): seq<string> {
    if block.ToolResult? then [] else NonEmpty(TextOf(block))
  }

  function ContentText(content: Content): string {
    match content
    case Plain(text) => text
    case Blocks(blocks) => JoinLines(Collect(Part, blocks))
  }

  // ---------------------------------------------------------------- specification

  function CallOf(outside: Outside, block: Block, i: nat, j: nat): Call
    requires block.ToolUse?
  {
    Call(if block.id != "" then block.id else outside.mint(i, j), block.name, outside.dump(block.input))
  }

  /** The calls of an assistant's blocks, in order. */
  function Calls(outside: Outside, blocks: seq<Block>, i: nat): seq<Call> {
    if blocks == [] then []
    else
      var j := |blocks| - 1;
      Calls(outside, blocks[..j], i) + if blocks[j].ToolUse? then [CallOf(outside, blocks[j], i, j)] else []
  }

  /** The state of the loop over a user's blocks: messages so far, and text not yet sent. */
  datatype UserState = UserState(out: seq<ChatMessage>, pending: seq<string>)

  function FlushText(pending: seq<string>): seq<ChatMessage> {
    if pending == [] then [] else [UserSays(JoinLines(pending))]
  }

  function UserStep(s: UserState, b: Block): UserState {
    if b.ToolResult? then UserState(s.out + FlushText(s.pending) + [ToolSays(b.toolUseId, b.output)], [])
    else s.(pending := s.pending + UserPart(b))
  }

  function UserBlocks(blocks: seq<Block>): UserState {
    if blocks == [] then UserState([], [])
    else UserStep(UserBlocks(blocks[..|blocks| - 1]), blocks[|blocks| - 1])
  }

  function TranslatedUser(blocks: seq<Block>): seq<ChatMessage> {
    UserBlocks(blocks).out + FlushText(UserBlocks(blocks).pending)
  }

  function TextOrNone(text: string): Option<string> {
    if text == "" then None else Some(text)
  }

  function TranslatedOne(outside: Outside, message: Message, i: nat): seq<ChatMessage> {
    match (message.role, message.content)
    case (Assistant, Blocks(blocks)) =>
      [AssistantSays(TextOrNone(JoinLines(Collect(AssistantPart, blocks))), Calls(outside, blocks, i))]
    case (User, Blocks(blocks)) => TranslatedUser(blocks)
    case (User, Plain(text)) => [UserSays(text)]
    case (Assistant, Plain(text)) => [AssistantSays(Some(text), [])]
    case (System, content) => [SystemSays(ContentText(content))]
  }

  function TranslatedEach(outside: Outside, messages: seq<Message>): seq<seq<ChatMessage>> {
    seq(|messages|, i requires 0 <= i < |messages| => TranslatedOne(outside, messages[i], i))
  }

  function SystemPart(system: Content): seq<ChatMessage> {
    if ContentText(system) == "" then [] else [SystemSays(ContentText(system))]
  }

  function Translated(outside: Outside, system: Content, messages: seq<Message>): seq<ChatMessage> {
    SystemPart(system) + FlatFrom(TranslatedEach(outside, messages), 0)
  }

  // ---------------------------------------------------------------- the code

  /** anthropic_messages_to_openai */
  method AnthropicMessagesToOpenAi(outside: Outside, system: Content, messages: seq<Message>)
          returns (converted: seq<ChatMessage>)
    ensures converted == Translated(outside, system, messages)
  {
    converted := [];
    var systemText := ContentText(system);
    if systemText != "" {
      converted := [SystemSays(systemText)];
    }
    ghost var parts := TranslatedEach(outside, messages);
    ghost var all := converted + FlatFrom(parts, 0);
    var i := 0;
    while i < |messages|
      invariant i <= |messages| == |parts|
      invariant parts == TranslatedEach(outside, messages)
      invariant converted + FlatFrom(parts, i) == all
    {
      var one := ConvertMessage(outside, messages[i], i);
      Regroup(converted, one, FlatFrom(parts, i + 1));
      assert one == parts[i];
      converted := converted + one;
      i := i + 1;
    }
    assert converted + [] == converted;
  }

  /** Its loop body. */
  method ConvertMessage(outside: Outside, message: Message, i: nat) returns (converted: seq<ChatMessage>)
    ensures converted == TranslatedOne(outside, message, i)
  {
    match (message.role, message.content)
    case (Assistant, Blocks(blocks)) =>
      var text := JoinLines(Collect(AssistantPart, blocks));
      var calls := ConvertCalls(outside, blocks, i);
      converted := [AssistantSays(if text == "" then None else Some(text), calls)];
    case (User, Blocks(blocks)) =>
      converted := ConvertUserBlocks(blocks);
    case (User, Plain(text)) => converted := [UserSays(text)];
    case (Assistant, Plain(text)) => converted := [AssistantSays(Some(text), [])];
    case (System, content) => converted := [SystemSays(ContentText(content))];
  }

  method ConvertCalls(outside: Outside, blocks: seq<Block>, i: nat) returns (calls: seq<Call>)
    ensures calls == Calls(outside, blocks, i)
  {
    calls := [];
    for j := 0 to |blocks|
      invariant calls == Calls(outside, blocks[..j], i)
    {
      assert blocks[..j + 1][..j] == blocks[..j];
      if !blocks[j].ToolUse? {
        continue;
      }
      var id := if blocks[j].id != "" then blocks[j].id else outside.mint(i, j);
      calls := calls + [Call(id, blocks[j].name, outside.dump(blocks[j].input))];
    }
    assert blocks[..|blocks|] == blocks;
  }

  method ConvertUserBlocks(blocks: seq<Block>) returns (converted: seq<ChatMessage>)
    ensures converted == TranslatedUser(blocks)
  {
    converted := [];
    var pending: seq<string> := [];
    for j := 0 to |blocks|
      invariant UserState(converted, pending) == UserBlocks(blocks[..j])
    {
      assert blocks[..j + 1][..j] == blocks[..j];
      if blocks[j].ToolResult? {
        assert converted + [] == converted;
        if pending != [] {
          converted := converted + [UserSays(JoinLines(pending))];
          pending := [];
        }
        converted := converted + [ToolSays(blocks[j].toolUseId, blocks[j].output)];
      } else {
        assert pending + [] == pending;
        var text := TextOf(blocks[j]);
        if text != "" {
          pending := pending + [text];
        }
      }
    }
    assert blocks[..|blocks|] == blocks;
    assert converted + [] == converted;
    if pending != [] {
      converted := converted + [UserSays(JoinLines(pending))];
    }
  }

  lemma {:induction false} Regroup<T>(a: seq<T>, b: seq<T>, c: seq<T>)
    ensures a + (b + c) == (a + b) + c
  {
  }

  // ---------------------------------------------------------------- replies

  /** The message of a chat completion; a call's identifier may be missing, which reads as empty. */
  datatype Reply = Reply(text: Option<string>, calls: seq<Call>)

  function ReplyCalls(outside: Outside, calls: seq<Call>, i: nat): seq<Block> {
    if calls == [] then []
    else
      var j := |calls| - 1;
      var c := calls[j];
      ReplyCalls(outside, calls[..j], i)
      + [ToolUse(if c.id != "" then c.id else outside.mint(i, j), c.name, outside.parse(c.arguments), false)]
  }

  function ReplyText(reply: Reply): seq<Block> {
    if reply.text.Some? && reply.text.value != "" then [Text(reply.text.value, false)] else []
  }

  /** The assistant message of a reply. */
  function ReplyMessage(outside: Outside, reply: Reply, i: nat): Message {
    Message(Assistant, Blocks(ReplyText(reply) + ReplyCalls(outside, reply.calls, i)))
  }

  /** The content that openai_response_to_anthropic builds. */
  method OpenAiResponseToAnthropic(outside: Outside, reply: Reply, i: nat) returns (message: Message)
    ensures message == ReplyMessage(outside, reply, i)
  {
    var blocks: seq<Block> := [];
    if reply.text.Some? && reply.text.value != "" {
      blocks := [Text(reply.text.value, false)];
    }
    ghost var text := ReplyText(reply);
    for j := 0 to |reply.calls|
      invariant blocks == text + ReplyCalls(outside, reply.calls[..j], i)
    {
      assert reply.calls[..j + 1][..j] == reply.calls[..j];
      var c := reply.calls[j];
      var id := if c.id != "" then c.id else outside.mint(i, j);
      var block := ToolUse(id, c.name, outside.parse(c.arguments), false);
      Regroup(text, ReplyCalls(outside, reply.calls[..j], i), [block]);
      blocks := blocks + [block];
    }
    assert reply.calls[..|reply.calls|] == reply.calls;
    message := Message(Assistant, Blocks(blocks));
  }
}
