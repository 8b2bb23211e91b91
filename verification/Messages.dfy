/**
 The provider-shaped messages that every Foreman module passes around: a role
 and either a string or a list of content blocks, and the estimate of how many
 tokens a message costs.
 */
module Messages {

  datatype Role = User | Assistant | System

  /** A content block. All but `Bare` are JSON objects and can carry a cache mark. */
  datatype Block =
    | Text(text: string, marked: bool)
    | ToolUse(id: string, name: string, input: string, marked: bool)
    | ToolResult(toolUseId: string, output: string, marked: bool)
    | Other(payload: string, marked: bool)
    | Bare(literal: string)

  datatype Content = Plain(text: string) | Blocks(blocks: seq<Block>)

  datatype Message = Message(role: Role, content: Content)

  /**
   Lengths of the JSON texts of strings and of single blocks. Left as a
   parameter: nothing below depends on how one block is spelled.
   */
  datatype Sizes = Sizes(text: string -> nat, block: Block -> nat)

  const CHARS_PER_TOKEN := 4

  // The JSON text of a list: brackets, the elements, and ", " between them.
  function BlocksLength(sizes: Sizes, blocks: seq<Block>): nat {
    if blocks == [] then 2
    else if |blocks| == 1 then 2 + sizes.block(blocks[0])
    else sizes.block(blocks[0]) + 2 + BlocksLength(sizes, blocks[1..])
  }

  function ContentLength(sizes: Sizes, content: Content): nat {
    match content
    case Plain(text) => sizes.text(text)
    case Blocks(blocks) => BlocksLength(sizes, blocks)
  }

  // Everything but the content in {"role": "<role>", "content": <content>}.
  function Overhead(role: Role): nat {
    match role
    case User => 29
    case Assistant => 34
    case System => 31
  }

  function MessageTokens(sizes: Sizes, message: Message): nat {
    (ContentLength(sizes, message.content) + Overhead(message.role)) / CHARS_PER_TOKEN
  }

  function Tokens(sizes: Sizes, messages: seq<Message>): nat {
    if messages == [] then 0
    else MessageTokens(sizes, messages[0]) + Tokens(sizes, messages[1..])
  }

  // The ids of the tool calls an assistant message makes.
  function CallIds(message: Message): set<string> {
    if message.role.Assistant? && message.content.Blocks?
    then set b | b in message.content.blocks && b.ToolUse? :: b.id
    else {}
  }

  // The ids of the tool calls a user message answers.
  function AnswerIds(message: Message): set<string> {
    if message.role.User? && message.content.Blocks?
    then set b | b in message.content.blocks && b.ToolResult? :: b.toolUseId
    else {}
  }

  /** `part` is what is left of `whole` after dropping some of its front. */
  ghost predicate IsSuffix<T>(part: seq<T>, whole: seq<T>) {
    |part| <= |whole| && part == whole[|whole| - |part|..]
  }

  lemma {:induction false} SuffixIsTransitive<T>(a: seq<T>, b: seq<T>, c: seq<T>)
    requires IsSuffix(a, b) && IsSuffix(b, c)
    ensures IsSuffix(a, c)
  {
    assert c[|c| - |b|..][|b| - |a|..] == c[|c| - |a|..];
  }
}
