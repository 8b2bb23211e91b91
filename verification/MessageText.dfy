/**
 The size of a message, against the text of its JSON.
 */
module MessageText {
  import opened Strings
  import opened Messages

  /** A list of JSON texts. */
  function ListText(items: seq<string>): string {
    "[" + Join(", ", items) + "]"
  }

  function RoleName(role: Role): string {
    match role
    case User => "user"
    case Assistant => "assistant"
    case System => "system"
  }

  /** A message with its content already written out. */
  function ObjectText(role: Role, content: string): string {
    "{\"role\": \"" + RoleName(role) + "\", \"content\": " + content + "}"
  }

  /** The lengths in `sizes` are those of the texts `items` of the blocks. */
  predicate Describes(sizes: Sizes, blocks: seq<Block>, items: seq<string>) {
    |items| == |blocks| && forall i :: 0 <= i < |blocks| ==> |items[i]| == sizes.block(blocks[i])
  }

  lemma {:induction false} JoinLengthFirst(items: seq<string>)
    requires |items| > 1
    ensures |Join(", ", items)| == |items[0]| + 2 + |Join(", ", items[1..])|
  {
    var front, rest := items[..|items| - 1], items[1..];
    if |items| > 2 {
      JoinLengthFirst(front);
      assert front[1..] == rest[..|rest| - 1] && rest[|rest| - 1] == items[|items| - 1];
    }
  }

  lemma {:induction false} ListLength(sizes: Sizes, blocks: seq<Block>, items: seq<string>)
    requires Describes(sizes, blocks, items)
    ensures BlocksLength(sizes, blocks) == |ListText(items)|
  {
    if |blocks| > 1 {
      JoinLengthFirst(items);
      ListLength(sizes, blocks[1..], items[1..]);
    }
  }

  /** A message costs a quarter of the length of its JSON, rounded down, and an array the sum of its messages. */
  lemma {:induction false} TokensReadOff(sizes: Sizes, m: Message, content: string, rest: seq<Message>)
    requires match m.content
             case Plain(text) => |content| == sizes.text(text)
             case Blocks(blocks) => exists items :: Describes(sizes, blocks, items) && content == ListText(items)
    ensures Tokens(sizes, [m] + rest) == |ObjectText(m.role, content)| / 4 + Tokens(sizes, rest)
    ensures Tokens(sizes, []) == 0
  {
    if m.content.Blocks? {
      var items :| Describes(sizes, m.content.blocks, items) && content == ListText(items);
      ListLength(sizes, m.content.blocks, items);
    }
    assert ([m] + rest)[1..] == rest;
  }
}
