/**
 The repaired array, read off the input message by message: which blocks stay,
 which messages go, and where the array starts.
 */
module RepairReading {
  import opened Messages
  import opened Sequences
  import opened OrphanRepair

  // ---------------------------------------------------------------- the reading

  /** Message `i` is a user's and answers this call. */
  predicate AnsweredAt(messages: seq<Message>, i: int, id: string) {
    0 <= i < |messages| && messages[i].role == User && messages[i].content.Blocks?
    && exists b :: b in messages[i].content.blocks && b.ToolResult? && b.toolUseId == id
  }

  /** Message `i` is an assistant's and makes this call. */
  predicate AskedAt(messages: seq<Message>, i: int, id: string) {
    0 <= i < |messages| && messages[i].role == Assistant && messages[i].content.Blocks?
    && exists b :: b in messages[i].content.blocks && b.ToolUse? && b.id == id
  }

  /** A block of message `i` stays unless its partner is missing from the neighbour it should be in. */
  predicate Stays(messages: seq<Message>, i: nat, b: Block)
    requires i < |messages|
  {
    match (messages[i].role, b)
    case (Assistant, ToolUse(id, _, _, _)) => AnsweredAt(messages, i + 1, id)
    case (User, ToolResult(id, _, _)) => AskedAt(messages, i - 1, id)
    case _ => true
  }

  function StayingBlock(messages: seq<Message>, i: nat): Block -> seq<Block>
    requires i < |messages|
  {
    (b: Block) => if Stays(messages, i, b) then [b] else []
  }

  /** What is left of message `i`: nothing if it lost every block it had. */
  function LeftOf(messages: seq<Message>, i: nat): seq<Message>
    requires i < |messages|
  {
    var m := messages[i];
    match m.content
    case Plain(_) => [m]
    case Blocks(blocks) =>
      var kept := Collect(StayingBlock(messages, i), blocks);
      if kept == [] && blocks != [] then [] else [m.(content := Blocks(kept))]
  }

  function LeftEach(messages: seq<Message>): seq<seq<Message>> {
    seq(|messages|, i requires 0 <= i < |messages| => LeftOf(messages, i))
  }

  // ---------------------------------------------------------------- block by block

  lemma {:induction false} KeptCalls(blocks: seq<Block>, ids: set<string>, f: Block -> seq<Block>)
    requires forall b :: b in blocks ==> f(b) == if b.ToolUse? && b.id !in ids then [] else [b]
    ensures KeepCalls(blocks, ids) == Collect(f, blocks)
  {
    if blocks != [] {
      KeptCalls(blocks[1..], ids, f);
      CollectFirst(f, blocks);
    }
  }

  lemma {:induction false} KeptAnswers(blocks: seq<Block>, ids: set<string>, f: Block -> seq<Block>)
    requires forall b :: b in blocks ==> f(b) == if b.ToolResult? && b.toolUseId !in ids then [] else [b]
    ensures KeepAnswers(blocks, ids) == Collect(f, blocks)
  {
    if blocks != [] {
      KeptAnswers(blocks[1..], ids, f);
      CollectFirst(f, blocks);
    }
  }

  lemma {:induction false} KeptAll(blocks: seq<Block>, f: Block -> seq<Block>)
    requires forall b :: b in blocks ==> f(b) == [b]
    ensures Collect(f, blocks) == blocks
  {
    if blocks != [] {
      KeptAll(blocks[1..], f);
      CollectFirst(f, blocks);
    }
  }

  lemma {:induction false} NeighbourIds(messages: seq<Message>, i: nat, id: string)
    requires i < |messages|
    ensures id in AnswersAfter(messages, i) <==> AnsweredAt(messages, i + 1, id)
    ensures id in CallsBefore(messages, i) <==> AskedAt(messages, i - 1, id)
  {
  }

  lemma {:induction false} PrunedReads(messages: seq<Message>, i: nat)
    requires i < |messages| && messages[i].content.Blocks?
    ensures Pruned(messages[i], CallsBefore(messages, i), AnswersAfter(messages, i))
            == messages[i].(content := Blocks(Collect(StayingBlock(messages, i), messages[i].content.blocks)))
  {
    var blocks, f := messages[i].content.blocks, StayingBlock(messages, i);
    forall id ensures id in AnswersAfter(messages, i) <==> AnsweredAt(messages, i + 1, id)
              ensures id in CallsBefore(messages, i) <==> AskedAt(messages, i - 1, id)
    {
      NeighbourIds(messages, i, id);
    }
    match messages[i].role
    case Assistant => KeptCalls(blocks, AnswersAfter(messages, i), f);
    case User => KeptAnswers(blocks, CallsBefore(messages, i), f);
    case System => KeptAll(blocks, f);
  }

  lemma {:induction false} LeftReads(messages: seq<Message>, i: nat)
    requires i < |messages|
    ensures KeepUnlessEmptied(messages[i],
                              Pruned(messages[i], CallsBefore(messages, i), AnswersAfter(messages, i)))
            == LeftOf(messages, i)
  {
    if messages[i].content.Blocks? {
      PrunedReads(messages, i);
    }
  }

  lemma {:induction false} PassReads(messages: seq<Message>, n: nat)
    requires n <= |messages|
    ensures LocalRepair(messages, n) == FlatFrom(LeftEach(messages)[..n], 0)
  {
    if n > 0 {
      PassReads(messages, n - 1);
      LeftReads(messages, n - 1);
      FlatSnoc(LeftEach(messages)[..n - 1], LeftOf(messages, n - 1), 0);
      assert LeftEach(messages)[..n] == LeftEach(messages)[..n - 1] + [LeftOf(messages, n - 1)];
    }
  }

  // ---------------------------------------------------------------- the head

  /** Whether an array can start here: a user's message with something that is no tool result. */
  predicate CanStart(m: Message) {
    m.role == User && match m.content
                      case Plain(_) => true
                      case Blocks(blocks) => exists b :: b in blocks && !b.ToolResult?
  }

  function NoResult(b: Block): seq<Block> {
    if b.ToolResult? then [] else [b]
  }

  /** The first message loses its tool results, whose calls are gone. */
  function AsStart(m: Message): Message {
    match m.content
    case Plain(_) => m
    case Blocks(blocks) => m.(content := Blocks(Collect(NoResult, blocks)))
  }

  function FromStart(messages: seq<Message>): seq<Message> {
    if messages == [] then []
    else if CanStart(messages[0]) then [AsStart(messages[0])] + messages[1..]
    else FromStart(messages[1..])
  }

  lemma {:induction false} StartReads(m: Message)
    requires m.role == User && m.content.Blocks?
    ensures CanStart(m) <==> KeepAnswers(m.content.blocks, {}) != []
    ensures AsStart(m) == m.(content := Blocks(KeepAnswers(m.content.blocks, {})))
  {
    var kept := KeepAnswers(m.content.blocks, {});
    KeptAnswers(m.content.blocks, {}, NoResult);
    KeepAnswersMembers(m.content.blocks, {});
    assert kept != [] ==> kept[0] in kept;
  }

  lemma {:induction false} HeadReads(messages: seq<Message>)
    ensures TrimHead(messages) == FromStart(messages)
  {
    if messages != [] {
      if messages[0].role.User? && messages[0].content.Blocks? {
        StartReads(messages[0]);
      }
      HeadReads(messages[1..]);
    }
  }

  /**
   The repair, read off its input: of each message stays what has its partner in
   the neighbour, a message that loses all it had goes, and the result starts at
   the first message that can start an array, without that one's tool results.
   */
  lemma {:induction false} RepairReadsOff(messages: seq<Message>)
    ensures Repaired(messages) == FromStart(FlatFrom(LeftEach(messages), 0))
  {
    PassReads(messages, |messages|);
    assert LeftEach(messages)[..|messages|] == LeftEach(messages);
    HeadReads(LocalRepair(messages, |messages|));
  }
}
