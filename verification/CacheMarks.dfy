/**
 The two edits made in place on the array that is about to be sent
 (backend/foreman/message_utils.py): the live-state block in front of the
 current human turn, and the single cache mark on the last block.
 */
module CacheMarks {
  import opened Messages
  import opened OrphanRepair

  // ---------------------------------------------------------------- specification

  function Unmark(block: Block): Block {
    if block.Bare? then block else block.(marked := false)
  }

  function UnmarkBlocks(blocks: seq<Block>): (r: seq<Block>)
    ensures |r| == |blocks|
    ensures forall k {:trigger r[k]} :: 0 <= k < |r| ==> r[k] == Unmark(blocks[k])
  {
    seq(|blocks|, k requires 0 <= k < |blocks| => Unmark(blocks[k]))
  }

  function UnmarkMessage(message: Message): Message {
    if message.content.Blocks?
    then message.(content := Blocks(UnmarkBlocks(message.content.blocks)))
    else message
  }

  function Unmarked(messages: seq<Message>): (r: seq<Message>)
    ensures |r| == |messages|
    ensures forall i {:trigger r[i]} :: 0 <= i < |r| ==> r[i] == UnmarkMessage(messages[i])
  {
    seq(|messages|, i requires 0 <= i < |messages| => UnmarkMessage(messages[i]))
  }

  /** The position of the last block that can carry a mark, or -1. */
  function LastMarkable(blocks: seq<Block>): (k: int)
    ensures -1 <= k < |blocks|
    ensures k >= 0 ==> !blocks[k].Bare?
    ensures forall j :: k < j < |blocks| ==> blocks[j].Bare?
  {
    if blocks == [] then -1
    else if !blocks[|blocks| - 1].Bare? then |blocks| - 1
    else LastMarkable(blocks[..|blocks| - 1])
  }

  function Mark(block: Block): Block
    requires !block.Bare?
  {
    block.(marked := true)
  }

  /** What stamping makes of the last message. */
  function StampContent(content: Content): Content {
    match content
    case Plain(text) => Blocks([Text(text, true)])
    case Blocks(blocks) =>
      var k := LastMarkable(blocks);
      if k < 0 then content else Blocks(blocks[k := Mark(blocks[k])])
  }

  function Stamped(messages: seq<Message>): seq<Message> {
    if messages == [] then []
    else
      var clean := Unmarked(messages);
      var last := clean[|clean| - 1];
      clean[|clean| - 1 := last.(content := StampContent(last.content))]
  }

  function StateBlock(preamble: string): Block {
    Text(preamble, false)
  }

  function WithState(content: Content, preamble: string): Content {
    match content
    case Plain(text) => Blocks([StateBlock(preamble), Text(text, false)])
    case Blocks(blocks) => Blocks([StateBlock(preamble)] + blocks)
  }

  function Injected(messages: seq<Message>, preamble: string): seq<Message> {
    if messages == [] || !messages[|messages| - 1].role.User? then messages
    else
      var last := messages[|messages| - 1];
      messages[|messages| - 1 := last.(content := WithState(last.content, preamble))]
  }

  // ---------------------------------------------------------------- the code

  /** The message list of one run, edited in place. */
  class MessageArray {
    var items: seq<Message>

    constructor (messages: seq<Message>)
      ensures items == messages
    {
      items := messages;
    }

    /** _inject_state_preamble */
    method InjectStatePreamble(preamble: string)
      modifies this
      ensures items == Injected(old(items), preamble)
    {
      if items == [] || !items[|items| - 1].role.User? {
        return;
      }
      var last := items[|items| - 1];
      match last.content {
        case Plain(text) =>
          items := items[|items| - 1 := last.(content := Blocks([StateBlock(preamble), Text(text, false)]))];
        case Blocks(blocks) =>
          items := items[|items| - 1 := last.(content := Blocks([StateBlock(preamble)] + blocks))];
      }
    }

    /** _stamp_message_cache_breakpoint */
    method StampCacheBreakpoint()
      modifies this
      ensures items == Stamped(old(items))
    {
      ClearMarks();
      if items == [] {
        return;
      }
      var last := items[|items| - 1];
      match last.content {
        case Plain(text) =>
          items := items[|items| - 1 := last.(content := Blocks([Text(text, true)]))];
        case Blocks(blocks) =>
          var k := |blocks| - 1;
          while k >= 0
            invariant -1 <= k < |blocks|
            invariant forall j :: k < j < |blocks| ==> blocks[j].Bare?
          {
            if !blocks[k].Bare? {
              items := items[|items| - 1 := last.(content := Blocks(blocks[k := Mark(blocks[k])]))];
              return;
            }
            k := k - 1;
          }
          assert items[|items| - 1 := last] == items;
      }
    }

    /** Its first loop: earlier marks are cleared, so they never pile up. */
    method ClearMarks()
      modifies this
      ensures items == Unmarked(old(items))
    {
      for i := 0 to |items|
        invariant |items| == |old(items)|
        invariant forall j :: 0 <= j < i ==> items[j] == UnmarkMessage(old(items)[j])
        invariant forall j :: i <= j < |items| ==> items[j] == old(items)[j]
      {
        if items[i].content.Blocks? {
          var blocks := items[i].content.blocks;
          for k := 0 to |blocks|
            invariant |blocks| == |old(items)[i].content.blocks|
            invariant forall j :: 0 <= j < k ==> blocks[j] == Unmark(old(items)[i].content.blocks[j])
            invariant forall j :: k <= j < |blocks| ==> blocks[j] == old(items)[i].content.blocks[j]
          {
            if !blocks[k].Bare? {
              blocks := blocks[k := Unmark(blocks[k])];
            }
          }
          assert blocks == UnmarkBlocks(old(items)[i].content.blocks);
          items := items[i := items[i].(content := Blocks(blocks))];
        }
      }
    }
  }

  // ---------------------------------------------------------------- properties

  function BlockMarks(blocks: seq<Block>): nat {
    if blocks == [] then 0
    else
      var last := blocks[|blocks| - 1];
      BlockMarks(blocks[..|blocks| - 1]) + (if !last.Bare? && last.marked then 1 else 0)
  }

  function MessageMarks(message: Message): nat {
    if message.content.Blocks? then BlockMarks(message.content.blocks) else 0
  }

  /** How many cache marks the array carries. */
  function Marks(messages: seq<Message>): nat {
    if messages == [] then 0
    else Marks(messages[..|messages| - 1]) + MessageMarks(messages[|messages| - 1])
  }

  lemma {:induction false} UnmarkedBlocksHaveNoMarks(blocks: seq<Block>)
    requires forall b :: b in blocks && !b.Bare? ==> !b.marked
    ensures BlockMarks(blocks) == 0
  {
    if blocks != [] {
      UnmarkedBlocksHaveNoMarks(blocks[..|blocks| - 1]);
    }
  }

  lemma {:induction false} OneMarkedBlock(blocks: seq<Block>, k: nat)
    requires k < |blocks| && !blocks[k].Bare?
    requires forall b :: b in blocks && !b.Bare? ==> !b.marked
    ensures BlockMarks(blocks[k := Mark(blocks[k])]) == 1
  {
    var marked := blocks[k := Mark(blocks[k])];
    if k == |blocks| - 1 {
      assert marked[..k] == blocks[..k];
      UnmarkedBlocksHaveNoMarks(blocks[..k]);
    } else {
      assert marked[..|blocks| - 1] == blocks[..|blocks| - 1][k := Mark(blocks[k])];
      OneMarkedBlock(blocks[..|blocks| - 1], k);
    }
  }

  lemma {:induction false} UnmarkedHasNoMarks(messages: seq<Message>)
    requires forall m :: m in messages ==> m == UnmarkMessage(m)
    ensures Marks(messages) == 0
  {
    if messages != [] {
      var last := messages[|messages| - 1];
      assert last in messages;
      if last.content.Blocks? {
        UnmarkIsFixed(last.content.blocks);
        UnmarkedBlocksHaveNoMarks(last.content.blocks);
      }
      UnmarkedHasNoMarks(messages[..|messages| - 1]);
    }
  }

  lemma {:induction false} UnmarkIsFixed(blocks: seq<Block>)
    requires blocks == UnmarkBlocks(blocks)
    ensures forall b :: b in blocks && !b.Bare? ==> !b.marked
  {
    forall b | b in blocks ensures !b.Bare? ==> !b.marked {
      var k :| 0 <= k < |blocks| && blocks[k] == b;
      assert UnmarkBlocks(blocks)[k] == Unmark(b);
    }
  }

  /** True of a last message on which a breakpoint can be set. */
  ghost predicate Markable(message: Message) {
    message.content.Plain? || exists b :: b in message.content.blocks && !b.Bare?
  }

  /**
   However many marks the array carried, it now carries exactly one, or none
   when there is no block to carry it.
   */
  lemma {:induction false} StampLeavesOneMark(messages: seq<Message>)
    ensures Marks(Stamped(messages))
         == if messages != [] && Markable(messages[|messages| - 1]) then 1 else 0
  {
    if messages != [] {
      var n := |messages|;
      var clean := Unmarked(messages);
      var last := clean[n - 1];
      UnmarkTwice(messages);
      UnmarkedHasNoMarks(clean[..n - 1]);
      assert Stamped(messages)[..n - 1] == clean[..n - 1];
      if last.content.Blocks? {
        var blocks := messages[n - 1].content.blocks;
        var k := LastMarkable(last.content.blocks);
        assert UnmarkMessage(last) == last;
        UnmarkIsFixed(last.content.blocks);
        if k >= 0 {
          OneMarkedBlock(last.content.blocks, k);
          assert blocks[k] in blocks;
        } else {
          UnmarkedBlocksHaveNoMarks(last.content.blocks);
          forall b | b in blocks ensures b.Bare? {
            var j :| 0 <= j < |blocks| && blocks[j] == b;
            assert last.content.blocks[j].Bare?;
          }
        }
      } else {
        assert BlockMarks([Text(last.content.text, true)]) == 1;
      }
    }
  }

  lemma {:induction false} UnmarkTwice(messages: seq<Message>)
    ensures forall m :: m in Unmarked(messages) ==> m == UnmarkMessage(m)
    ensures Unmarked(Unmarked(messages)) == Unmarked(messages)
  {
    forall m | m in Unmarked(messages) ensures m == UnmarkMessage(m) {
      var i :| 0 <= i < |messages| && Unmarked(messages)[i] == m;
      if m.content.Blocks? {
        assert UnmarkBlocks(m.content.blocks) == m.content.blocks;
      }
    }
  }

  /** A message with its text as a block and its marks cleared. */
  function Normal(message: Message): Message {
    match message.content
    case Plain(text) => message.(content := Blocks([Text(text, false)]))
    case Blocks(blocks) => UnmarkMessage(message)
  }

  /** Stamping changes nothing but marks and the spelling of a plain text. */
  lemma {:induction false} StampKeepsContent(messages: seq<Message>, i: nat)
    requires i < |messages|
    ensures |Stamped(messages)| == |messages|
    ensures Normal(Stamped(messages)[i]) == Normal(messages[i])
    ensures Stamped(messages)[i].role == messages[i].role
    ensures messages[i].content.Blocks? || i < |messages| - 1
            ==> UnmarkMessage(Stamped(messages)[i]) == UnmarkMessage(messages[i])
  {
    var m, s := messages[i], Stamped(messages)[i];
    if m.content.Blocks? {
      var a, b := m.content.blocks, s.content.blocks;
      assert |a| == |b|;
      forall k | 0 <= k < |a| ensures Unmark(a[k]) == Unmark(b[k]) {
      }
      assert UnmarkBlocks(a) == UnmarkBlocks(b);
    } else if i == |messages| - 1 {
      assert UnmarkBlocks([Text(m.content.text, true)]) == [Text(m.content.text, false)];
    }
  }

  predicate IsMarked(block: Block) {
    !block.Bare? && block.marked
  }

  /** The last block of a list that can carry a mark. */
  predicate IsLastMarkable(blocks: seq<Block>, j: nat) {
    j < |blocks| && !blocks[j].Bare? && forall k :: j < k < |blocks| ==> blocks[k].Bare?
  }

  /**
   Where the mark is: on the block of the last message that can carry one with
   none behind it that can, and on no other block of the array.
   */
  lemma {:induction false} MarkIsOnLastBlock(messages: seq<Message>, i: nat, j: nat)
    requires i < |messages|
    ensures var m := Stamped(messages)[i];
            (i == |messages| - 1 ==> m.content.Blocks?) &&
            (m.content.Blocks? && j < |m.content.blocks| ==>
               (IsMarked(m.content.blocks[j]) <==> i == |messages| - 1 && IsLastMarkable(m.content.blocks, j)))
  {
    var clean := Unmarked(messages)[i];
    if clean.content.Blocks? {
      UnmarkTwice(messages);
      assert clean in Unmarked(messages);
      UnmarkIsFixed(clean.content.blocks);
      if i == |messages| - 1 && j < |clean.content.blocks| {
        StampedBlock(clean.content.blocks, j);
      }
    }
  }

  lemma {:induction false} StampedBlock(blocks: seq<Block>, j: nat)
    requires j < |blocks| && forall b :: b in blocks && !b.Bare? ==> !b.marked
    ensures StampContent(Blocks(blocks)).Blocks? && |StampContent(Blocks(blocks)).blocks| == |blocks|
    ensures var r := StampContent(Blocks(blocks)).blocks;
            IsMarked(r[j]) <==> IsLastMarkable(r, j)
  {
    var k, r := LastMarkable(blocks), StampContent(Blocks(blocks)).blocks;
    assert blocks[j] in blocks;
    if k >= 0 {
      assert !r[k].Bare?;
      assert forall x :: k < x < |r| ==> r[x].Bare?;
    }
  }

  lemma {:induction false} NormalIds(message: Message)
    ensures CallIds(Normal(message)) == CallIds(message)
    ensures AnswerIds(Normal(message)) == AnswerIds(message)
  {
    if message.content.Blocks? {
      var a := message.content.blocks;
      var b := UnmarkBlocks(a);
      forall x | x in a ensures Unmark(x) in b {
        var k :| 0 <= k < |a| && a[k] == x;
        assert b[k] == Unmark(x);
      }
      forall y | y in b ensures exists x :: x in a && y == Unmark(x) {
        var k :| 0 <= k < |b| && b[k] == y;
        assert a[k] in a;
      }
      forall id | id in CallIds(message) ensures id in CallIds(Normal(message)) {
        var x :| x in a && x.ToolUse? && x.id == id;
        assert Unmark(x) in b;
      }
      forall id | id in AnswerIds(message) ensures id in AnswerIds(Normal(message)) {
        var x :| x in a && x.ToolResult? && x.toolUseId == id;
        assert Unmark(x) in b;
      }
    }
  }

  /** Stamping an acceptable array leaves it acceptable. */
  lemma {:induction false} StampKeepsWellFormed(messages: seq<Message>)
    requires WellFormed(messages)
    ensures WellFormed(Stamped(messages))
  {
    var s := Stamped(messages);
    forall i | 0 <= i < |messages|
      ensures CallIds(s[i]) == CallIds(messages[i]) && AnswerIds(s[i]) == AnswerIds(messages[i])
    {
      StampKeepsContent(messages, i);
      NormalIds(s[i]);
      NormalIds(messages[i]);
    }
    SameIdsPaired(messages, s);
    if messages != [] {
      StampKeepsContent(messages, 0);
    }
  }

  lemma {:induction false} SameIdsPaired(a: seq<Message>, b: seq<Message>)
    requires |a| == |b| && Paired(a)
    requires forall i :: 0 <= i < |a| ==> CallIds(b[i]) == CallIds(a[i]) && AnswerIds(b[i]) == AnswerIds(a[i])
    ensures Paired(b)
  {
    forall i | 0 <= i <= |b| ensures CallsBefore(b, i) == CallsBefore(a, i) {
    }
  }

  lemma {:induction false} WithStateIds(message: Message, preamble: string)
    ensures var m := message.(content := WithState(message.content, preamble));
            CallIds(m) == CallIds(message) && AnswerIds(m) == AnswerIds(message)
  {
    if message.content.Blocks? {
      var a := message.content.blocks;
      assert forall x :: x in [StateBlock(preamble)] + a <==> x == StateBlock(preamble) || x in a;
    }
  }

  /** The live state is the first block of a last user message, before what that had; nothing else changes. */
  lemma {:induction false} InjectReadsOff(messages: seq<Message>, preamble: string)
    ensures var after := Injected(messages, preamble);
            if messages == [] || messages[|messages| - 1].role != User then after == messages
            else
              var n, last := |messages|, messages[|messages| - 1];
              && |after| == n && after[..n - 1] == messages[..n - 1]
              && after[n - 1].role == User && after[n - 1].content.Blocks?
              && after[n - 1].content.blocks
                 == [Text(preamble, false)]
                    + match last.content
                      case Plain(text) => [Text(text, false)]
                      case Blocks(blocks) => blocks
  {
  }

  /** So does putting the live state in front of the current turn. */
  lemma {:induction false} InjectKeepsWellFormed(messages: seq<Message>, preamble: string)
    requires WellFormed(messages)
    ensures WellFormed(Injected(messages, preamble))
  {
    if messages != [] {
      WithStateIds(messages[|messages| - 1], preamble);
      SameIdsPaired(messages, Injected(messages, preamble));
    }
  }
}
