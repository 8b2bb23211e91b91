/**
 strip_orphaned_tool_results (backend/foreman/message_utils.py): every tool
 call the provider sees must be answered by the very next message, and every
 answer must follow its call.
 */
module OrphanRepair {
  import opened Messages

  // ---------------------------------------------------------------- what a repaired array is

  /** The tool calls of the message just before position `i`. */
  function CallsBefore(messages: seq<Message>, i: nat): set<string>
    requires i <= |messages|
  {
    if i > 0 then CallIds(messages[i - 1]) else {}
  }

  /** Each message answers exactly the calls of the message before it. */
  ghost predicate PairedSoFar(messages: seq<Message>) {
    forall i {:trigger CallsBefore(messages, i)} :: 0 <= i < |messages| ==>
      AnswerIds(messages[i]) == CallsBefore(messages, i)
  }

  /** Moreover the last message leaves no call open. */
  ghost predicate Paired(messages: seq<Message>) {
    PairedSoFar(messages) && CallsBefore(messages, |messages|) == {}
  }

  /** Paired, and empty or headed by a user message that is not an empty list. */
  ghost predicate WellFormed(messages: seq<Message>) {
    && Paired(messages)
    && (messages != [] ==> messages[0].role.User? && messages[0].content != Blocks([]))
  }

  // ---------------------------------------------------------------- specification

  function AnswersAfter(messages: seq<Message>, i: nat): set<string>
    requires i < |messages|
  {
    if i + 1 < |messages| then AnswerIds(messages[i + 1]) else {}
  }

  /** Keep the tool calls with an id in `ids`, and every other block. */
  function KeepCalls(blocks: seq<Block>, ids: set<string>): (r: seq<Block>)
    ensures |r| <= |blocks|
    ensures |r| == |blocks| ==> r == blocks
  {
    if blocks == [] then []
    else if !blocks[0].ToolUse? || blocks[0].id in ids
    then [blocks[0]] + KeepCalls(blocks[1..], ids)
    else KeepCalls(blocks[1..], ids)
  }

  /** Keep the tool results with an id in `ids`, and every other block. */
  function KeepAnswers(blocks: seq<Block>, ids: set<string>): (r: seq<Block>)
    ensures |r| <= |blocks|
    ensures |r| == |blocks| ==> r == blocks
  {
    if blocks == [] then []
    else if !blocks[0].ToolResult? || blocks[0].toolUseId in ids
    then [blocks[0]] + KeepAnswers(blocks[1..], ids)
    else KeepAnswers(blocks[1..], ids)
  }

  /** A message without the tool blocks whose partner is not in its neighbour. */
  function Pruned(message: Message, calls: set<string>, answers: set<string>): Message {
    match (message.role, message.content)
    case (Assistant, Blocks(blocks)) => message.(content := Blocks(KeepCalls(blocks, answers)))
    case (User, Blocks(blocks)) => message.(content := Blocks(KeepAnswers(blocks, calls)))
    case _ => message
  }

  /** Messages that lose their last block go; messages that were empty stay. */
  function KeepUnlessEmptied(before: Message, after: Message): seq<Message> {
    if after != before && after.content == Blocks([]) then [] else [after]
  }

  /** The first `n` messages, each repaired against its neighbours in the input. */
  function LocalRepair(messages: seq<Message>, n: nat): seq<Message>
    requires n <= |messages|
  {
    if n == 0 then []
    else
      LocalRepair(messages, n - 1) +
      KeepUnlessEmptied(messages[n - 1],
                        Pruned(messages[n - 1], CallsBefore(messages, n - 1), AnswersAfter(messages, n - 1)))
  }

  /** Drop the head until it is a user message with something other than answers. */
  function TrimHead(messages: seq<Message>): (r: seq<Message>)
    ensures |r| <= |messages|
  {
    if messages == [] then []
    else if !messages[0].role.User? then TrimHead(messages[1..])
    else
      match messages[0].content
      case Plain(_) => messages
      case Blocks(blocks) =>
        var rest := KeepAnswers(blocks, {});
        if rest == [] then TrimHead(messages[1..])
        else [messages[0].(content := Blocks(rest))] + messages[1..]
  }

  function Repaired(messages: seq<Message>): seq<Message> {
    TrimHead(LocalRepair(messages, |messages|))
  }

  // ---------------------------------------------------------------- the code

  /** strip_orphaned_tool_results, popping and rewriting a copy of the array. */
  method StripOrphanedToolResults(messages: seq<Message>) returns (out: seq<Message>)
    ensures out == Repaired(messages)
  {
    out := PruneUnpaired(messages);
    out := PopUnusableHead(out);
  }

  /** Its first loop: one pass that looks at both neighbours of each message. */
  method PruneUnpaired(messages: seq<Message>) returns (out: seq<Message>)
    ensures out == LocalRepair(messages, |messages|)
  {
    out := messages;
    var i := 0;
    ghost var j := 0;
    while i < |out|
      invariant 0 <= i <= |out| && 0 <= j <= |messages|
      invariant out[..i] == LocalRepair(messages, j) && out[i..] == messages[j..]
      decreases |out| - i
    {
      var msg := out[i];
      ghost var done := out[..i];
      RepairStep(messages, j, done, out);
      SetAt(out, i, msg);
      if msg.role.Assistant? && msg.content.Blocks? {
        var resultIds := {};
        if i + 1 < |out| {
          resultIds := AnswerIds(out[i + 1]);
        }
        var newContent := KeepCalls(msg.content.blocks, resultIds);
        if newContent != msg.content.blocks {
          if newContent == [] {
            PopAt(out, i);
            out := out[..i] + out[i + 1..];
            j := j + 1;
            continue;
          }
          SetAt(out, i, msg.(content := Blocks(newContent)));
          out := out[i := msg.(content := Blocks(newContent))];
        }
      } else if msg.role.User? && msg.content.Blocks? {
        var validIds := {};
        if i > 0 {
          validIds := CallIds(out[i - 1]);
        }
        var newContent := KeepAnswers(msg.content.blocks, validIds);
        if newContent != msg.content.blocks {
          if newContent == [] {
            PopAt(out, i);
            out := out[..i] + out[i + 1..];
            j := j + 1;
            continue;
          }
          SetAt(out, i, msg.(content := Blocks(newContent)));
          out := out[i := msg.(content := Blocks(newContent))];
        }
      }
      i := i + 1;
      j := j + 1;
    }
    assert out == out[..i] && j == |messages|;
  }

  /** Its second loop: answers at the head lost their calls, so drop until stable. */
  method PopUnusableHead(messages: seq<Message>) returns (out: seq<Message>)
    ensures out == TrimHead(messages)
  {
    out := messages;
    while out != []
      invariant TrimHead(out) == TrimHead(messages)
      decreases |out|
    {
      if !out[0].role.User? {
        out := out[1..];
        continue;
      }
      if out[0].content.Blocks? {
        var newContent := KeepAnswers(out[0].content.blocks, {});
        if newContent == [] {
          out := out[1..];
          continue;
        }
        if newContent != out[0].content.blocks {
          KeepAnswersIsIdempotent(out[0].content.blocks, {});
          out := out[0 := out[0].(content := Blocks(newContent))];
        }
      }
      break;
    }
  }

  // ---------------------------------------------------------------- steps of the proof

  lemma {:induction false} KeepCallsMembers(blocks: seq<Block>, ids: set<string>)
    ensures forall b :: b in KeepCalls(blocks, ids) <==> b in blocks && (b.ToolUse? ==> b.id in ids)
  {
    if blocks != [] {
      KeepCallsMembers(blocks[1..], ids);
      assert forall b :: b in blocks <==> b == blocks[0] || b in blocks[1..];
    }
  }

  lemma {:induction false} KeepAnswersMembers(blocks: seq<Block>, ids: set<string>)
    ensures forall b :: b in KeepAnswers(blocks, ids) <==> b in blocks && (b.ToolResult? ==> b.toolUseId in ids)
  {
    if blocks != [] {
      KeepAnswersMembers(blocks[1..], ids);
      assert forall b :: b in blocks <==> b == blocks[0] || b in blocks[1..];
    }
  }

  lemma {:induction false} KeepAnswersIsIdempotent(blocks: seq<Block>, ids: set<string>)
    ensures KeepAnswers(KeepAnswers(blocks, ids), ids) == KeepAnswers(blocks, ids)
  {
    KeepAnswersMembers(blocks, ids);
    KeepAnswersKeepsAll(KeepAnswers(blocks, ids), ids);
  }

  lemma {:induction false} KeepAnswersKeepsAll(blocks: seq<Block>, ids: set<string>)
    requires forall b :: b in blocks && b.ToolResult? ==> b.toolUseId in ids
    ensures KeepAnswers(blocks, ids) == blocks
  {
    if blocks != [] {
      KeepAnswersKeepsAll(blocks[1..], ids);
    }
  }

  lemma {:induction false} AnswersAreAnswerIds(message: Message)
    requires message.role.User? && message.content.Blocks?
    ensures forall b :: b in message.content.blocks && b.ToolResult? ==> b.toolUseId in AnswerIds(message)
  {
  }

  lemma {:induction false} KeepCallsKeepsAll(blocks: seq<Block>, ids: set<string>)
    requires forall b :: b in blocks && b.ToolUse? ==> b.id in ids
    ensures KeepCalls(blocks, ids) == blocks
  {
    if blocks != [] {
      KeepCallsKeepsAll(blocks[1..], ids);
    }
  }

  lemma {:induction false} KeepAnswersCongruence(blocks: seq<Block>, a: set<string>, b: set<string>)
    requires forall x :: x in blocks && x.ToolResult? ==> (x.toolUseId in a <==> x.toolUseId in b)
    ensures KeepAnswers(blocks, a) == KeepAnswers(blocks, b)
  {
    if blocks != [] {
      KeepAnswersCongruence(blocks[1..], a, b);
    }
  }

  lemma {:induction false} KeepAnswersDependsOnAnswerIds(message: Message, a: set<string>, b: set<string>)
    requires message.role.User? && message.content.Blocks?
    requires a * AnswerIds(message) == b * AnswerIds(message)
    ensures KeepAnswers(message.content.blocks, a) == KeepAnswers(message.content.blocks, b)
  {
    forall x | x in message.content.blocks && x.ToolResult?
      ensures x.toolUseId in a <==> x.toolUseId in b
    {
      assert x.toolUseId in AnswerIds(message);
      assert x.toolUseId in a <==> x.toolUseId in a * AnswerIds(message);
      assert x.toolUseId in b <==> x.toolUseId in b * AnswerIds(message);
    }
    KeepAnswersCongruence(message.content.blocks, a, b);
  }

  lemma {:induction false} PrunedIds(message: Message, calls: set<string>, answers: set<string>)
    ensures CallIds(Pruned(message, calls, answers)) == CallIds(message) * answers
    ensures AnswerIds(Pruned(message, calls, answers)) == AnswerIds(message) * calls
  {
    if message.content.Blocks? {
      KeepCallsMembers(message.content.blocks, answers);
      KeepAnswersMembers(message.content.blocks, calls);
    }
  }

  function LastCallIds(messages: seq<Message>): set<string> {
    CallsBefore(messages, |messages|)
  }

  /** The calls the next message can still answer, once some of the array is repaired. */
  lemma {:induction false} LastCalls(messages: seq<Message>, n: nat)
    requires n <= |messages|
    ensures LastCallIds(LocalRepair(messages, n))
         == CallsBefore(messages, n) * (if n < |messages| then AnswerIds(messages[n]) else {})
  {
    if n > 0 {
      LastCalls(messages, n - 1);
      var m := messages[n - 1];
      var calls, answers := CallsBefore(messages, n - 1), AnswersAfter(messages, n - 1);
      PrunedIds(m, calls, answers);
      var p := Pruned(m, calls, answers);
      if KeepUnlessEmptied(m, p) == [] {
        assert CallIds(p) == {} && AnswerIds(p) == {};
        assert LocalRepair(messages, n) == LocalRepair(messages, n - 1);
      } else {
        assert KeepUnlessEmptied(m, p) == [p];
      }
    }
  }

  lemma {:induction false} SetAt<T>(s: seq<T>, i: nat, x: T)
    requires i < |s|
    ensures s[i := x][..i + 1] == s[..i] + [x] && s[i := x][i + 1..] == s[i + 1..]
  {
  }

  lemma {:induction false} PopAt<T>(s: seq<T>, i: nat)
    requires i < |s|
    ensures (s[..i] + s[i + 1..])[..i] == s[..i] && (s[..i] + s[i + 1..])[i..] == s[i + 1..]
  {
  }

  /** What one round of the main loop has to look at and has to produce. */
  lemma {:induction false} RepairStep(messages: seq<Message>, j: nat, done: seq<Message>, out: seq<Message>)
    requires j <= |messages| && done == LocalRepair(messages, j)
    requires |done| < |out| && done == out[..|done|] && out[|done|..] == messages[j..]
    ensures j < |messages| && out[|done|] == messages[j] && out[|done| + 1..] == messages[j + 1..]
    ensures (if |done| + 1 < |out| then AnswerIds(out[|done| + 1]) else {}) == AnswersAfter(messages, j)
    ensures |done| > 0 ==> out[|done| - 1] == done[|done| - 1]
    ensures var m := messages[j];
            m.role.User? && m.content.Blocks? ==>
              KeepAnswers(m.content.blocks, LastCallIds(done))
              == KeepAnswers(m.content.blocks, CallsBefore(messages, j))
    ensures LocalRepair(messages, j + 1)
         == done + KeepUnlessEmptied(messages[j],
                                      Pruned(messages[j], CallsBefore(messages, j), AnswersAfter(messages, j)))
  {
    var i := |done|;
    assert |out| - i == |messages| - j;
    assert out[i] == out[i..][0] == messages[j..][0];
    assert out[i + 1..] == out[i..][1..];
    assert messages[j + 1..] == messages[j..][1..];
    if i + 1 < |out| {
      assert out[i + 1] == out[i..][1] == messages[j..][1];
    }
    LastCalls(messages, j);
    if messages[j].role.User? && messages[j].content.Blocks? {
      KeepAnswersDependsOnAnswerIds(messages[j], LastCallIds(done), CallsBefore(messages, j));
    }
  }

  lemma {:induction false} PairedSnoc(messages: seq<Message>, m: Message)
    requires PairedSoFar(messages) && AnswerIds(m) == LastCallIds(messages)
    ensures PairedSoFar(messages + [m])
  {
    var r := messages + [m];
    forall i | 0 <= i < |r| ensures AnswerIds(r[i]) == CallsBefore(r, i) {
      assert CallsBefore(r, i) == CallsBefore(messages, i);
    }
  }

  /** Each message adds at most one, which answers the calls still open. */
  lemma {:induction false} LocalRepairStep(messages: seq<Message>, n: nat) returns (kept: bool, p: Message)
    requires 0 < n <= |messages|
    ensures LocalRepair(messages, n)
            == if kept then LocalRepair(messages, n - 1) + [p] else LocalRepair(messages, n - 1)
    ensures AnswerIds(p) == LastCallIds(LocalRepair(messages, n - 1))
  {
    var m := messages[n - 1];
    var calls, answers := CallsBefore(messages, n - 1), AnswersAfter(messages, n - 1);
    p := Pruned(m, calls, answers);
    kept := KeepUnlessEmptied(m, p) == [p];
    PrunedIds(m, calls, answers);
    LastCalls(messages, n - 1);
  }

  lemma {:induction false} LocalRepairIsPaired(messages: seq<Message>, n: nat)
    requires n <= |messages|
    ensures PairedSoFar(LocalRepair(messages, n))
  {
    if n > 0 {
      LocalRepairIsPaired(messages, n - 1);
      var kept, p := LocalRepairStep(messages, n);
      if kept {
        PairedSnoc(LocalRepair(messages, n - 1), p);
      }
    }
  }

  /** Paired, but for the answers of the first message. */
  ghost predicate PairedTail(messages: seq<Message>) {
    && (forall i {:trigger CallsBefore(messages, i)} :: 0 < i < |messages| ==>
          AnswerIds(messages[i]) == CallsBefore(messages, i))
    && CallsBefore(messages, |messages|) == {}
  }

  lemma {:induction false} PairedTailOfRest(messages: seq<Message>)
    requires PairedTail(messages) && messages != []
    ensures PairedTail(messages[1..])
  {
    var rest := messages[1..];
    forall i | 0 < i < |rest| ensures AnswerIds(rest[i]) == CallsBefore(rest, i) {
      assert CallsBefore(rest, i) == CallsBefore(messages, i + 1);
    }
    assert |rest| > 0 ==> CallsBefore(rest, |rest|) == CallsBefore(messages, |messages|);
  }

  lemma {:induction false} TrimHeadIsWellFormed(messages: seq<Message>)
    requires PairedTail(messages)
    ensures WellFormed(TrimHead(messages))
  {
    if messages != [] {
      var head := messages[0];
      if head.role.User? && head.content.Plain? {
        assert forall i :: 0 < i < |messages| ==> AnswerIds(messages[i]) == CallsBefore(messages, i);
        assert CallsBefore(messages, 0) == {} == AnswerIds(head);
      } else if head.role.User? && KeepAnswers(head.content.blocks, {}) != [] {
        KeepAnswersMembers(head.content.blocks, {});
        var r := TrimHead(messages);
        assert AnswerIds(r[0]) == {} == CallsBefore(r, 0);
        forall i | 0 < i <= |r| ensures CallsBefore(r, i) == CallsBefore(messages, i) {
        }
      } else {
        PairedTailOfRest(messages);
        TrimHeadIsWellFormed(messages[1..]);
      }
    }
  }

  // ---------------------------------------------------------------- main results

  /** Whatever the input, the repaired array is one the provider accepts. */
  lemma {:induction false} RepairedIsWellFormed(messages: seq<Message>)
    ensures WellFormed(Repaired(messages))
  {
    var n := |messages|;
    LocalRepairIsPaired(messages, n);
    LastCalls(messages, n);
    TrimHeadIsWellFormed(LocalRepair(messages, n));
  }

  lemma {:induction false} LocalRepairOfPaired(messages: seq<Message>, n: nat)
    requires Paired(messages) && n <= |messages|
    ensures LocalRepair(messages, n) == messages[..n]
  {
    if n > 0 {
      LocalRepairOfPaired(messages, n - 1);
      var m := messages[n - 1];
      assert AnswerIds(m) == CallsBefore(messages, n - 1);
      assert AnswersAfter(messages, n - 1) == CallsBefore(messages, n);
      if m.role.Assistant? && m.content.Blocks? {
        forall b | b in m.content.blocks && b.ToolUse? ensures b.id in AnswersAfter(messages, n - 1) {
          assert b.id in CallIds(m);
        }
        KeepCallsKeepsAll(m.content.blocks, AnswersAfter(messages, n - 1));
      } else if m.role.User? && m.content.Blocks? {
        forall b | b in m.content.blocks && b.ToolResult? ensures b.toolUseId in CallsBefore(messages, n - 1) {
          assert b.toolUseId in AnswerIds(m);
        }
        KeepAnswersKeepsAll(m.content.blocks, CallsBefore(messages, n - 1));
      }
      assert messages[..n] == messages[..n - 1] + [m];
    }
  }

  /** The repair leaves an array alone exactly when there is nothing to repair. */
  lemma {:induction false} RepairedIffWellFormed(messages: seq<Message>)
    ensures Repaired(messages) == messages <==> WellFormed(messages)
  {
    RepairedIsWellFormed(messages);
    if WellFormed(messages) && messages != [] {
      LocalRepairOfPaired(messages, |messages|);
      assert messages[..|messages|] == messages;
      if messages[0].content.Blocks? {
        var blocks := messages[0].content.blocks;
        assert AnswerIds(messages[0]) == CallsBefore(messages, 0);
        AnswersAreAnswerIds(messages[0]);
        KeepAnswersKeepsAll(blocks, AnswerIds(messages[0]));
        assert [messages[0]] + messages[1..] == messages;
      }
    }
  }

  lemma {:induction false} RepairIsIdempotent(messages: seq<Message>)
    ensures Repaired(Repaired(messages)) == Repaired(messages)
  {
    RepairedIsWellFormed(messages);
    RepairedIffWellFormed(Repaired(messages));
  }
}
