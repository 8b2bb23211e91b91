/**
 What strip_orphaned_tool_results (backend/foreman/message_utils.py) leaves of
 what an array says, tool calls and their answers aside.
 */
module RepairedSpeech {
  import opened Messages
  import opened Options
  import opened OrphanRepair

  // ---------------------------------------------------------------- what is lost

  /** What a message says apart from calling tools or answering calls. */
  function Spoken(message: Message): seq<Block> {
    match (message.role, message.content)
    case (Assistant, Blocks(blocks)) => KeepCalls(blocks, {})
    case (User, Blocks(blocks)) => KeepAnswers(blocks, {})
    case (System, Blocks(blocks)) => blocks
    case (_, Plain(text)) => [Bare(text)]
  }

  function Speech(messages: seq<Message>): seq<Block> {
    if messages == [] then [] else Spoken(messages[0]) + Speech(messages[1..])
  }

  lemma {:induction false} ConcatIsAssociative<T>(a: seq<T>, b: seq<T>, c: seq<T>)
    ensures (a + b) + c == a + (b + c)
  {
  }

  lemma {:induction false} SpeechOfConcat(a: seq<Message>, b: seq<Message>)
    ensures Speech(a + b) == Speech(a) + Speech(b)
  {
    if a == [] {
      assert a + b == b;
    } else {
      var whole, head := a + b, Spoken(a[0]);
      calc {
        Speech(whole);
        { assert whole[0] == a[0] && whole[1..] == a[1..] + b; }
        head + Speech(a[1..] + b);
        { SpeechOfConcat(a[1..], b); }
        head + (Speech(a[1..]) + Speech(b));
        { ConcatIsAssociative(head, Speech(a[1..]), Speech(b)); }
        Speech(a) + Speech(b);
      }
    }
  }

  lemma {:induction false} KeepCallsTwice(blocks: seq<Block>, ids: set<string>)
    ensures KeepCalls(KeepCalls(blocks, ids), {}) == KeepCalls(blocks, {})
  {
    if blocks != [] {
      KeepCallsTwice(blocks[1..], ids);
    }
  }

  lemma {:induction false} KeepAnswersTwice(blocks: seq<Block>, ids: set<string>)
    ensures KeepAnswers(KeepAnswers(blocks, ids), {}) == KeepAnswers(blocks, {})
  {
    if blocks != [] {
      KeepAnswersTwice(blocks[1..], ids);
    }
  }

  lemma {:induction false} PrunedSpeech(m: Message, calls: set<string>, answers: set<string>)
    ensures Speech(KeepUnlessEmptied(m, Pruned(m, calls, answers))) == Spoken(m)
  {
    if m.content.Blocks? {
      KeepCallsTwice(m.content.blocks, answers);
      KeepAnswersTwice(m.content.blocks, calls);
    }
    var p := Pruned(m, calls, answers);
    assert Spoken(p) == Spoken(m);
    assert Speech([p]) == Spoken(p) + Speech([]);
  }

  lemma {:induction false} LocalRepairKeepsSpeech(messages: seq<Message>, n: nat)
    requires n <= |messages|
    ensures Speech(LocalRepair(messages, n)) == Speech(messages[..n])
  {
    if n > 0 {
      LocalRepairKeepsSpeech(messages, n - 1);
      var m := messages[n - 1];
      var calls, answers := CallsBefore(messages, n - 1), AnswersAfter(messages, n - 1);
      var before, kept := LocalRepair(messages, n - 1), KeepUnlessEmptied(m, Pruned(m, calls, answers));
      calc {
        Speech(before + kept);
        { SpeechOfConcat(before, kept); PrunedSpeech(m, calls, answers); }
        Speech(messages[..n - 1]) + Spoken(m);
        { SpeechOfHead(m, []); assert [m] + [] == [m] && Spoken(m) + [] == Spoken(m); }
        Speech(messages[..n - 1]) + Speech([m]);
        { SpeechOfConcat(messages[..n - 1], [m]); assert messages[..n - 1] + [m] == messages[..n]; }
        Speech(messages[..n]);
      }
    }
  }

  lemma {:induction false} SpeechOfHead(head: Message, tail: seq<Message>)
    ensures Speech([head] + tail) == Spoken(head) + Speech(tail)
  {
    assert ([head] + tail)[1..] == tail;
  }

  lemma {:induction false} TrimHeadKeepsSpeech(messages: seq<Message>)
    requires messages != [] && messages[0].role.User? && Spoken(messages[0]) != []
    ensures Speech(TrimHead(messages)) == Speech(messages)
  {
    var head, tail := messages[0], messages[1..];
    if head.content.Blocks? {
      KeepAnswersTwice(head.content.blocks, {});
      SpeechOfHead(head.(content := Blocks(KeepAnswers(head.content.blocks, {}))), tail);
    }
  }

  lemma {:induction false} TrimHeadSpeech(messages: seq<Message>)
    ensures IsSuffix(Speech(TrimHead(messages)), Speech(messages))
  {
    if messages != [] {
      if messages[0].role.User? && Spoken(messages[0]) != [] {
        TrimHeadKeepsSpeech(messages);
      } else {
        TrimHeadSpeech(messages[1..]);
        SuffixIsTransitive(Speech(TrimHead(messages)), Speech(messages[1..]), Speech(messages));
      }
    }
  }

  /**
   Only a head that the provider would refuse is ever lost: what is said in the
   repaired array is a suffix of what was said, and all of it once the array
   starts with a user message that says something.
   */
  lemma {:induction false} RepairKeepsSpeech(messages: seq<Message>)
    ensures IsSuffix(Speech(Repaired(messages)), Speech(messages))
    ensures messages != [] && messages[0].role.User? && Spoken(messages[0]) != []
            ==> Speech(Repaired(messages)) == Speech(messages)
  {
    var n := |messages|;
    LocalRepairKeepsSpeech(messages, n);
    assert messages[..n] == messages;
    TrimHeadSpeech(LocalRepair(messages, n));
    if messages != [] && messages[0].role.User? && Spoken(messages[0]) != [] {
      LocalRepairHead(messages, n);
      TrimHeadKeepsSpeech(LocalRepair(messages, n));
    }
  }

  lemma {:induction false} LocalRepairHead(messages: seq<Message>, n: nat)
    requires 0 < n <= |messages| && messages[0].role.User? && Spoken(messages[0]) != []
    ensures var r := LocalRepair(messages, n);
            r != [] && r[0].role.User? && Spoken(r[0]) == Spoken(messages[0])
  {
    if n > 1 {
      LocalRepairHead(messages, n - 1);
    } else {
      var m := messages[0];
      var p := Pruned(m, {}, AnswersAfter(messages, 0));
      if m.content.Blocks? {
        KeepAnswersTwice(m.content.blocks, {});
      }
      assert LocalRepair(messages, 1) == LocalRepair(messages, 0) + KeepUnlessEmptied(m, p);
      assert p.content != Blocks([]);
    }
  }

  // ---------------------------------------------------------------- what is left, exactly

  /** A message the array can start with: a user's, with something besides tool results. */
  predicate Opens(message: Message) {
    message.role.User? && Spoken(message) != []
  }

  function FromFirstOpener(messages: seq<Message>): seq<Message> {
    if messages == [] || Opens(messages[0]) then messages else FromFirstOpener(messages[1..])
  }

  lemma {:induction false} OpenerExists(messages: seq<Message>)
    ensures FromFirstOpener(messages) != [] <==> exists x :: x in messages && Opens(x)
  {
    if messages != [] {
      OpenerExists(messages[1..]);
      if Opens(messages[0]) {
        assert messages[0] in messages;
      }
      assert forall x :: x in messages <==> x == messages[0] || x in messages[1..];
    }
  }

  lemma {:induction false} FirstOpenerSnoc(messages: seq<Message>, m: Message)
    ensures FromFirstOpener(messages + [m])
            == if FromFirstOpener(messages) != [] then FromFirstOpener(messages) + [m]
               else if Opens(m) then [m] else []
  {
    var all := messages + [m];
    if messages != [] {
      assert all[0] == messages[0] && all[1..] == messages[1..] + [m];
      if !Opens(messages[0]) {
        FirstOpenerSnoc(messages[1..], m);
      }
    } else {
      assert all == [m] && [m][1..] == [];
    }
  }

  /** What has been said since the first opener, if there was one, when `m` comes next. */
  function Heard(before: Option<seq<Block>>, m: Message): Option<seq<Block>> {
    HeardWords(before, Words(m))
  }

  /** What matters of a message here. */
  datatype Utterance = Utterance(opens: bool, words: seq<Block>)

  function Words(m: Message): Utterance {
    Utterance(Opens(m), Spoken(m))
  }

  function HeardWords(before: Option<seq<Block>>, u: Utterance): Option<seq<Block>> {
    if before.Some? then Some(before.value + u.words) else if u.opens then Some(u.words) else None
  }

  function HeardIn(messages: seq<Message>): Option<seq<Block>> {
    if messages == [] then None else Heard(HeardIn(messages[..|messages| - 1]), messages[|messages| - 1])
  }

  lemma {:induction false} HeardMore(messages: seq<Message>, m: Message)
    ensures HeardIn(messages + [m]) == Heard(HeardIn(messages), m)
  {
    assert (messages + [m])[..|messages|] == messages;
  }

  lemma {:induction false} SpeechSnoc(messages: seq<Message>, m: Message)
    ensures Speech(messages + [m]) == Speech(messages) + Spoken(m)
  {
    SpeechOfConcat(messages, [m]);
    SpeechOfHead(m, []);
    assert [m] + [] == [m] && Spoken(m) + [] == Spoken(m);
  }

  lemma {:induction false} HeardFromFirstOpener(messages: seq<Message>)
    ensures HeardIn(messages)
            == var rest := FromFirstOpener(messages); if rest == [] then None else Some(Speech(rest))
  {
    if messages != [] {
      var front, m := messages[..|messages| - 1], messages[|messages| - 1];
      HeardFromFirstOpener(front);
      FirstOpenerSnoc(front, m);
      assert front + [m] == messages;
      SpeechSnoc(FromFirstOpener(front), m);
      SpeechSnoc([], m);
      assert [] + [m] == [m] && [] + Spoken(m) == Spoken(m);
    }
  }

  lemma {:induction false} PrunedSpeaksAlike(m: Message, calls: set<string>, answers: set<string>)
    ensures var p := Pruned(m, calls, answers); p.role == m.role && Spoken(p) == Spoken(m)
  {
    if m.content.Blocks? {
      KeepCallsTwice(m.content.blocks, answers);
      KeepAnswersTwice(m.content.blocks, calls);
    }
  }

  lemma {:induction false} HeardKept(local: seq<Message>, m: Message, p: Message)
    requires p.role == m.role && Spoken(p) == Spoken(m)
    ensures HeardIn(local + KeepUnlessEmptied(m, p)) == Heard(HeardIn(local), m)
  {
    if KeepUnlessEmptied(m, p) == [] {
      assert local + [] == local && Spoken(m) == [];
      assert HeardIn(local).Some? ==> HeardIn(local).value + [] == HeardIn(local).value;
    } else {
      HeardMore(local, p);
    }
  }

  /** `after` adds to `before` what is left of `m`, with its words. */
  ghost predicate KeepsWords(before: seq<Message>, after: seq<Message>, m: Message) {
    exists p: Message :: p.role == m.role && Spoken(p) == Spoken(m) && after == before + KeepUnlessEmptied(m, p)
  }

  lemma {:induction false} WordsAreHeard(before: seq<Message>, after: seq<Message>, m: Message)
    requires KeepsWords(before, after, m)
    ensures HeardIn(after) == Heard(HeardIn(before), m)
  {
    var p: Message :| p.role == m.role && Spoken(p) == Spoken(m) && after == before + KeepUnlessEmptied(m, p);
    HeardKept(before, m, p);
  }

  lemma {:induction false} SameRecursion(a: seq<Option<seq<Block>>>, b: seq<Option<seq<Block>>>,
                                         words: seq<Utterance>, n: nat)
    requires n < |a| == |b| == |words| + 1 && a[0] == b[0]
    requires forall k {:trigger words[k]} :: 0 <= k < |words| ==> a[k + 1] == HeardWords(a[k], words[k])
    requires forall k {:trigger words[k]} :: 0 <= k < |words| ==> b[k + 1] == HeardWords(b[k], words[k])
    ensures a[n] == b[n]
  {
    if n > 0 {
      SameRecursion(a, b, words, n - 1);
      assert a[n] == HeardWords(a[n - 1], words[n - 1]);
    }
  }

  lemma {:induction false} LocalRepairKeepsWords(messages: seq<Message>, n: nat)
    requires 0 < n <= |messages|
    ensures KeepsWords(LocalRepair(messages, n - 1), LocalRepair(messages, n), messages[n - 1])
  {
    PrunedSpeaksAlike(messages[n - 1], CallsBefore(messages, n - 1), AnswersAfter(messages, n - 1));
  }

  function HeardInRepair(messages: seq<Message>): seq<Option<seq<Block>>> {
    seq(|messages| + 1, k requires 0 <= k <= |messages| => HeardIn(LocalRepair(messages, k)))
  }

  function HeardInPrefixes(messages: seq<Message>): seq<Option<seq<Block>>> {
    seq(|messages| + 1, k requires 0 <= k <= |messages| => HeardIn(messages[..k]))
  }

  lemma {:induction false} RepairStages(messages: seq<Message>, k: nat)
    requires k < |messages|
    ensures HeardInRepair(messages)[k + 1] == HeardWords(HeardInRepair(messages)[k], Words(messages[k]))
  {
    LocalRepairKeepsWords(messages, k + 1);
    WordsAreHeard(LocalRepair(messages, k), LocalRepair(messages, k + 1), messages[k]);
  }

  lemma {:induction false} PrefixStages(messages: seq<Message>, k: nat)
    requires k < |messages|
    ensures HeardInPrefixes(messages)[k + 1] == HeardWords(HeardInPrefixes(messages)[k], Words(messages[k]))
  {
    HeardMore(messages[..k], messages[k]);
    assert messages[..k] + [messages[k]] == messages[..k + 1];
  }

  lemma {:induction false} LocalRepairIsHeard(messages: seq<Message>)
    ensures HeardIn(LocalRepair(messages, |messages|)) == HeardIn(messages)
  {
    var n := |messages|;
    var words := seq(n, k requires 0 <= k < n => Words(messages[k]));
    var a, b := HeardInRepair(messages), HeardInPrefixes(messages);
    forall k | 0 <= k < n ensures a[k + 1] == HeardWords(a[k], words[k]) {
      RepairStages(messages, k);
    }
    forall k | 0 <= k < n ensures b[k + 1] == HeardWords(b[k], words[k]) {
      PrefixStages(messages, k);
    }
    SameRecursion(a, b, words, n);
    assert messages[..n] == messages;
  }

  lemma {:induction false} TrimHeadFindsOpener(messages: seq<Message>)
    ensures TrimHead(messages) == [] <==> FromFirstOpener(messages) == []
    ensures Speech(TrimHead(messages)) == Speech(FromFirstOpener(messages))
  {
    if messages != [] {
      if Opens(messages[0]) {
        TrimHeadKeepsSpeech(messages);
      } else {
        TrimHeadFindsOpener(messages[1..]);
      }
    }
  }

  /**
   What a repair says is exactly what the array says from its first opener on;
   in particular nothing is left if and only if no user message has anything
   besides tool results.
   */
  lemma {:induction false} RepairedSaysFromFirstOpener(messages: seq<Message>)
    ensures Speech(Repaired(messages)) == Speech(FromFirstOpener(messages))
    ensures Repaired(messages) != [] <==> exists x :: x in messages && Opens(x)
  {
    var n := |messages|;
    LocalRepairIsHeard(messages);
    HeardFromFirstOpener(messages);
    HeardFromFirstOpener(LocalRepair(messages, n));
    TrimHeadFindsOpener(LocalRepair(messages, n));
    OpenerExists(messages);
  }
}
