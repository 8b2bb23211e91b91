/**
 How long a run's requests carry the human turn. Every round adds the reply and
 the tool results behind it, and cutting the array from the front can reach it;
 from then on nothing is left to send, because tool results cannot open an array.
 */
module HumanStaysHeard {
  import opened Options
  import opened Iteration
  import opened Messages
  import opened OrphanRepair
  import opened RepairedSpeech
  import opened CacheMarks
  import opened ContextBudget
  import opened ConversationHistory
  import opened ForemanRun
  import opened RoundAgreement
  import opened LegacyWindows
  import opened HumanIsHeard

  // ---------------------------------------------------------------- the human turn in an array

  predicate NoOpeners(messages: seq<Message>) {
    forall i {:trigger Opens(messages[i])} :: 0 <= i < |messages| ==> !Opens(messages[i])
  }

  /** The message with `d` more behind it is `human` up to marks, and none of those can open an array. */
  predicate Holds(messages: seq<Message>, human: Message, d: nat) {
    && d < |messages|
    && UnmarkMessage(messages[|messages| - 1 - d]) == human
    && NoOpeners(messages[|messages| - d..])
  }

  /** A user message of blocks that opens and answers nothing. */
  predicate IsTurn(human: Message) {
    Opens(human) && human.content.Blocks? && AnswerIds(human) == {}
  }

  lemma {:induction false} KeepAnswersUnmarked(blocks: seq<Block>)
    ensures KeepAnswers(UnmarkBlocks(blocks), {}) == UnmarkBlocks(KeepAnswers(blocks, {}))
  {
    if blocks == [] {
      assert UnmarkBlocks([]) == [];
    } else {
      KeepAnswersUnmarked(blocks[1..]);
      assert UnmarkBlocks(blocks)[1..] == UnmarkBlocks(blocks[1..]);
      var rest := KeepAnswers(blocks[1..], {});
      assert UnmarkBlocks([blocks[0]] + rest) == [Unmark(blocks[0])] + UnmarkBlocks(rest);
    }
  }

  lemma {:induction false} MarksDoNotOpen(m: Message)
    ensures Opens(Normal(m)) <==> Opens(m)
    ensures Opens(UnmarkMessage(m)) <==> Opens(m)
  {
    match m.content
    case Plain(text) => assert KeepAnswers([Text(text, false)], {}) != [];
    case Blocks(blocks) =>
      KeepAnswersUnmarked(blocks);
      assert |UnmarkBlocks(KeepAnswers(blocks, {}))| == |KeepAnswers(blocks, {})|;
  }

  lemma {:induction false} StampedOpensAlike(messages: seq<Message>, i: nat)
    requires i < |messages|
    ensures |Stamped(messages)| == |messages| && (Opens(Stamped(messages)[i]) <==> Opens(messages[i]))
  {
    StampKeepsContent(messages, i);
    MarksDoNotOpen(messages[i]);
    MarksDoNotOpen(Stamped(messages)[i]);
  }

  lemma {:induction false} StampKeepsHuman(messages: seq<Message>, human: Message, d: nat)
    requires Holds(messages, human, d) && human.content.Blocks?
    ensures Holds(Stamped(messages), human, d)
  {
    var n, stamped := |messages|, Stamped(messages);
    StampKeepsContent(messages, n - 1 - d);
    var tail := stamped[n - d..];
    forall i | 0 <= i < |tail| ensures !Opens(tail[i]) {
      StampedOpensAlike(messages, n - d + i);
      assert messages[n - d..][i] == messages[n - d + i];
    }
  }

  lemma {:induction false} BehindGrows(messages: seq<Message>, more: seq<Message>, human: Message, d: nat)
    requires Holds(messages, human, d) && NoOpeners(more)
    ensures Holds(messages + more, human, d + |more|)
  {
    var n := |messages|;
    assert (messages + more)[n - d..] == messages[n - d..] + more;
  }

  /** The turn itself, as it stands in the array. */
  lemma {:induction false} HeldIsTurn(messages: seq<Message>, human: Message, d: nat)
    requires Holds(messages, human, d) && IsTurn(human)
    ensures IsTurn(messages[|messages| - 1 - d])
  {
    var h := messages[|messages| - 1 - d];
    MarksDoNotOpen(h);
    NormalIds(h);
  }

  // ---------------------------------------------------------------- the repair, part by part

  lemma {:induction false} PrunedWithoutAnswers(m: Message, calls: set<string>, answers: set<string>)
    requires AnswerIds(m) == {}
    ensures Pruned(m, calls, answers) == Pruned(m, {}, answers)
  {
    if m.role.User? && m.content.Blocks? {
      KeepAnswersDependsOnAnswerIds(m, calls, {});
    }
  }

  lemma {:induction false} RepairOfFront(all: seq<Message>, x: seq<Message>, y: seq<Message>, k: nat)
    requires all == x + y && k <= |x| && (y != [] ==> AnswerIds(y[0]) == {})
    ensures LocalRepair(all, k) == LocalRepair(x, k)
  {
    if k > 0 {
      RepairOfFront(all, x, y, k - 1);
      assert CallsBefore(all, k - 1) == CallsBefore(x, k - 1);
      assert AnswersAfter(all, k - 1) == AnswersAfter(x, k - 1);
    }
  }

  lemma {:induction false} SamePruned(all: seq<Message>, x: seq<Message>, y: seq<Message>, j: nat)
    requires all == x + y && j < |y| && AnswerIds(y[0]) == {}
    ensures all[|x| + j] == y[j]
    ensures Pruned(y[j], CallsBefore(all, |x| + j), AnswersAfter(all, |x| + j))
            == Pruned(y[j], CallsBefore(y, j), AnswersAfter(y, j))
  {
    var i := |x| + j;
    assert AnswersAfter(all, i) == AnswersAfter(y, j);
    if j == 0 {
      PrunedWithoutAnswers(y[0], CallsBefore(all, i), AnswersAfter(y, 0));
    } else {
      assert CallsBefore(all, i) == CallsBefore(y, j);
    }
  }

  lemma {:induction false} RepairNext(messages: seq<Message>, n: nat, done: seq<Message>, p: Message)
    requires n < |messages| && done == LocalRepair(messages, n)
    requires p == Pruned(messages[n], CallsBefore(messages, n), AnswersAfter(messages, n))
    ensures LocalRepair(messages, n + 1) == done + KeepUnlessEmptied(messages[n], p)
  {
  }

  lemma {:induction false} RepairBoth(all: seq<Message>, i: nat, y: seq<Message>, j: nat, front: seq<Message>)
    requires i < |all| && j < |y| && all[i] == y[j]
    requires Pruned(y[j], CallsBefore(all, i), AnswersAfter(all, i))
             == Pruned(y[j], CallsBefore(y, j), AnswersAfter(y, j))
    requires LocalRepair(all, i) == front + LocalRepair(y, j)
    ensures LocalRepair(all, i + 1) == front + LocalRepair(y, j + 1)
  {
    var p := Pruned(y[j], CallsBefore(y, j), AnswersAfter(y, j));
    RepairNext(all, i, front + LocalRepair(y, j), p);
    RepairNext(y, j, LocalRepair(y, j), p);
    ConcatIsAssociative(front, LocalRepair(y, j), KeepUnlessEmptied(y[j], p));
  }

  lemma {:induction false} RepairOfBack(all: seq<Message>, x: seq<Message>, y: seq<Message>, k: nat,
                                        front: seq<Message>)
    requires all == x + y && k <= |y| && (y != [] ==> AnswerIds(y[0]) == {}) && front == LocalRepair(x, |x|)
    ensures LocalRepair(all, |x| + k) == front + LocalRepair(y, k)
  {
    if k == 0 {
      RepairOfFront(all, x, y, |x|);
    } else {
      RepairOfBack(all, x, y, k - 1, front);
      SamePruned(all, x, y, k - 1);
      RepairBoth(all, |x| + (k - 1), y, k - 1, front);
    }
  }

  /** Where no answers follow, the two sides are repaired apart. */
  lemma {:induction false} RepairSplits(x: seq<Message>, y: seq<Message>)
    requires y != [] ==> AnswerIds(y[0]) == {}
    ensures LocalRepair(x + y, |x + y|) == LocalRepair(x, |x|) + LocalRepair(y, |y|)
  {
    RepairOfBack(x + y, x, y, |y|, LocalRepair(x, |x|));
  }

  lemma {:induction false} TrimHeadStopsAt(front: seq<Message>, rest: seq<Message>) returns (kept: seq<Message>)
    requires rest != [] && IsTurn(rest[0])
    ensures TrimHead(front + rest) == kept + rest
  {
    if front == [] {
      KeepAnswersKeepsAll(rest[0].content.blocks, {});
      kept := [];
      assert front + rest == rest && [rest[0]] + rest[1..] == rest;
    } else if Opens(front[0]) {
      assert (front + rest)[1..] == front[1..] + rest;
      kept := TrimHead(front + rest)[..1] + front[1..];
    } else {
      assert (front + rest)[1..] == front[1..] + rest;
      kept := TrimHeadStopsAt(front[1..], rest);
    }
  }

  /** A round's reply and the results of its calls. */
  predicate IsExchange(a: Message, u: Message) {
    && a.role.Assistant? && a.content.Blocks? && u.role.User? && u.content.Blocks?
    && (forall b :: b in u.content.blocks ==> b.ToolResult?)
    && AnswerIds(u) <= CallIds(a)
  }

  /** The reply says something, or one of its calls is answered. */
  predicate Survives(a: Message, u: Message) {
    a.content.Blocks? && exists b :: b in a.content.blocks && (b.ToolUse? ==> b.id in AnswerIds(u))
  }

  function Weight(a: Message, u: Message): nat {
    if Survives(a, u) then 2 else 1
  }

  lemma {:induction false} OnlyResults(blocks: seq<Block>)
    requires forall b :: b in blocks ==> b.ToolResult?
    ensures KeepAnswers(blocks, {}) == []
  {
    if blocks != [] {
      OnlyResults(blocks[1..]);
    }
  }

  lemma {:induction false} ExchangeDoesNotOpen(a: Message, u: Message)
    requires IsExchange(a, u)
    ensures NoOpeners([a, u])
  {
    OnlyResults(u.content.blocks);
  }

  lemma {:induction false} SurvivorsKept(a: Message, u: Message)
    requires a.content.Blocks?
    ensures KeepCalls(a.content.blocks, AnswerIds(u)) != [] <==> Survives(a, u)
  {
    var kept := KeepCalls(a.content.blocks, AnswerIds(u));
    KeepCallsMembers(a.content.blocks, AnswerIds(u));
    assert kept != [] ==> kept[0] in kept;
  }

  /** The results stay, and the reply too unless all it has are unanswered calls. */
  lemma {:induction false} ExchangeRepaired(a: Message, u: Message) returns (r: seq<Message>)
    requires IsExchange(a, u) && ToolUses(a.content.blocks) != []
    ensures r == LocalRepair([a, u], 2) && |r| == Weight(a, u) && NoOpeners(r)
  {
    var both := [a, u];
    var p := Pruned(a, {}, AnswerIds(u));
    KeepAnswersKeepsAll(u.content.blocks, CallIds(a));
    SurvivorsKept(a, u);
    RepairNext(both, 0, [], p);
    RepairNext(both, 1, KeepUnlessEmptied(a, p), u);
    r := KeepUnlessEmptied(a, p) + KeepUnlessEmptied(u, u);
    OnlyResults(u.content.blocks);
  }

  // ---------------------------------------------------------------- one trimming

  /** A turn that survives the cut is in what is repaired, with all that follows. */
  lemma {:induction false} ContextReaches(cfg: Config, messages: seq<Message>, i: nat)
    requires i < |messages| && messages[i].role.User? && Reached(cfg, messages, i)
    ensures IsSuffix(FitContext(cfg, messages), messages) && |FitContext(cfg, messages)| >= |messages| - i
  {
    var cut := Cut(cfg, messages);
    CutReaches(cfg, messages, i);
    var p := i - (|messages| - |cut|);
    assert cut[p] == messages[i];
    FromFirstUserReaches(cut, p);
    SuffixIsTransitive(FromFirstUser(cut), cut, messages);
  }

  lemma {:induction false} SuffixSplits(fitted: seq<Message>, messages: seq<Message>, i: nat)
    returns (front: seq<Message>)
    requires i <= |messages| && IsSuffix(fitted, messages) && |fitted| >= |messages| - i
    ensures fitted == front + messages[i..]
  {
    var q := |messages| - |fitted|;
    front := messages[q..i];
    assert messages[q..] == messages[q..i] + messages[i..];
  }

  lemma {:induction false} PartsRepaired(front: seq<Message>, kept: seq<Message>, last: seq<Message>)
    requires kept != [] && IsTurn(kept[0]) && Paired(kept)
    requires last != [] ==> AnswerIds(last[0]) == {}
    ensures LocalRepair(front + (kept + last), |front + (kept + last)|)
            == LocalRepair(front, |front|) + (kept + LocalRepair(last, |last|))
  {
    RepairSplits(front, kept + last);
    RepairSplits(kept, last);
    LocalRepairOfPaired(kept, |kept|);
    assert kept[..|kept|] == kept;
  }

  lemma {:induction false} TrimHeadKeeps(front: seq<Message>, kept: seq<Message>, last: seq<Message>)
    returns (head: seq<Message>)
    requires kept != [] && IsTurn(kept[0])
    ensures TrimHead(front + (kept + last)) == head + kept + last
  {
    var rest := kept + last;
    assert rest[0] == kept[0];
    head := TrimHeadStopsAt(front, rest);
    assert head + rest == head + kept + last;
  }

  /** What the repair makes of a turn with a paired tail and one more exchange behind it. */
  lemma {:induction false} RepairedBehindTurn(front: seq<Message>, kept: seq<Message>, last: seq<Message>)
    returns (head: seq<Message>)
    requires kept != [] && IsTurn(kept[0]) && Paired(kept)
    requires last != [] ==> AnswerIds(last[0]) == {}
    ensures Repaired(front + (kept + last)) == head + kept + LocalRepair(last, |last|)
  {
    PartsRepaired(front, kept, last);
    head := TrimHeadKeeps(LocalRepair(front, |front|), kept, LocalRepair(last, |last|));
  }

  lemma {:induction false} SamePosition(front: seq<Message>, kept: seq<Message>, more: seq<Message>, human: Message)
    requires kept != [] && UnmarkMessage(kept[0]) == human && NoOpeners(kept[1..]) && NoOpeners(more)
    ensures Holds(front + kept + more, human, |kept| - 1 + |more|)
  {
    var all := front + kept;
    assert all[|all| - (|kept| - 1)..] == kept[1..];
    BehindGrows(all, more, human, |kept| - 1);
  }

  /** From the turn on, what was sent before needs no repair. */
  lemma {:induction false} TurnAndTail(sent: seq<Message>, human: Message, d: nat, kept: seq<Message>)
    requires IsTurn(human) && WellFormed(sent) && Holds(sent, human, d) && kept == sent[|sent| - 1 - d..]
    ensures |kept| == d + 1 && UnmarkMessage(kept[0]) == human && NoOpeners(kept[1..])
    ensures IsTurn(kept[0]) && Paired(kept)
  {
    HeldIsTurn(sent, human, d);
    assert kept[0] == sent[|sent| - 1 - d];
    assert kept[1..] == sent[|sent| - d..];
    SuffixIsPaired(sent, kept);
  }

  lemma {:induction false} ContextSplits(cfg: Config, sent: seq<Message>, last: seq<Message>, i: nat)
    returns (front: seq<Message>)
    requires i < |sent| && sent[i].role.User? && Reached(cfg, sent + last, i)
    ensures FitContext(cfg, sent + last) == front + (sent[i..] + last)
  {
    var messages := sent + last;
    ContextReaches(cfg, messages, i);
    front := SuffixSplits(FitContext(cfg, messages), messages, i);
    assert messages[i..] == sent[i..] + last;
  }

  lemma {:induction false} TrimmedSplits(cfg: Config, sent: seq<Message>, last: seq<Message>, i: nat,
                                         kept: seq<Message>) returns (head: seq<Message>)
    requires i < |sent| && kept == sent[i..] && Reached(cfg, sent + last, i)
    requires IsTurn(kept[0]) && Paired(kept) && (last != [] ==> AnswerIds(last[0]) == {})
    ensures Trimmed(cfg, sent + last) == head + kept + LocalRepair(last, |last|)
  {
    var front := ContextSplits(cfg, sent, last, i);
    head := RepairedBehindTurn(front, kept, last);
  }

  /** While the turn survives the cut, it is sent, and what follows it is the tail and the repaired exchange. */
  lemma {:induction false} TrimKeepsTurn(cfg: Config, sent: seq<Message>, a: Message, u: Message, human: Message,
                                         i: nat, kept: seq<Message>)
    requires i < |sent| && kept == sent[i..] && Reached(cfg, sent + [a, u], i)
    requires UnmarkMessage(kept[0]) == human && IsTurn(kept[0]) && Paired(kept) && NoOpeners(kept[1..])
    requires IsExchange(a, u) && ToolUses(a.content.blocks) != []
    ensures Holds(Trimmed(cfg, sent + [a, u]), human, |kept| - 1 + Weight(a, u))
  {
    var head := TrimmedSplits(cfg, sent, [a, u], i, kept);
    var r := ExchangeRepaired(a, u);
    SamePosition(head, kept, r, human);
  }

  /** Once it does not, nothing is sent. */
  lemma {:induction false} LostTurnLeavesNothing(cfg: Config, messages: seq<Message>, human: Message, d: nat)
    requires Holds(messages, human, d) && !Reached(cfg, messages, |messages| - 1 - d)
    ensures Trimmed(cfg, messages) == []
  {
    var n := |messages|;
    forall i: nat | i < n ensures !(Opens(messages[i]) && Reached(cfg, messages, i)) {
      if i > n - 1 - d {
        assert messages[n - d..][i - (n - d)] == messages[i];
      } else if Reached(cfg, messages, i) {
        ReachedIsMonotone(cfg, messages, i, n - 1 - d);
      }
    }
    SomethingIsSent(cfg, messages);
  }

  lemma {:induction false} ReachedIsMonotone(cfg: Config, messages: seq<Message>, i: nat, j: nat)
    requires i <= j < |messages| && Reached(cfg, messages, i)
    ensures Reached(cfg, messages, j)
  {
    SuffixTokens(cfg.sizes, messages, i, j);
  }

  lemma {:induction false} NoOpenerNothingSent(cfg: Config, messages: seq<Message>)
    requires NoOpeners(messages)
    ensures Trimmed(cfg, messages) == []
  {
    SomethingIsSent(cfg, messages);
  }

  // ---------------------------------------------------------------- the rounds of a run

  /** How many messages the repair leaves of a round's reply and results. */
  function RoundWeight(cfg: Config, s: RunState, n: int): nat {
    Weight(AssistantMessage(Reply(cfg, s, n)), ToolMessage(cfg, n, Reply(cfg, s, n)))
  }

  /**
   A run before a round: its state, whether no cut so far has reached the human
   turn, and how many messages the rounds have put behind it, before this round
   repairs them and after.
   */
  datatype Track = Track(s: RunState, before: bool, behind: nat, kept: nat)

  /** The human turn survives the cut of this round, too. */
  predicate StillHeard(cfg: Config, t: Track) {
    var n := |t.s.messages|;
    t.before && t.behind < n && Reached(cfg, t.s.messages, n - 1 - t.behind)
  }

  function NextTrack(cfg: Config, t: Track, n: int): Track {
    Track(Round(cfg, t.s, n).0, StillHeard(cfg, t), t.kept + 2, t.kept + RoundWeight(cfg, t.s, n))
  }

  function Rounding(cfg: Config): (Track, nat) -> Track {
    (t: Track, n: nat) => NextTrack(cfg, t, n)
  }

  function CallsTools(cfg: Config): (Track, nat) -> bool {
    (t: Track, n: nat) => Round(cfg, t.s, n).1
  }

  /** The run before round `n`, if it gets there. */
  function TrackAt(cfg: Config, s: RunState, n: nat): Track {
    Iterate(Track(s, true, 0, 0), Rounding(cfg), n)
  }

  /** Rounds 0 to n - 1 all call tools. */
  predicate GoesOn(cfg: Config, s: RunState, n: nat) {
    Along(Track(s, true, 0, 0), Rounding(cfg), CallsTools(cfg), n)
  }

  lemma {:induction false} RoundIsExchange(cfg: Config, s: RunState, n: int)
    requires Round(cfg, s, n).1
    ensures var a, u := AssistantMessage(Reply(cfg, s, n)), ToolMessage(cfg, n, Reply(cfg, s, n));
            && IsExchange(a, u) && ToolUses(a.content.blocks) != []
            && Round(cfg, s, n).0.messages == Stamped(Trimmed(cfg, s.messages)) + [a, u]
  {
    var a, u := AssistantMessage(Reply(cfg, s, n)), ToolMessage(cfg, n, Reply(cfg, s, n));
    assert AnswerIds(u) <= CallIds(a);
    var sent := Stamped(Trimmed(cfg, s.messages));
    assert sent + [a] + [u] == sent + [a, u];
  }

  // ---------------------------------------------------------------- every round of a run

  /**
   Where the human turn is in the array before a round and in `trimmed`, what the
   round sends of it, given whether the cut leaves the turn.
   */
  predicate StageWith(t: Track, trimmed: seq<Message>, heard: bool, human: Message) {
    && (if t.before then Holds(t.s.messages, human, t.behind) else NoOpeners(t.s.messages) && !heard)
    && (if heard then Holds(trimmed, human, t.kept) else trimmed == [])
  }

  predicate Stage(cfg: Config, t: Track, human: Message) {
    StageWith(t, Trimmed(cfg, t.s.messages), StillHeard(cfg, t), human)
  }

  lemma {:induction false} SentAgain(cfg: Config, sent: seq<Message>, a: Message, u: Message, human: Message, d: nat)
    requires IsTurn(human) && WellFormed(sent) && Holds(sent, human, d)
    requires IsExchange(a, u) && ToolUses(a.content.blocks) != []
    requires Reached(cfg, sent + [a, u], |sent| - 1 - d)
    ensures Holds(Trimmed(cfg, sent + [a, u]), human, d + Weight(a, u))
  {
    var i := |sent| - 1 - d;
    TurnAndTail(sent, human, d, sent[i..]);
    TrimKeepsTurn(cfg, sent, a, u, human, i, sent[i..]);
  }

  lemma {:induction false} LostNow(cfg: Config, sent: seq<Message>, last: seq<Message>, human: Message, d: nat)
    requires Holds(sent, human, d) && NoOpeners(last) && !Reached(cfg, sent + last, |sent| - 1 - d)
    ensures Trimmed(cfg, sent + last) == []
  {
    BehindGrows(sent, last, human, d);
    LostTurnLeavesNothing(cfg, sent + last, human, d + |last|);
  }

  /** What one more exchange behind `sent` comes to. */
  lemma {:induction false} NextArray(cfg: Config, sent: seq<Message>, a: Message, u: Message, human: Message, d: nat,
                                     messages: seq<Message>, trimmed: seq<Message>)
    requires IsTurn(human) && WellFormed(sent) && Holds(sent, human, d)
    requires IsExchange(a, u) && ToolUses(a.content.blocks) != []
    requires messages == sent + [a, u] && trimmed == Trimmed(cfg, messages)
    ensures if Reached(cfg, messages, |sent| - 1 - d) then Holds(trimmed, human, d + Weight(a, u)) else trimmed == []
  {
    if Reached(cfg, messages, |sent| - 1 - d) {
      SentAgain(cfg, sent, a, u, human, d);
    } else {
      ExchangeDoesNotOpen(a, u);
      LostNow(cfg, sent, [a, u], human, d);
    }
  }

  lemma {:induction false} TrimmedCanBeSent(cfg: Config, messages: seq<Message>)
    ensures WellFormed(Stamped(Trimmed(cfg, messages)))
  {
    RepairedIsWellFormed(FitContext(cfg, messages));
    StampKeepsWellFormed(Trimmed(cfg, messages));
  }

  lemma {:induction false} SentTurn(cfg: Config, messages: seq<Message>, human: Message, kept: nat)
    requires Holds(Trimmed(cfg, messages), human, kept) && human.content.Blocks?
    ensures var sent := Stamped(Trimmed(cfg, messages));
            WellFormed(sent) && Holds(sent, human, kept)
  {
    StampKeepsHuman(Trimmed(cfg, messages), human, kept);
    TrimmedCanBeSent(cfg, messages);
  }

  lemma {:induction false} StageAfterHeard(v: Track, human: Message, sent: seq<Message>, last: seq<Message>, kept: nat,
                                           trimmed: seq<Message>, heard: bool)
    requires Holds(sent, human, kept) && NoOpeners(last)
    requires v.s.messages == sent + last && v.before && v.behind == kept + |last|
    requires if heard then Holds(trimmed, human, v.kept) else trimmed == []
    ensures StageWith(v, trimmed, heard, human)
  {
    BehindGrows(sent, last, human, kept);
  }

  /** After a round that sent the turn. */
  lemma {:induction false} StageWhenSent(cfg: Config, v: Track, human: Message, sent: seq<Message>, a: Message,
                                         u: Message, kept: nat, trimmed: seq<Message>, heard: bool)
    requires IsTurn(human) && WellFormed(sent) && Holds(sent, human, kept)
    requires IsExchange(a, u) && ToolUses(a.content.blocks) != []
    requires v.s.messages == sent + [a, u] && v.before && v.behind == kept + 2 && v.kept == kept + Weight(a, u)
    requires trimmed == Trimmed(cfg, v.s.messages) && heard == Reached(cfg, v.s.messages, |sent| - 1 - kept)
    ensures StageWith(v, trimmed, heard, human)
  {
    NextArray(cfg, sent, a, u, human, kept, v.s.messages, trimmed);
    ExchangeDoesNotOpen(a, u);
    StageAfterHeard(v, human, sent, [a, u], kept, trimmed, heard);
  }

  /** After one that sent nothing. */
  lemma {:induction false} StageAfterNothing(cfg: Config, v: Track, human: Message, a: Message, u: Message)
    requires IsExchange(a, u) && v.s.messages == [] + [a, u] && !v.before
    ensures Stage(cfg, v, human)
  {
    ExchangeDoesNotOpen(a, u);
    assert [] + [a, u] == [a, u];
    NoOpenerNothingSent(cfg, [a, u]);
  }

  lemma {:induction false} StillHeardAt(cfg: Config, v: Track, i: nat)
    requires v.before && |v.s.messages| == i + 1 + v.behind
    ensures StillHeard(cfg, v) == Reached(cfg, v.s.messages, i)
  {
  }

  lemma {:induction false} StageAfterSent(cfg: Config, v: Track, human: Message, sent: seq<Message>, a: Message,
                                          u: Message, kept: nat, trimmed: seq<Message>, heard: bool)
    requires IsTurn(human) && WellFormed(sent) && Holds(sent, human, kept)
    requires IsExchange(a, u) && ToolUses(a.content.blocks) != []
    requires v.s.messages == sent + [a, u] && v.before && v.behind == kept + 2 && v.kept == kept + Weight(a, u)
    requires trimmed == Trimmed(cfg, v.s.messages) && heard == StillHeard(cfg, v)
    ensures StageWith(v, trimmed, heard, human)
  {
    StillHeardAt(cfg, v, |sent| - 1 - kept);
    StageWhenSent(cfg, v, human, sent, a, u, kept, trimmed, heard);
  }

  lemma {:induction false} NextStage(cfg: Config, v: Track, human: Message, sent: seq<Message>, a: Message, u: Message,
                                     kept: nat)
    requires IsTurn(human) && IsExchange(a, u) && ToolUses(a.content.blocks) != []
    requires if v.before then WellFormed(sent) && Holds(sent, human, kept) else sent == []
    requires v.s.messages == sent + [a, u] && v.behind == kept + 2 && v.kept == kept + Weight(a, u)
    ensures Stage(cfg, v, human)
  {
    if v.before {
      StageAfterSent(cfg, v, human, sent, a, u, kept, Trimmed(cfg, v.s.messages), StillHeard(cfg, v));
    } else {
      StageAfterNothing(cfg, v, human, a, u);
    }
  }

  lemma {:induction false} TrackStep(cfg: Config, t: Track, n: int) returns (a: Message, u: Message)
    requires Round(cfg, t.s, n).1
    ensures IsExchange(a, u) && ToolUses(a.content.blocks) != []
    ensures var v := NextTrack(cfg, t, n);
            && v.s.messages == Stamped(Trimmed(cfg, t.s.messages)) + [a, u] && v.before == StillHeard(cfg, t)
            && v.behind == t.kept + 2 && v.kept == t.kept + Weight(a, u)
  {
    a, u := AssistantMessage(Reply(cfg, t.s, n)), ToolMessage(cfg, n, Reply(cfg, t.s, n));
    RoundIsExchange(cfg, t.s, n);
  }

  /** What a round sends, by the stage before it. */
  lemma {:induction false} StageSent(cfg: Config, t: Track, human: Message, sent: seq<Message>)
    requires IsTurn(human) && Stage(cfg, t, human) && sent == Stamped(Trimmed(cfg, t.s.messages))
    ensures if StillHeard(cfg, t) then WellFormed(sent) && Holds(sent, human, t.kept) else sent == []
  {
    if StillHeard(cfg, t) {
      SentTurn(cfg, t.s.messages, human, t.kept);
    }
  }

  lemma {:induction false} StageGoesOn(cfg: Config, t: Track, n: int, human: Message)
    requires IsTurn(human) && Stage(cfg, t, human) && Round(cfg, t.s, n).1
    ensures Stage(cfg, NextTrack(cfg, t, n), human)
  {
    var a, u := TrackStep(cfg, t, n);
    var sent := Stamped(Trimmed(cfg, t.s.messages));
    StageSent(cfg, t, human, sent);
    NextStage(cfg, NextTrack(cfg, t, n), human, sent, a, u, t.kept);
  }

  lemma {:induction false} StartStage(cfg: Config, s: RunState, human: Message)
    requires IsTurn(human) && human == UnmarkMessage(human) && EndsIn(s.messages, human)
    ensures Stage(cfg, Track(s, true, 0, 0), human)
  {
    AnswersAreAnswerIds(human);
    UtteranceIsSent(cfg, s.messages);
  }

  lemma {:induction false} EveryStage(cfg: Config, s: RunState, human: Message, n: nat)
    requires IsTurn(human) && human == UnmarkMessage(human) && EndsIn(s.messages, human) && GoesOn(cfg, s, n)
    ensures Stage(cfg, TrackAt(cfg, s, n), human)
  {
    var holds := (t: Track) => Stage(cfg, t, human);
    forall t, i: nat | holds(t) && CallsTools(cfg)(t, i) ensures holds(Rounding(cfg)(t, i)) {
      StageGoesOn(cfg, t, i, human);
    }
    StartStage(cfg, s, human);
    IterationKeeps(Track(s, true, 0, 0), Rounding(cfg), CallsTools(cfg), holds, n);
  }

  // ---------------------------------------------------------------- the requests of a run

  /** What round `k` sends. */
  function SentAt(cfg: Config, s: RunState, k: nat): seq<Message> {
    Stamped(Trimmed(cfg, TrackAt(cfg, s, k).s.messages))
  }

  lemma {:induction false} RoundsLoop(cfg: Config, t: Track, n: nat)
    ensures var (v, capped) := Loop(t, Rounding(cfg), CallsTools(cfg), n, cfg.maxRounds);
            Rounds(cfg, t.s, n) == (v.s, capped)
    decreases cfg.maxRounds - n
  {
    if n < cfg.maxRounds {
      var v := NextTrack(cfg, t, n);
      assert v.s == Round(cfg, t.s, n).0;
      if Round(cfg, t.s, n).1 {
        RoundsLoop(cfg, v, n + 1);
      }
    }
  }

  lemma {:induction false} FinishedFrom(cfg: Config, s: RunState, s1: RunState, capped: bool)
    requires Rounds(cfg, s, 0) == (s1, capped)
    ensures Finished(cfg, s) == if capped then Round(cfg, s1, cfg.maxRounds).0 else s1
  {
  }

  lemma {:induction false} TrackAfter(cfg: Config, s: RunState, n: nat, w: RunState)
    requires w == TrackAt(cfg, s, n).s
    ensures TrackAt(cfg, s, n + 1).s == Round(cfg, w, n).0
  {
  }

  lemma {:induction false} CappedAt(cfg: Config, s: RunState) returns (last: nat, capped: bool)
    requires cfg.maxRounds >= 0
    ensures Rounds(cfg, s, 0) == (TrackAt(cfg, s, if capped then last else last + 1).s, capped)
    ensures GoesOn(cfg, s, last) && (capped ==> last == cfg.maxRounds)
  {
    var start := Track(s, true, 0, 0);
    RoundsLoop(cfg, start, 0);
    last, capped := LoopEnds(start, Rounding(cfg), CallsTools(cfg), 0, cfg.maxRounds);
  }

  lemma {:induction false} FinishedAt(cfg: Config, s: RunState) returns (last: nat)
    requires cfg.maxRounds >= 0
    ensures Finished(cfg, s).requests == TrackAt(cfg, s, last + 1).s.requests && GoesOn(cfg, s, last)
  {
    var capped;
    last, capped := CappedAt(cfg, s);
    FinishedFrom(cfg, s, TrackAt(cfg, s, if capped then last else last + 1).s, capped);
    TrackAfter(cfg, s, last, TrackAt(cfg, s, last).s);
  }

  lemma {:induction false} OnlyWrapUp(cfg: Config, s: RunState)
    requires cfg.maxRounds < 0 && s.requests == []
    ensures Finished(cfg, s).requests == [SentAt(cfg, s, 0)] && GoesOn(cfg, s, 0)
  {
    RoundAppends(cfg, s, cfg.maxRounds);
  }

  lemma {:induction false} RequestOf(cfg: Config, s: RunState, last: nat, k: nat)
    requires s.requests == [] && GoesOn(cfg, s, last)
    ensures var requests := TrackAt(cfg, s, last + 1).s.requests;
            |requests| == last + 1 && (k <= last ==> requests[k] == SentAt(cfg, s, k) && GoesOn(cfg, s, k))
  {
    var seen := (t: Track) => t.s.requests;
    var emit := (t: Track) => Stamped(Trimmed(cfg, t.s.messages));
    forall t, i: nat ensures seen(Rounding(cfg)(t, i)) == seen(t) + [emit(t)] {
      RoundAppends(cfg, t.s, i);
    }
    EmittedAlong(Track(s, true, 0, 0), Rounding(cfg), CallsTools(cfg), seen, emit, last, k);
  }

  /** Request `k` of a run is what round `k` sends. */
  lemma {:induction false} RequestAt(cfg: Config, s: RunState, k: nat, requests: seq<seq<Message>>)
    requires s.requests == [] && requests == Finished(cfg, s).requests && k < |requests|
    ensures requests[k] == SentAt(cfg, s, k) && GoesOn(cfg, s, k)
  {
    if cfg.maxRounds < 0 {
      OnlyWrapUp(cfg, s);
    } else {
      var last := FinishedAt(cfg, s);
      RequestOf(cfg, s, last, k);
    }
  }

  // ---------------------------------------------------------------- heard or empty

  /** The turn a run puts last: the live state and the human's own words. */
  function HumanTurn(preamble: string, human: string): Message {
    Message(User, Blocks([StateBlock(preamble), Text(human, false)]))
  }

  lemma {:induction false} HumanTurnIsTurn(preamble: string, human: string)
    ensures var turn := HumanTurn(preamble, human);
            IsTurn(turn) && UnmarkMessage(turn) == turn
  {
    var turn := HumanTurn(preamble, human);
    KeepAnswersKeepsAll(turn.content.blocks, {});
    assert UnmarkBlocks(turn.content.blocks) == turn.content.blocks;
  }

  /** Round `k` sends the turn, with nothing behind it that could open an array, or nothing. */
  lemma {:induction false} SentAtStage(cfg: Config, s: RunState, k: nat, human: Message)
    requires IsTurn(human) && human == UnmarkMessage(human) && EndsIn(s.messages, human) && GoesOn(cfg, s, k)
    ensures var t := TrackAt(cfg, s, k);
            if StillHeard(cfg, t) then Holds(SentAt(cfg, s, k), human, t.kept) else SentAt(cfg, s, k) == []
  {
    EveryStage(cfg, s, human, k);
    StageSent(cfg, TrackAt(cfg, s, k), human, SentAt(cfg, s, k));
  }

  /**
   Every request of every run carries the human turn, with as many messages
   behind it as the rounds so far have left, as long as no cut has reached it;
   from then on every request is empty.
   */
  lemma {:induction false} HeardOrEmpty(cfg: Config, log: seq<Turn>, audit: string, human: string, preamble: string,
                                        k: nat)
    requires k < |Executed(cfg, log, audit, human, preamble).requests|
    ensures var request := Executed(cfg, log, audit, human, preamble).requests[k];
            var t := TrackAt(cfg, Started(cfg, log, audit, human, preamble), k);
            if StillHeard(cfg, t) then Holds(request, HumanTurn(preamble, human), t.kept) else request == []
  {
    var s := Started(cfg, log, audit, human, preamble);
    RequestAt(cfg, s, k, Finished(cfg, s).requests);
    StartEndsInHuman(cfg, log, audit, human, preamble);
    HumanTurnIsTurn(preamble, human);
    SentAtStage(cfg, s, k, HumanTurn(preamble, human));
  }
}
