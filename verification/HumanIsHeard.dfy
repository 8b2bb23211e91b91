/**
 Whatever has to be trimmed, the first request of a run carries the human turn.
 */
module HumanIsHeard {
  import opened Messages
  import opened OrphanRepair
  import opened RepairedSpeech
  import opened CacheMarks
  import opened ContextBudget
  import opened ConversationHistory
  import opened ForemanRun
  import opened RoundAgreement

  // ---------------------------------------------------------------- when anything is sent

  ghost predicate EndsIn(messages: seq<Message>, m: Message) {
    messages != [] && messages[|messages| - 1] == m
  }

  ghost predicate HasOpener(messages: seq<Message>) {
    exists x :: x in messages && Opens(x)
  }

  /** Message `i` survives the cut: it is among the newest 20, or what follows it fits the budget. */
  predicate Reached(cfg: Config, messages: seq<Message>, i: nat)
    requires i < |messages|
  {
    if cfg.conversation.None? then |messages| - i <= MAX_HISTORY_MESSAGES
    else i == |messages| - 1 || Tokens(cfg.sizes, messages[i..]) <= cfg.budget
  }

  lemma {:induction false} FromFirstUserKeepsOpeners(messages: seq<Message>)
    ensures HasOpener(FromFirstUser(messages)) <==> HasOpener(messages)
  {
    if messages != [] && !messages[0].role.User? {
      FromFirstUserKeepsOpeners(messages[1..]);
      assert forall x :: x in messages <==> x == messages[0] || x in messages[1..];
    }
  }

  /** The array before its head is dropped. */
  function Cut(cfg: Config, messages: seq<Message>): seq<Message> {
    if cfg.conversation.None? then Window(messages, MAX_HISTORY_MESSAGES)
    else WithinBudget(cfg.sizes, messages, cfg.budget)
  }

  lemma {:induction false} CutReaches(cfg: Config, messages: seq<Message>, i: nat)
    requires i < |messages|
    ensures IsSuffix(Cut(cfg, messages), messages)
    ensures |messages| - i <= |Cut(cfg, messages)| <==> Reached(cfg, messages, i)
  {
    if cfg.conversation.Some? {
      WithinBudgetIsSuffix(cfg.sizes, messages, cfg.budget);
      assert |messages[i..]| == |messages| - i;
      CutIsOptimal(cfg.sizes, messages, cfg.budget, messages[i..]);
    }
  }

  lemma {:induction false} OpenerInCut(cfg: Config, messages: seq<Message>, i: nat)
    requires i < |messages| && Opens(messages[i]) && Reached(cfg, messages, i)
    ensures HasOpener(Cut(cfg, messages))
  {
    CutReaches(cfg, messages, i);
    var cut := Cut(cfg, messages);
    assert cut[i - (|messages| - |cut|)] == messages[i];
    assert messages[i] in cut;
  }

  lemma {:induction false} OpenerOfSuffix(cut: seq<Message>, messages: seq<Message>) returns (i: nat)
    requires IsSuffix(cut, messages) && HasOpener(cut)
    ensures |messages| - |cut| <= i < |messages| && Opens(messages[i])
  {
    var x :| x in cut && Opens(x);
    var k :| 0 <= k < |cut| && cut[k] == x;
    i := |messages| - |cut| + k;
  }

  lemma {:induction false} OpenerOfCut(cfg: Config, messages: seq<Message>) returns (i: nat)
    requires messages != [] && HasOpener(Cut(cfg, messages))
    ensures i < |messages| && Opens(messages[i]) && Reached(cfg, messages, i)
  {
    CutReaches(cfg, messages, 0);
    i := OpenerOfSuffix(Cut(cfg, messages), messages);
    CutReaches(cfg, messages, i);
  }

  lemma {:induction false} CutHasOpener(cfg: Config, messages: seq<Message>)
    ensures HasOpener(Cut(cfg, messages))
            <==> exists i: nat :: i < |messages| && Opens(messages[i]) && Reached(cfg, messages, i)
  {
    if messages != [] && HasOpener(Cut(cfg, messages)) {
      var i := OpenerOfCut(cfg, messages);
    }
    forall i: nat | i < |messages| && Opens(messages[i]) && Reached(cfg, messages, i)
      ensures HasOpener(Cut(cfg, messages))
    {
      OpenerInCut(cfg, messages, i);
    }
  }

  /**
   Something is sent if and only if some user message with anything besides tool
   results survives the cut. Otherwise the array is empty, even if the newest
   message survives.
   */
  lemma {:induction false} SomethingIsSent(cfg: Config, messages: seq<Message>)
    ensures Trimmed(cfg, messages) != []
            <==> exists i: nat :: i < |messages| && Opens(messages[i]) && Reached(cfg, messages, i)
  {
    RepairedSaysFromFirstOpener(FitContext(cfg, messages));
    FromFirstUserKeepsOpeners(Cut(cfg, messages));
    CutHasOpener(cfg, messages);
  }

  /**
   In a conversation a call and its answer that together exceed the budget leave
   only the answer, and an answer of nothing but tool results leaves nothing.
   */
  lemma {:induction false} NothingIsSent(cfg: Config, before: seq<Message>, call: Message, answer: Message)
    requires cfg.conversation.Some? && Tokens(cfg.sizes, [call, answer]) > cfg.budget
    requires answer.role.User? && !Opens(answer)
    ensures FitContext(cfg, before + [call, answer]) == [answer]
    ensures Trimmed(cfg, before + [call, answer]) == []
  {
    var messages := before + [call, answer];
    assert messages[|before|..] == [call, answer];
    CutReaches(cfg, messages, |before|);
    CutReaches(cfg, messages, |before| + 1);
    assert Cut(cfg, messages) == [answer];
    RepairedSaysFromFirstOpener([answer]);
  }

  // ---------------------------------------------------------------- the human is always heard

  /** No tool results that could be dropped. */
  predicate AnswersNothing(m: Message) {
    m.content.Blocks? ==> forall b :: b in m.content.blocks ==> !b.ToolResult?
  }

  /** The array ends in a user message that says what `m` says, and is `m` if that answers nothing. */
  ghost predicate EndsInWordsOf(messages: seq<Message>, m: Message) {
    && messages != [] && messages[|messages| - 1].role.User?
    && Spoken(messages[|messages| - 1]) == Spoken(m)
    && (AnswersNothing(m) ==> messages[|messages| - 1] == m)
  }

  lemma {:induction false} PrunedSpeaker(m: Message, calls: set<string>, answers: set<string>)
    requires Opens(m)
    ensures var p := Pruned(m, calls, answers);
            KeepUnlessEmptied(m, p) == [p] && EndsInWordsOf([p], m)
  {
    PrunedSpeaksAlike(m, calls, answers);
    if m.content.Blocks? && AnswersNothing(m) {
      KeepAnswersKeepsAll(m.content.blocks, calls);
    }
  }

  lemma {:induction false} RepairKeepsWords(messages: seq<Message>)
    requires messages != [] && Opens(messages[|messages| - 1])
    ensures EndsInWordsOf(Repaired(messages), messages[|messages| - 1])
  {
    var n := |messages|;
    var m := messages[n - 1];
    PrunedSpeaker(m, CallsBefore(messages, n - 1), AnswersAfter(messages, n - 1));
    var local := LocalRepair(messages, n);
    assert EndsInWordsOf(local, m);
    TrimHeadKeepsWords(local, m);
  }

  lemma {:induction false} TrimHeadKeepsWords(messages: seq<Message>, m: Message)
    requires Opens(m) && EndsInWordsOf(messages, m)
    ensures EndsInWordsOf(TrimHead(messages), m)
  {
    var head := messages[0];
    if |messages| == 1 {
      PrunedSpeaker(head, {}, {});
    } else if !Opens(head) {
      TrimHeadKeepsWords(messages[1..], m);
    }
  }

  lemma {:induction false} FromFirstUserKeepsUser(messages: seq<Message>)
    requires messages != [] && messages[|messages| - 1].role.User?
    ensures EndsIn(FromFirstUser(messages), messages[|messages| - 1])
  {
    if |messages| > 1 && !messages[0].role.User? {
      FromFirstUserKeepsUser(messages[1..]);
    }
  }

  lemma {:induction false} FitKeepsUser(sizes: Sizes, messages: seq<Message>, budget: int)
    requires messages != [] && messages[|messages| - 1].role.User?
    ensures EndsIn(Fit(sizes, messages, budget), messages[|messages| - 1])
  {
    WithinBudgetIsSuffix(sizes, messages, budget);
    FromFirstUserKeepsUser(WithinBudget(sizes, messages, budget));
  }

  lemma {:induction false} PruneKeepsUser(messages: seq<Message>)
    requires messages != [] && messages[|messages| - 1].role.User?
    ensures EndsIn(Prune(messages, MAX_HISTORY_MESSAGES), messages[|messages| - 1])
  {
    FromFirstUserKeepsUser(Window(messages, MAX_HISTORY_MESSAGES));
  }

  lemma {:induction false} ContextKeepsUser(cfg: Config, messages: seq<Message>)
    requires messages != [] && messages[|messages| - 1].role.User?
    ensures EndsIn(FitContext(cfg, messages), messages[|messages| - 1])
  {
    if cfg.conversation.None? {
      PruneKeepsUser(messages);
    } else {
      FitKeepsUser(cfg.sizes, messages, cfg.budget);
    }
  }

  /**
   However little fits, what the newest message says is sent, whenever it is a
   user message with anything besides tool results; and if it answers nothing
   the message is sent unchanged.
   */
  lemma {:induction false} UtteranceIsSent(cfg: Config, messages: seq<Message>)
    requires messages != [] && Opens(messages[|messages| - 1])
    ensures EndsInWordsOf(Trimmed(cfg, messages), messages[|messages| - 1])
  {
    ContextKeepsUser(cfg, messages);
    RepairKeepsWords(FitContext(cfg, messages));
  }

  lemma {:induction false} LoadEndsInHuman(cfg: Config, log: seq<Turn>, human: string)
    ensures EndsIn(Load(cfg, Appended(cfg, log, User, Plain(human), false)), Message(User, Plain(human)))
  {
    var full := Appended(cfg, log, User, Plain(human), false);
    var turn := full[|log|];
    match cfg.conversation {
      case Some(c) =>
        OfConversationSnoc(log, c, turn);
        FullLoadEnd(cfg.sizes, Last(OfConversation(full, c), MAX_CONVERSATION_TURNS), cfg.budget);
      case None =>
        OfOwnerSnoc(log, cfg.owner, turn);
        LegacyLoadEnd(Last(OfOwner(full, cfg.owner), HISTORY_FETCH_LIMIT));
    }
  }

  lemma {:induction false} FullLoadEnd(sizes: Sizes, rows: seq<Turn>, budget: int)
    requires rows != [] && rows[|rows| - 1].role.User?
    ensures EndsIn(FullLoad(sizes, rows, budget), Message(User, rows[|rows| - 1].content))
  {
    AsMessagesEnd(rows);
    FromFirstUserKeepsUser(AsMessages(rows));
    FitKeepsUser(sizes, FromFirstUser(AsMessages(rows)), budget);
  }

  lemma {:induction false} LegacyLoadEnd(rows: seq<Turn>)
    requires rows != [] && rows[|rows| - 1].role.User?
    ensures EndsIn(FromFirstUser(AsMessages(HumanWindow(rows))), Message(User, rows[|rows| - 1].content))
  {
    HumanWindowEnd(rows);
    AsMessagesEnd(HumanWindow(rows));
    FromFirstUserKeepsUser(AsMessages(HumanWindow(rows)));
  }

  lemma {:induction false} AsMessagesEnd(rows: seq<Turn>)
    requires rows != [] && rows[|rows| - 1].role.User?
    ensures EndsIn(AsMessages(rows), Message(User, rows[|rows| - 1].content))
  {
    var turn := rows[|rows| - 1];
    AsMessagesSnoc(rows[..|rows| - 1], turn);
    assert rows[..|rows| - 1] + [turn] == rows;
  }

  lemma {:induction false} HumanWindowEnd(rows: seq<Turn>)
    requires rows != []
    ensures HumanWindow(rows) != [] && HumanWindow(rows)[|HumanWindow(rows)| - 1] == rows[|rows| - 1]
  {
    if HumanTurns(rows[1..]) >= HUMAN_TURN_WINDOW {
      HumanWindowEnd(rows[1..]);
    }
  }

  lemma {:induction false} UtteranceInRequest(cfg: Config, messages: seq<Message>, last: Message)
    requires EndsIn(messages, last) && Opens(last) && AnswersNothing(last) && last.content.Blocks?
    ensures var request := Stamped(Trimmed(cfg, messages));
            request != [] && UnmarkMessage(request[|request| - 1]) == UnmarkMessage(last)
  {
    UtteranceIsSent(cfg, messages);
    var r := Trimmed(cfg, messages);
    StampKeepsContent(r, |r| - 1);
  }

  lemma {:induction false} StartEndsInHuman(cfg: Config, log: seq<Turn>, audit: string, human: string, preamble: string)
    ensures EndsIn(Started(cfg, log, audit, human, preamble).messages,
                   Message(User, Blocks([StateBlock(preamble), Text(human, false)])))
  {
    LoadEndsInHuman(cfg, Appended(cfg, log, System, Plain(audit), false), human);
  }

  lemma {:induction false} RoundAppends(cfg: Config, s: RunState, n: int)
    ensures Round(cfg, s, n).0.requests == s.requests + [Stamped(Trimmed(cfg, s.messages))]
  {
  }

  predicate Continues(before: seq<seq<Message>>, after: seq<seq<Message>>) {
    before <= after
  }

  lemma {:induction false} RoundContinues(cfg: Config, s: RunState, n: int, after: seq<seq<Message>>)
    requires Continues(Round(cfg, s, n).0.requests, after)
    ensures Continues(s.requests, after)
    ensures Continues(s.requests + [Stamped(Trimmed(cfg, s.messages))], after)
  {
    RoundAppends(cfg, s, n);
  }

  lemma {:induction false} RoundsContinue(cfg: Config, s: RunState, n: int)
    ensures Continues(s.requests, Rounds(cfg, s, n).0.requests)
    decreases cfg.maxRounds - n
  {
    if n < cfg.maxRounds {
      var next := Round(cfg, s, n);
      if next.1 {
        RoundsContinue(cfg, next.0, n + 1);
      }
      RoundContinues(cfg, s, n, Rounds(cfg, s, n).0.requests);
    }
  }

  lemma {:induction false} FirstRoundIsSent(cfg: Config, s: RunState)
    requires 0 < cfg.maxRounds
    ensures Continues(s.requests + [Stamped(Trimmed(cfg, s.messages))], Rounds(cfg, s, 0).0.requests)
  {
    var next := Round(cfg, s, 0);
    if next.1 {
      RoundsContinue(cfg, next.0, 1);
    }
    RoundContinues(cfg, s, 0, Rounds(cfg, s, 0).0.requests);
  }

  lemma {:induction false} FirstRequest(cfg: Config, s: RunState)
    requires s.requests == []
    ensures Finished(cfg, s).requests != [] && Finished(cfg, s).requests[0] == Stamped(Trimmed(cfg, s.messages))
  {
    if 0 < cfg.maxRounds {
      FirstRoundIsSent(cfg, s);
    }
    RoundAppends(cfg, Rounds(cfg, s, 0).0, cfg.maxRounds);
  }

  /** The live state followed by the human's own words, up to a cache mark. */
  ghost predicate EndsInHuman(request: seq<Message>, preamble: string, human: string) {
    request != [] &&
    UnmarkMessage(request[|request| - 1]) == Message(User, Blocks([StateBlock(preamble), Text(human, false)]))
  }

  lemma {:induction false} RequestEndsInHuman(cfg: Config, messages: seq<Message>, preamble: string, human: string)
    requires EndsIn(messages, Message(User, Blocks([StateBlock(preamble), Text(human, false)])))
    ensures EndsInHuman(Stamped(Trimmed(cfg, messages)), preamble, human)
  {
    var last := Message(User, Blocks([StateBlock(preamble), Text(human, false)]));
    KeepAnswersKeepsAll(last.content.blocks, {});
    UtteranceInRequest(cfg, messages, last);
    assert UnmarkBlocks(last.content.blocks) == last.content.blocks;
  }

  /**
   The first request of every run ends in the live state and the human's own
   words, whatever the budget and whatever else had to be dropped.
   */
  lemma {:induction false} HumanIsAlwaysHeard(cfg: Config, log: seq<Turn>, audit: string, human: string,
          preamble: string)
    ensures var requests := Executed(cfg, log, audit, human, preamble).requests;
            requests != [] && EndsInHuman(requests[0], preamble, human)
  {
    var s := Started(cfg, log, audit, human, preamble);
    StartEndsInHuman(cfg, log, audit, human, preamble);
    RequestEndsInHuman(cfg, s.messages, preamble, human);
    FirstRequest(cfg, s);
  }
}
