/**
 When a run sends an empty array: the message window of a run without a
 conversation, the token budget of one with a conversation.
 */
module EmptyRequests {
  import opened Options
  import opened Iteration
  import opened Messages
  import opened OrphanRepair
  import opened RepairedSpeech
  import opened CacheMarks
  import opened ContextBudget
  import opened ConversationHistory
  import opened ForemanRun
  import opened RoundAgreement
  import opened HumanIsHeard
  import opened HumanStaysHeard

  const MAX_FOREMAN_ROUNDS := 10

  // ---------------------------------------------------------------- the message window

  /** A turn that a cut has reached has at least a window of messages behind it, and always more later. */
  predicate InWindow(t: Track) {
    (t.before || t.behind >= MAX_HISTORY_MESSAGES) && t.kept + 2 > t.behind
  }

  lemma {:induction false} HeardInWindow(cfg: Config, t: Track, human: Message)
    requires cfg.conversation.None? && Stage(cfg, t, human) && InWindow(t)
    ensures StillHeard(cfg, t) <==> t.behind < MAX_HISTORY_MESSAGES
  {
  }

  lemma {:induction false} WindowGoesOn(cfg: Config, t: Track, n: int, human: Message)
    requires cfg.conversation.None? && Stage(cfg, t, human) && InWindow(t)
    ensures InWindow(NextTrack(cfg, t, n))
  {
    HeardInWindow(cfg, t, human);
  }

  lemma {:induction false} EveryWindow(cfg: Config, s: RunState, human: Message, n: nat)
    requires cfg.conversation.None? && GoesOn(cfg, s, n)
    requires IsTurn(human) && human == UnmarkMessage(human) && EndsIn(s.messages, human)
    ensures Stage(cfg, TrackAt(cfg, s, n), human) && InWindow(TrackAt(cfg, s, n))
  {
    var holds := (t: Track) => Stage(cfg, t, human) && InWindow(t);
    forall t, i: nat | holds(t) && CallsTools(cfg)(t, i) ensures holds(Rounding(cfg)(t, i)) {
      StageGoesOn(cfg, t, i, human);
      WindowGoesOn(cfg, t, i, human);
    }
    StartStage(cfg, s, human);
    IterationKeeps(Track(s, true, 0, 0), Rounding(cfg), CallsTools(cfg), holds, n);
  }

  lemma {:induction false} StartInHuman(cfg: Config, log: seq<Turn>, audit: string, human: string, preamble: string)
    ensures EndsIn(Started(cfg, log, audit, human, preamble).messages, HumanTurn(preamble, human))
    ensures Started(cfg, log, audit, human, preamble).requests == []
  {
    StartEndsInHuman(cfg, log, audit, human, preamble);
  }

  lemma {:induction false} HeardWhileInWindow(cfg: Config, s: RunState, k: nat, turn: Message)
    requires cfg.conversation.None? && GoesOn(cfg, s, k)
    requires IsTurn(turn) && turn == UnmarkMessage(turn) && EndsIn(s.messages, turn)
    ensures StillHeard(cfg, TrackAt(cfg, s, k)) <==> TrackAt(cfg, s, k).behind < MAX_HISTORY_MESSAGES
  {
    EveryWindow(cfg, s, turn, k);
    HeardInWindow(cfg, TrackAt(cfg, s, k), turn);
  }

  /**
   Without a conversation, a request is empty if and only if the rounds before
   have left at least a window of messages behind the human turn.
   */
  lemma {:induction false} EmptyBeyondWindow(cfg: Config, log: seq<Turn>, audit: string, human: string,
                                             preamble: string, k: nat)
    requires cfg.conversation.None? && k < |Executed(cfg, log, audit, human, preamble).requests|
    ensures Executed(cfg, log, audit, human, preamble).requests[k] == []
            <==> TrackAt(cfg, Started(cfg, log, audit, human, preamble), k).behind >= MAX_HISTORY_MESSAGES
  {
    var s := Started(cfg, log, audit, human, preamble);
    StartInHuman(cfg, log, audit, human, preamble);
    HumanTurnIsTurn(preamble, human);
    RequestAt(cfg, s, k, Finished(cfg, s).requests);
    HeardWhileInWindow(cfg, s, k, HumanTurn(preamble, human));
    HeardOrEmpty(cfg, log, audit, human, preamble, k);
  }

  // ---------------------------------------------------------------- ten rounds

  /** The reply says something, or one of its calls is answered. */
  function Surviving(cfg: Config): (Track, nat) -> bool {
    (t: Track, n: nat) => Survives(AssistantMessage(Reply(cfg, t.s, n)), ToolMessage(cfg, n, Reply(cfg, t.s, n)))
  }

  /** So it is in each of rounds 0 to n - 1. */
  predicate RepliesSurvive(cfg: Config, s: RunState, n: nat) {
    Along(Track(s, true, 0, 0), Rounding(cfg), Surviving(cfg), n)
  }

  lemma {:induction false} KeptCounts(cfg: Config, s: RunState, n: nat)
    ensures TrackAt(cfg, s, n).kept <= 2 * n
    ensures TrackAt(cfg, s, n).kept == 2 * n <==> RepliesSurvive(cfg, s, n)
  {
    CountTo(Track(s, true, 0, 0), Rounding(cfg), (t: Track) => t.kept, Surviving(cfg), n);
  }

  lemma {:induction false} BehindCounts(cfg: Config, s: RunState, n: nat)
    ensures TrackAt(cfg, s, n + 1).behind == TrackAt(cfg, s, n).kept + 2
  {
  }

  lemma {:induction false} BehindIsAtMost(cfg: Config, s: RunState, n: nat)
    ensures TrackAt(cfg, s, n + 1).behind <= 2 * n + 2
  {
    KeptCounts(cfg, s, n);
    BehindCounts(cfg, s, n);
  }

  /** Without a conversation the first ten requests all carry the human's words. */
  lemma {:induction false} TenRequestsAreHeard(cfg: Config, log: seq<Turn>, audit: string, human: string,
                                               preamble: string, k: nat)
    requires cfg.conversation.None? && k < |Executed(cfg, log, audit, human, preamble).requests|
    requires 2 * k < MAX_HISTORY_MESSAGES
    ensures var t := TrackAt(cfg, Started(cfg, log, audit, human, preamble), k);
            Holds(Executed(cfg, log, audit, human, preamble).requests[k], HumanTurn(preamble, human), t.kept)
  {
    if k > 0 {
      BehindIsAtMost(cfg, Started(cfg, log, audit, human, preamble), k - 1);
    }
    EmptyBeyondWindow(cfg, log, audit, human, preamble, k);
    HeardOrEmpty(cfg, log, audit, human, preamble, k);
  }

  /**
   The eleventh, if there is one, is empty if and only if each of the first nine
   replies said something or had a call answered.
   */
  lemma {:induction false} EleventhRequest(cfg: Config, log: seq<Turn>, audit: string, human: string, preamble: string)
    requires cfg.conversation.None? && |Executed(cfg, log, audit, human, preamble).requests| > 10
    ensures Executed(cfg, log, audit, human, preamble).requests[10] == []
            <==> RepliesSurvive(cfg, Started(cfg, log, audit, human, preamble), 9)
  {
    var s := Started(cfg, log, audit, human, preamble);
    EmptyBeyondWindow(cfg, log, audit, human, preamble, 10);
    KeptCounts(cfg, s, 9);
    BehindCounts(cfg, s, 9);
  }

  lemma {:induction false} CappedRequests(cfg: Config, s: RunState)
    requires s.requests == [] && cfg.maxRounds >= 0 && GoesOn(cfg, s, cfg.maxRounds)
    ensures |Finished(cfg, s).requests| == cfg.maxRounds + 1
  {
    var start := Track(s, true, 0, 0);
    RoundsLoop(cfg, start, 0);
    LoopRunsThrough(start, Rounding(cfg), CallsTools(cfg), 0, cfg.maxRounds);
    RequestOf(cfg, s, cfg.maxRounds, 0);
    FinishedFrom(cfg, s, TrackAt(cfg, s, cfg.maxRounds).s, true);
    TrackAfter(cfg, s, cfg.maxRounds, TrackAt(cfg, s, cfg.maxRounds).s);
  }

  /**
   A run without a conversation that uses up its ten rounds is told to wrap up,
   and sends an empty array for it if and only if each of the first nine replies
   said something or had a call answered.
   */
  lemma {:induction false} WrapUpIsEmpty(cfg: Config, log: seq<Turn>, audit: string, human: string, preamble: string)
    requires cfg.conversation.None? && cfg.maxRounds == MAX_FOREMAN_ROUNDS
    requires GoesOn(cfg, Started(cfg, log, audit, human, preamble), MAX_FOREMAN_ROUNDS)
    ensures var requests := Executed(cfg, log, audit, human, preamble).requests;
            && |requests| == MAX_FOREMAN_ROUNDS + 1
            && (requests[MAX_FOREMAN_ROUNDS] == []
                <==> RepliesSurvive(cfg, Started(cfg, log, audit, human, preamble), MAX_FOREMAN_ROUNDS - 1))
  {
    StartInHuman(cfg, log, audit, human, preamble);
    CappedRequests(cfg, Started(cfg, log, audit, human, preamble));
    EleventhRequest(cfg, log, audit, human, preamble);
  }

  // ---------------------------------------------------------------- answered rounds

  /** The round calls tools, and every call is answered. */
  function CallsAndAnswers(cfg: Config): (Track, nat) -> bool {
    (t: Track, n: nat) =>
      && Round(cfg, t.s, n).1
      && AnswerIds(ToolMessage(cfg, n, Reply(cfg, t.s, n))) == CallIds(AssistantMessage(Reply(cfg, t.s, n)))
  }

  lemma {:induction false} AnsweredSurvives(cfg: Config, t: Track, n: nat)
    requires CallsAndAnswers(cfg)(t, n)
    ensures Surviving(cfg)(t, n)
  {
    var reply := Reply(cfg, t.s, n);
    NoToolUses(reply);
    var id :| id in CallIds(AssistantMessage(reply));
    var b :| b in reply && b.ToolUse? && b.id == id;
  }

  /** In particular it is empty if every call of the ten rounds is answered. */
  lemma {:induction false} AnsweredRunEndsEmpty(cfg: Config, log: seq<Turn>, audit: string, human: string,
                                                preamble: string)
    requires cfg.conversation.None? && cfg.maxRounds == MAX_FOREMAN_ROUNDS
    requires Along(Track(Started(cfg, log, audit, human, preamble), true, 0, 0), Rounding(cfg), CallsAndAnswers(cfg),
                   MAX_FOREMAN_ROUNDS)
    ensures var requests := Executed(cfg, log, audit, human, preamble).requests;
            |requests| == MAX_FOREMAN_ROUNDS + 1 && requests[MAX_FOREMAN_ROUNDS] == []
  {
    var start := Track(Started(cfg, log, audit, human, preamble), true, 0, 0);
    forall t, i: nat | CallsAndAnswers(cfg)(t, i) ensures Surviving(cfg)(t, i) {
      AnsweredSurvives(cfg, t, i);
    }
    AlongWeaker(start, Rounding(cfg), CallsAndAnswers(cfg), CallsTools(cfg), MAX_FOREMAN_ROUNDS);
    AlongEarlier(start, Rounding(cfg), CallsAndAnswers(cfg), MAX_FOREMAN_ROUNDS - 1, MAX_FOREMAN_ROUNDS);
    AlongWeaker(start, Rounding(cfg), CallsAndAnswers(cfg), Surviving(cfg), MAX_FOREMAN_ROUNDS - 1);
    WrapUpIsEmpty(cfg, log, audit, human, preamble);
  }

  // ---------------------------------------------------------------- once empty, always empty

  lemma {:induction false} LostStaysLost(cfg: Config, s: RunState, j: nat, k: nat)
    requires j <= k && StillHeard(cfg, TrackAt(cfg, s, k))
    ensures StillHeard(cfg, TrackAt(cfg, s, j))
  {
    HeldBefore(Track(s, true, 0, 0), Rounding(cfg), (t: Track) => StillHeard(cfg, t), j, k);
  }

  /** A run that has sent nothing once sends nothing more, with or without a conversation. */
  lemma {:induction false} EmptyStaysEmpty(cfg: Config, log: seq<Turn>, audit: string, human: string, preamble: string,
                                           j: nat, k: nat)
    requires j <= k < |Executed(cfg, log, audit, human, preamble).requests|
    requires Executed(cfg, log, audit, human, preamble).requests[j] == []
    ensures Executed(cfg, log, audit, human, preamble).requests[k] == []
  {
    var s := Started(cfg, log, audit, human, preamble);
    HeardOrEmpty(cfg, log, audit, human, preamble, j);
    HeardOrEmpty(cfg, log, audit, human, preamble, k);
    if StillHeard(cfg, TrackAt(cfg, s, k)) {
      LostStaysLost(cfg, s, j, k);
    }
  }

  // ---------------------------------------------------------------- the token budget

  /** The reply and the results of round `k` are over the budget by themselves. */
  predicate Oversized(cfg: Config, s: RunState, k: nat) {
    var w := TrackAt(cfg, s, k).s;
    var reply := Reply(cfg, w, k);
    Tokens(cfg.sizes, [AssistantMessage(reply), ToolMessage(cfg, k, reply)]) > cfg.budget
  }

  lemma {:induction false} OversizedSendsNothing(cfg: Config, w: RunState, k: nat)
    requires cfg.conversation.Some? && Round(cfg, w, k).1
    requires Tokens(cfg.sizes, [AssistantMessage(Reply(cfg, w, k)), ToolMessage(cfg, k, Reply(cfg, w, k))]) > cfg.budget
    ensures Trimmed(cfg, Round(cfg, w, k).0.messages) == []
  {
    var a, u := AssistantMessage(Reply(cfg, w, k)), ToolMessage(cfg, k, Reply(cfg, w, k));
    RoundIsExchange(cfg, w, k);
    OnlyResults(u.content.blocks);
    NothingIsSent(cfg, Stamped(Trimmed(cfg, w.messages)), a, u);
  }

  lemma {:induction false} AfterOversized(cfg: Config, s: RunState, k: nat)
    requires cfg.conversation.Some? && GoesOn(cfg, s, k + 1) && Oversized(cfg, s, k)
    ensures SentAt(cfg, s, k + 1) == []
  {
    TrackAfter(cfg, s, k, TrackAt(cfg, s, k).s);
    OversizedSendsNothing(cfg, TrackAt(cfg, s, k).s, k);
  }

  lemma {:induction false} NextIsEmpty(cfg: Config, s: RunState, k: nat, requests: seq<seq<Message>>)
    requires cfg.conversation.Some? && Oversized(cfg, s, k)
    requires s.requests == [] && requests == Finished(cfg, s).requests && k + 1 < |requests|
    ensures requests[k + 1] == []
  {
    RequestAt(cfg, s, k + 1, requests);
    AfterOversized(cfg, s, k);
  }

  /**
   In a conversation, a round whose reply and results are over the budget by
   themselves is followed by an empty request, and so by nothing but those.
   */
  lemma {:induction false} OversizedRoundEndsSending(cfg: Config, log: seq<Turn>, audit: string, human: string,
                                                     preamble: string, k: nat)
    requires cfg.conversation.Some? && k + 1 < |Executed(cfg, log, audit, human, preamble).requests|
    requires Oversized(cfg, Started(cfg, log, audit, human, preamble), k)
    ensures Executed(cfg, log, audit, human, preamble).requests[k + 1] == []
  {
    var s := Started(cfg, log, audit, human, preamble);
    NextIsEmpty(cfg, s, k, Finished(cfg, s).requests);
  }

  lemma {:induction false} LongBlocks(sizes: Sizes, blocks: seq<Block>, low: nat)
    requires blocks != [] && forall b :: b in blocks ==> sizes.block(b) >= low
    ensures BlocksLength(sizes, blocks) >= |blocks| * (low + 2)
  {
    if |blocks| > 1 {
      LongBlocks(sizes, blocks[1..], low);
      assert |blocks| * (low + 2) == (|blocks| - 1) * (low + 2) + (low + 2);
    }
  }

  /** At the real budget, fifteen parallel results of the longest kind are enough. */
  lemma {:induction false} FifteenLongResults(cfg: Config, before: seq<Message>, call: Message, results: seq<Block>)
    requires cfg.conversation.Some? && cfg.budget == FOREMAN_CONTEXT_TOKEN_BUDGET
    requires |results| >= 15 && forall b :: b in results ==> b.ToolResult?
    requires forall b :: b in results ==> cfg.sizes.block(b) >= MAX_TOOL_RESULT_CHARS
    ensures Trimmed(cfg, before + [call, Message(User, Blocks(results))]) == []
  {
    var answer := Message(User, Blocks(results));
    LongBlocks(cfg.sizes, results, MAX_TOOL_RESULT_CHARS);
    assert Tokens(cfg.sizes, [answer]) == MessageTokens(cfg.sizes, answer) + Tokens(cfg.sizes, []);
    assert [call, answer][1..] == [answer];
    OnlyResults(results);
    NothingIsSent(cfg, before, call, answer);
  }
}
