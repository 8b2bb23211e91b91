/**
 What holds of every Foreman run, whatever the model and the tools answer:
 each array that is sent is one the provider accepts, the human's words are
 always in the first one, and the array in memory stays what reloading the log
 would give.
 */
module ForemanRunProperties {
  import opened Options
  import opened Messages
  import opened OrphanRepair
  import opened CacheMarks
  import opened ContextBudget
  import opened ConversationHistory
  import opened ForemanRun

  // ---------------------------------------------------------------- the repair never adds tokens

  lemma {:induction false} KeepCallsIsShorter(sizes: Sizes, blocks: seq<Block>, ids: set<string>)
    ensures BlocksLength(sizes, KeepCalls(blocks, ids)) <= BlocksLength(sizes, blocks)
  {
    if blocks != [] {
      KeepCallsIsShorter(sizes, blocks[1..], ids);
      var kept := KeepCalls(blocks, ids);
      if kept != KeepCalls(blocks[1..], ids) {
        assert kept[1..] == KeepCalls(blocks[1..], ids);
      }
    }
  }

  lemma {:induction false} KeepAnswersIsShorter(sizes: Sizes, blocks: seq<Block>, ids: set<string>)
    ensures BlocksLength(sizes, KeepAnswers(blocks, ids)) <= BlocksLength(sizes, blocks)
  {
    if blocks != [] {
      KeepAnswersIsShorter(sizes, blocks[1..], ids);
      var kept := KeepAnswers(blocks, ids);
      if kept != KeepAnswers(blocks[1..], ids) {
        assert kept[1..] == KeepAnswers(blocks[1..], ids);
      }
    }
  }

  lemma {:induction false} PrunedIsShorter(sizes: Sizes, m: Message, calls: set<string>, answers: set<string>)
    ensures Tokens(sizes, KeepUnlessEmptied(m, Pruned(m, calls, answers))) <= MessageTokens(sizes, m)
  {
    if m.content.Blocks? {
      KeepCallsIsShorter(sizes, m.content.blocks, answers);
      KeepAnswersIsShorter(sizes, m.content.blocks, calls);
    }
    var p := Pruned(m, calls, answers);
    assert MessageTokens(sizes, p) <= MessageTokens(sizes, m);
    assert Tokens(sizes, [p]) == MessageTokens(sizes, p) + Tokens(sizes, []);
  }

  lemma {:induction false} LocalRepairIsShorter(sizes: Sizes, messages: seq<Message>, n: nat)
    requires n <= |messages|
    ensures Tokens(sizes, LocalRepair(messages, n)) <= Tokens(sizes, messages[..n])
    ensures |LocalRepair(messages, n)| <= n
  {
    if n > 0 {
      LocalRepairIsShorter(sizes, messages, n - 1);
      var m := messages[n - 1];
      var calls, answers := CallsBefore(messages, n - 1), AnswersAfter(messages, n - 1);
      PrunedIsShorter(sizes, m, calls, answers);
      TokensOfConcat(sizes, LocalRepair(messages, n - 1), KeepUnlessEmptied(m, Pruned(m, calls, answers)));
      TokensOfConcat(sizes, messages[..n - 1], [m]);
      assert messages[..n] == messages[..n - 1] + [m];
      assert Tokens(sizes, [m]) == MessageTokens(sizes, m) + Tokens(sizes, []);
    }
  }

  lemma {:induction false} TrimHeadIsShorter(sizes: Sizes, messages: seq<Message>)
    ensures Tokens(sizes, TrimHead(messages)) <= Tokens(sizes, messages)
  {
    if messages != [] {
      var head := messages[0];
      if head.role.User? && head.content.Blocks? && KeepAnswers(head.content.blocks, {}) != [] {
        KeepAnswersIsShorter(sizes, head.content.blocks, {});
        assert TrimHead(messages)[1..] == messages[1..];
      } else if !(head.role.User? && head.content.Plain?) {
        TrimHeadIsShorter(sizes, messages[1..]);
      }
    }
  }

  lemma {:induction false} RepairIsShorter(sizes: Sizes, messages: seq<Message>)
    ensures Tokens(sizes, Repaired(messages)) <= Tokens(sizes, messages)
    ensures |Repaired(messages)| <= |messages|
  {
    LocalRepairIsShorter(sizes, messages, |messages|);
    assert messages[..|messages|] == messages;
    TrimHeadIsShorter(sizes, LocalRepair(messages, |messages|));
  }

  // ---------------------------------------------------------------- every request is acceptable

  /** Within the limit of the run: tokens with a conversation, messages without. */
  ghost predicate WithinLimit(cfg: Config, messages: seq<Message>) {
    if cfg.conversation.None? then |messages| <= MAX_HISTORY_MESSAGES
    else |messages| <= 1 || Tokens(cfg.sizes, messages) <= cfg.budget
  }

  /**
   An array the provider accepts: paired and headed by a user message (or
   empty), at most one cache mark, and, before that mark, some array trimmed to
   the limit.
   */
  ghost predicate Acceptable(cfg: Config, request: seq<Message>) {
    && WellFormed(request)
    && Marks(request) <= 1
    && exists messages {:trigger Trimmed(cfg, messages)} ::
         request == Stamped(Trimmed(cfg, messages)) && WithinLimit(cfg, Trimmed(cfg, messages))
  }

  ghost predicate AllAcceptable(cfg: Config, requests: seq<seq<Message>>) {
    forall r :: r in requests ==> Acceptable(cfg, r)
  }

  lemma {:induction false} TrimmedIsWithinLimit(cfg: Config, messages: seq<Message>)
    ensures WithinLimit(cfg, Trimmed(cfg, messages)) && WellFormed(Trimmed(cfg, messages))
  {
    RepairedIsWellFormed(FitContext(cfg, messages));
    RepairIsShorter(cfg.sizes, FitContext(cfg, messages));
    if cfg.conversation.Some? {
      FitResult(cfg.sizes, messages, cfg.budget);
    }
  }

  lemma {:induction false} RequestIsAcceptable(cfg: Config, messages: seq<Message>)
    ensures Acceptable(cfg, Stamped(Trimmed(cfg, messages)))
  {
    TrimmedIsWithinLimit(cfg, messages);
    StampKeepsWellFormed(Trimmed(cfg, messages));
    StampLeavesOneMark(Trimmed(cfg, messages));
  }

  function Max(a: int, b: int): int {
    if a >= b then a else b
  }

  lemma {:induction false} RoundSendsOne(cfg: Config, s: RunState, n: int)
    ensures var s1 := Round(cfg, s, n).0;
            |s1.requests| == |s.requests| + 1 &&
            (AllAcceptable(cfg, s.requests) ==> AllAcceptable(cfg, s1.requests))
  {
    RequestIsAcceptable(cfg, s.messages);
    assert Round(cfg, s, n).0.requests == s.requests + [Stamped(Trimmed(cfg, s.messages))];
  }

  lemma {:induction false} RoundsAreAcceptable(cfg: Config, s: RunState, n: nat)
    requires AllAcceptable(cfg, s.requests)
    ensures var (s1, capped) := Rounds(cfg, s, n);
            AllAcceptable(cfg, s1.requests) &&
            |s.requests| <= |s1.requests| <= |s.requests| + Max(cfg.maxRounds - n, 0) &&
            (capped || |s.requests| < |s1.requests|)
    decreases cfg.maxRounds - n
  {
    if n < cfg.maxRounds {
      RoundSendsOne(cfg, s, n);
      var (s1, more) := Round(cfg, s, n);
      if more {
        RoundsAreAcceptable(cfg, s1, n + 1);
      }
    }
  }

  lemma {:induction false} FinishedIsAcceptable(cfg: Config, s: RunState)
    requires s.requests == []
    ensures var requests := Finished(cfg, s).requests;
            AllAcceptable(cfg, requests) && 1 <= |requests| <= Max(cfg.maxRounds, 0) + 1
  {
    RoundsAreAcceptable(cfg, s, 0);
    RoundSendsOne(cfg, Rounds(cfg, s, 0).0, cfg.maxRounds);
  }

  /**
   Whatever the log holds and whatever the model and the tools answer, every
   request of a run is acceptable, and there are at most max(maxRounds, 0) + 1.
   */
  lemma {:induction false} EveryRequestIsAcceptable(cfg: Config, log: seq<Turn>, audit: string, human: string,
          preamble: string)
    ensures var requests := Executed(cfg, log, audit, human, preamble).requests;
            AllAcceptable(cfg, requests) && 1 <= |requests| <= Max(cfg.maxRounds, 0) + 1
  {
    FinishedIsAcceptable(cfg, Started(cfg, log, audit, human, preamble));
  }
}
