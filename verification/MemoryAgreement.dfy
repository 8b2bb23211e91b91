/**
 Whole runs: memory and log agree from the first round to the last.
 */
module MemoryAgreement {
  import opened Options
  import opened Messages
  import opened OrphanRepair
  import opened CacheMarks
  import opened ConversationHistory
  import opened ForemanRun
  import opened ForemanRunProperties
  import opened RoundAgreement

  // ---------------------------------------------------------------- whole runs

  /** Nothing is trimmed from round `n` on, and every call is answered. */
  ghost predicate Quiet(cfg: Config, s: RunState, n: int)
    decreases cfg.maxRounds - n
  {
    && WithinLimit(cfg, s.messages)
    && (n < cfg.maxRounds ==>
          Answered(cfg, s, n) &&
          (Round(cfg, s, n).1 ==> Quiet(cfg, Round(cfg, s, n).0, n + 1)))
  }

  /**
   After any number of rounds (maxRounds is arbitrary) memory and log agree;
   a run that was capped is ready for its wrap-up round.
   */
  lemma {:induction false} RoundsKeepAgreement(cfg: Config, c: int, s: RunState, n: int, h: nat, preamble: string)
    requires cfg.conversation == Some(c)
    requires Ready(s.messages) && Quiet(cfg, s, n)
    requires Agree(s.messages, Complete(c, s.log), h, preamble)
    ensures var (s1, capped) := Rounds(cfg, s, n);
            Agree(s1.messages, Complete(c, s1.log), h, preamble) &&
            (capped ==> Ready(s1.messages) && WithinLimit(cfg, s1.messages))
    decreases cfg.maxRounds - n
  {
    if n < cfg.maxRounds {
      RoundKeepsAgreement(cfg, c, s, n, h, preamble);
      var (s1, more) := Round(cfg, s, n);
      if more {
        RoundsKeepAgreement(cfg, c, s1, n + 1, h, preamble);
      }
    }
  }

  /** The whole history can be loaded: not too many rows, and within the budget. */
  ghost predicate LoadsWhole(cfg: Config, c: int, log: seq<Turn>) {
    && |OfConversation(log, c)| <= MAX_CONVERSATION_TURNS
    && WithinLimit(cfg, Complete(c, log))
  }

  lemma {:induction false} LoadIsComplete(cfg: Config, c: int, log: seq<Turn>)
    requires cfg.conversation == Some(c) && LoadsWhole(cfg, c, log)
    ensures Load(cfg, log) == Complete(c, log)
  {
  }

  lemma {:induction false} InjectedAgrees(history: seq<Message>, preamble: string)
    requires WellFormed(history) && history != [] && history[|history| - 1].role.User?
    ensures Ready(Injected(history, preamble))
    ensures Agree(Injected(history, preamble), history, |history| - 1, preamble)
  {
    InjectKeepsWellFormed(history, preamble);
  }

  /** The history a run loads ends in its own human turn. */
  lemma {:induction false} HistoryEndsInHuman(cfg: Config, c: int, log: seq<Turn>, audit: string, human: string,
          preamble: string)
    requires cfg.conversation == Some(c)
    ensures var history := Complete(c, Started(cfg, log, audit, human, preamble).log);
            history != [] && history[|history| - 1] == Message(User, Plain(human))
  {
    CompleteSnoc(cfg, c, Appended(cfg, log, System, Plain(audit), false), User, Plain(human), false);
  }

  lemma {:induction false} StartAgrees(cfg: Config, c: int, log: seq<Turn>, audit: string, human: string,
          preamble: string)
    requires cfg.conversation == Some(c)
    requires var s := Started(cfg, log, audit, human, preamble);
             LoadsWhole(cfg, c, s.log) && WellFormed(Complete(c, s.log))
    ensures var s := Started(cfg, log, audit, human, preamble);
            Complete(c, s.log) != [] && Ready(s.messages) &&
            Agree(s.messages, Complete(c, s.log), |Complete(c, s.log)| - 1, preamble)
  {
    var s := Started(cfg, log, audit, human, preamble);
    HistoryEndsInHuman(cfg, c, log, audit, human, preamble);
    LoadIsComplete(cfg, c, s.log);
    InjectedAgrees(Complete(c, s.log), preamble);
  }

  /**
   Memory agrees with the log at the end of every quiet run: its array is the
   reloaded history, whenever that can be reloaded whole.
   */
  lemma {:induction false} MemoryAgreesWithLog(cfg: Config, c: int, log: seq<Turn>, audit: string, human: string,
          preamble: string)
    requires cfg.conversation == Some(c)
    requires var s := Started(cfg, log, audit, human, preamble);
             LoadsWhole(cfg, c, s.log) && WellFormed(Complete(c, s.log)) && Quiet(cfg, s, 0)
    ensures var s := Started(cfg, log, audit, human, preamble);
            var h := |Complete(c, s.log)| - 1;
            var s1 := Finished(cfg, s);
            h >= 0 && Agree(s1.messages, Complete(c, s1.log), h, preamble) &&
            (LoadsWhole(cfg, c, s1.log) ==> Agree(s1.messages, Load(cfg, s1.log), h, preamble))
  {
    StartAgrees(cfg, c, log, audit, human, preamble);
    var s := Started(cfg, log, audit, human, preamble);
    FinishedAgrees(cfg, c, s, |Complete(c, s.log)| - 1, preamble);
  }

  lemma {:induction false} FinishedAgrees(cfg: Config, c: int, s: RunState, h: nat, preamble: string)
    requires cfg.conversation == Some(c)
    requires Ready(s.messages) && Quiet(cfg, s, 0)
    requires Agree(s.messages, Complete(c, s.log), h, preamble)
    ensures var s1 := Finished(cfg, s);
            Agree(s1.messages, Complete(c, s1.log), h, preamble) &&
            (LoadsWhole(cfg, c, s1.log) ==> Agree(s1.messages, Load(cfg, s1.log), h, preamble))
  {
    RoundsKeepAgreement(cfg, c, s, 0, h, preamble);
    var (s1, capped) := Rounds(cfg, s, 0);
    if capped {
      RoundKeepsAgreement(cfg, c, s1, cfg.maxRounds, h, preamble);
    }
    if LoadsWhole(cfg, c, Finished(cfg, s).log) {
      LoadIsComplete(cfg, c, Finished(cfg, s).log);
    }
  }

  // ---------------------------------------------------------------- a quiet run

  lemma {:induction false} FreshHistory(cfg: Config, c: int, audit: string, human: string, preamble: string)
    requires cfg.conversation == Some(c)
    ensures var s := Started(cfg, [], audit, human, preamble);
            |OfConversation(s.log, c)| == 2 && Complete(c, s.log) == [Message(User, Plain(human))]
  {
    var s := Started(cfg, [], audit, human, preamble);
    assert s.log[1..] == [s.log[1]] && s.log[1..][1..] == [];
    assert OfConversation(s.log[1..], c) == [s.log[1]];
    var rows := OfConversation(s.log, c);
    assert rows == [s.log[0], s.log[1]];
    assert rows[1..] == [s.log[1]] && rows[1..][1..] == [];
    assert AsMessages(rows[1..]) == [Message(User, Plain(human))];
  }

  lemma {:induction false} NothingAskedNothingAnswered(cfg: Config, s: RunState, n: int)
    requires ToolUses(Reply(cfg, s, n)) == []
    ensures Answered(cfg, s, n) && !Round(cfg, s, n).1
  {
    var reply := Reply(cfg, s, n);
    NoToolUses(reply);
    NoCallsNoResults(cfg.tools(n, []));
  }

  lemma {:induction false} NoCallsNoResults(results: seq<Block>)
    ensures KeptResults(results, {}) == []
  {
    if results != [] {
      NoCallsNoResults(results[1..]);
    }
  }

  /** For one, the first run of a conversation with a model that calls no tools: any budget, any cap. */
  lemma {:induction false} FreshConversationAgrees(cfg: Config, c: int, audit: string, human: string, preamble: string)
    requires cfg.conversation == Some(c)
    requires forall n: int, request: seq<Message> :: ToolUses(cfg.llm(n, request)) == []
    ensures var s := Started(cfg, [], audit, human, preamble);
            Agree(Finished(cfg, s).messages, Complete(c, Finished(cfg, s).log), 0, preamble)
  {
    var s := Started(cfg, [], audit, human, preamble);
    FreshHistory(cfg, c, audit, human, preamble);
    LoadIsComplete(cfg, c, s.log);
    NothingAskedNothingAnswered(cfg, s, 0);
    MemoryAgreesWithLog(cfg, c, [], audit, human, preamble);
  }
}
