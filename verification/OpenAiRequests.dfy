/**
 Foreman runs against an OpenAI-compatible provider: every request that a run
 sends (backend/foreman/run.py) is translated (backend/foreman/llm.py) to a chat
 with every call answered, run after run on the log that the runs themselves
 write.
 */
module OpenAiRequests {
  import opened Options
  import opened Messages
  import opened ContextBudget
  import opened ConversationHistory
  import opened ForemanRun
  import ForemanRunProperties
  import HumanIsHeard
  import CacheMarks
  import OrphanRepair
  import OpenAiTranslation
  import OpenAiPairing
  import Sequences

  // ---------------------------------------------------------------- tidy messages

  /** Named calls from an assistant; from a user either tool results or anything else, not both. */
  predicate TidyBlocks(role: Role, blocks: seq<Block>) {
    match role
    case Assistant => OpenAiPairing.NamesItsCalls(blocks)
    case User => (forall b :: b in blocks ==> b.ToolResult?) || (forall b :: b in blocks ==> !b.ToolResult?)
    case System => true
  }

  predicate Tidy(m: Message) {
    m.content.Blocks? ==> TidyBlocks(m.role, m.content.blocks)
  }

  predicate AllTidy(messages: seq<Message>) {
    forall m :: m in messages ==> Tidy(m)
  }

  predicate TidyLog(log: seq<Turn>) {
    forall t :: t in log ==> Tidy(Message(t.role, t.content))
  }

  /** The model gives every tool call an identifier. */
  ghost predicate ModelNamesCalls(cfg: Config) {
    forall n: int, request: seq<Message> :: OpenAiPairing.NamesItsCalls(cfg.llm(n, request))
  }

  lemma {:induction false} ResultsDoNotSpeak(blocks: seq<Block>)
    requires TidyBlocks(User, blocks)
    ensures !OpenAiPairing.SpeaksBeforeAnswering(blocks)
    ensures (forall b :: b in blocks ==> b.ToolResult?) ==>
              Sequences.Collect(OpenAiTranslation.UserPart, blocks) == []
  {
    if blocks != [] {
      var front, b := blocks[..|blocks| - 1], blocks[|blocks| - 1];
      assert b in blocks;
      ResultsDoNotSpeak(front);
    }
  }

  lemma {:induction false} TidyIsClean(messages: seq<Message>)
    requires AllTidy(messages)
    ensures OpenAiPairing.AllClean(messages)
  {
    forall k | 0 <= k < |messages| ensures OpenAiPairing.Clean(messages[k]) {
      assert messages[k] in messages;
      if messages[k].role.User? && messages[k].content.Blocks? {
        ResultsDoNotSpeak(messages[k].content.blocks);
      }
    }
  }

  // ---------------------------------------------------------------- loading

  lemma {:induction false} LogSubset(part: seq<Turn>, log: seq<Turn>)
    requires TidyLog(log) && forall t :: t in part ==> t in log
    ensures TidyLog(part)
  {
  }

  lemma {:induction false} OfConversationIsInLog(log: seq<Turn>, c: int)
    ensures forall t :: t in OfConversation(log, c) ==> t in log
  {
    if log != [] {
      OfConversationIsInLog(log[1..], c);
    }
  }

  lemma {:induction false} OfOwnerIsInLog(log: seq<Turn>, owner: string)
    ensures forall t :: t in OfOwner(log, owner) ==> t in log
  {
    if log != [] {
      OfOwnerIsInLog(log[1..], owner);
    }
  }

  lemma {:induction false} HumanWindowIsInRows(rows: seq<Turn>)
    ensures forall t :: t in HumanWindow(rows) ==> t in rows
  {
    if rows != [] {
      HumanWindowIsInRows(rows[1..]);
    }
  }

  lemma {:induction false} AsMessagesAreTidy(rows: seq<Turn>)
    requires TidyLog(rows)
    ensures AllTidy(AsMessages(rows))
  {
    if rows != [] {
      LogSubset(rows[1..], rows);
      AsMessagesAreTidy(rows[1..]);
      assert rows[0] in rows;
    }
  }

  lemma {:induction false} SuffixIsTidy(part: seq<Message>, whole: seq<Message>)
    requires AllTidy(whole) && IsSuffix(part, whole)
    ensures AllTidy(part)
  {
  }

  lemma {:induction false} LoadIsTidy(cfg: Config, log: seq<Turn>)
    requires TidyLog(log)
    ensures AllTidy(Load(cfg, log))
  {
    match cfg.conversation
    case Some(c) =>
      OfConversationIsInLog(log, c);
      var rows := Last(OfConversation(log, c), MAX_CONVERSATION_TURNS);
      LogSubset(rows, log);
      AsMessagesAreTidy(rows);
      var messages := FromFirstUser(AsMessages(rows));
      FromFirstUserIsSuffix(AsMessages(rows));
      SuffixIsTidy(messages, AsMessages(rows));
      FitResult(cfg.sizes, messages, cfg.budget);
      SuffixIsTidy(Fit(cfg.sizes, messages, cfg.budget), messages);
    case None =>
      OfOwnerIsInLog(log, cfg.owner);
      var recent := Last(OfOwner(log, cfg.owner), HISTORY_FETCH_LIMIT);
      HumanWindowIsInRows(recent);
      LogSubset(HumanWindow(recent), log);
      AsMessagesAreTidy(HumanWindow(recent));
      FromFirstUserIsSuffix(AsMessages(HumanWindow(recent)));
      SuffixIsTidy(FromFirstUser(AsMessages(HumanWindow(recent))), AsMessages(HumanWindow(recent)));
  }

  lemma {:induction false} StartIsTidy(cfg: Config, log: seq<Turn>, audit: string, human: string, preamble: string)
    requires TidyLog(log)
    ensures TidyLog(Started(cfg, log, audit, human, preamble).log)
    ensures AllTidy(Started(cfg, log, audit, human, preamble).messages)
  {
    var audited := Appended(cfg, log, System, Plain(audit), false);
    var full := Appended(cfg, audited, User, Plain(human), false);
    assert TidyLog(audited);
    assert TidyLog(full);
    LoadIsTidy(cfg, full);
    HumanIsHeard.LoadEndsInHuman(cfg, audited, human);
    var messages := Load(cfg, full);
    var injected := CacheMarks.Injected(messages, preamble);
    forall m | m in injected ensures Tidy(m) {
      var k :| 0 <= k < |injected| && injected[k] == m;
      assert messages[k] in messages;
    }
  }

  // ---------------------------------------------------------------- trimming

  lemma {:induction false} PruneIsTidy(messages: seq<Message>, max: nat)
    requires AllTidy(messages)
    ensures AllTidy(Prune(messages, max))
  {
    SuffixIsTidy(Window(messages, max), messages);
    FromFirstUserIsSuffix(Window(messages, max));
    SuffixIsTidy(Prune(messages, max), Window(messages, max));
  }

  lemma {:induction false} PrunedIsTidy(m: Message, calls: set<string>, answers: set<string>)
    requires Tidy(m)
    ensures Tidy(OrphanRepair.Pruned(m, calls, answers))
  {
    if m.content.Blocks? {
      OrphanRepair.KeepCallsMembers(m.content.blocks, answers);
      OrphanRepair.KeepAnswersMembers(m.content.blocks, calls);
    }
  }

  lemma {:induction false} LocalRepairIsTidy(messages: seq<Message>, n: nat)
    requires n <= |messages| && AllTidy(messages)
    ensures AllTidy(OrphanRepair.LocalRepair(messages, n))
  {
    if n > 0 {
      LocalRepairIsTidy(messages, n - 1);
      assert messages[n - 1] in messages;
      PrunedIsTidy(messages[n - 1], OrphanRepair.CallsBefore(messages, n - 1),
                   OrphanRepair.AnswersAfter(messages, n - 1));
    }
  }

  lemma {:induction false} TrimHeadIsTidy(messages: seq<Message>)
    requires AllTidy(messages)
    ensures AllTidy(OrphanRepair.TrimHead(messages))
  {
    if messages != [] {
      SuffixIsTidy(messages[1..], messages);
      TrimHeadIsTidy(messages[1..]);
      assert messages[0] in messages;
      if messages[0].content.Blocks? {
        OrphanRepair.KeepAnswersMembers(messages[0].content.blocks, {});
      }
    }
  }

  lemma {:induction false} TrimmedIsTidy(cfg: Config, messages: seq<Message>)
    requires AllTidy(messages)
    ensures AllTidy(Trimmed(cfg, messages))
  {
    var fitted := FitContext(cfg, messages);
    if cfg.conversation.None? {
      PruneIsTidy(messages, MAX_HISTORY_MESSAGES);
    } else {
      FitResult(cfg.sizes, messages, cfg.budget);
      SuffixIsTidy(fitted, messages);
    }
    LocalRepairIsTidy(fitted, |fitted|);
    TrimHeadIsTidy(OrphanRepair.LocalRepair(fitted, |fitted|));
  }

  lemma {:induction false} MarksKeepTidy(role: Role, a: seq<Block>, b: seq<Block>)
    requires CacheMarks.UnmarkBlocks(a) == CacheMarks.UnmarkBlocks(b) && TidyBlocks(role, a)
    ensures TidyBlocks(role, b)
  {
    forall k | 0 <= k < |b|
      ensures a[k] in a && (b[k].ToolResult? <==> a[k].ToolResult?)
      ensures b[k].ToolUse? ==> a[k].ToolUse? && a[k].id == b[k].id
    {
      assert CacheMarks.UnmarkBlocks(a)[k] == CacheMarks.UnmarkBlocks(b)[k];
    }
  }

  lemma {:induction false} StampIsTidy(messages: seq<Message>)
    requires AllTidy(messages)
    ensures AllTidy(CacheMarks.Stamped(messages))
  {
    var stamped := CacheMarks.Stamped(messages);
    forall m | m in stamped ensures Tidy(m) {
      var k :| 0 <= k < |stamped| && stamped[k] == m;
      assert messages[k] in messages;
      CacheMarks.StampKeepsContent(messages, k);
      if messages[k].content.Blocks? {
        MarksKeepTidy(m.role, messages[k].content.blocks, m.content.blocks);
      }
    }
  }

  // ---------------------------------------------------------------- rounds

  predicate TidyState(s: RunState) {
    TidyLog(s.log) && AllTidy(s.messages) && forall r :: r in s.requests ==> AllTidy(r)
  }

  lemma {:induction false} AppendTidy(cfg: Config, log: seq<Turn>, role: Role, content: Content, isToolResponse: bool)
    requires TidyLog(log) && Tidy(Message(role, content))
    ensures TidyLog(Appended(cfg, log, role, content, isToolResponse))
  {
  }

  lemma {:induction false} AddTidy(messages: seq<Message>, m: Message)
    requires AllTidy(messages) && Tidy(m)
    ensures AllTidy(messages + [m])
  {
  }

  lemma {:induction false} RoundIsTidy(cfg: Config, s: RunState, n: int)
    requires ModelNamesCalls(cfg) && TidyState(s)
    ensures TidyState(Round(cfg, s, n).0)
  {
    var request := CacheMarks.Stamped(Trimmed(cfg, s.messages));
    TrimmedIsTidy(cfg, s.messages);
    StampIsTidy(Trimmed(cfg, s.messages));
    var reply := Reply(cfg, s, n);
    var a := AssistantMessage(reply);
    assert Tidy(a);
    var answer := ToolMessage(cfg, n, reply);
    assert Tidy(answer);
    AppendTidy(cfg, s.log, Assistant, a.content, false);
    AppendTidy(cfg, Appended(cfg, s.log, Assistant, a.content, false), User, answer.content, true);
    AddTidy(request, a);
    AddTidy(request + [a], answer);
  }

  lemma {:induction false} RoundsAreTidy(cfg: Config, s: RunState, n: int)
    requires ModelNamesCalls(cfg) && TidyState(s)
    ensures TidyState(Rounds(cfg, s, n).0)
    decreases cfg.maxRounds - n
  {
    if n < cfg.maxRounds {
      RoundIsTidy(cfg, s, n);
      var next := Round(cfg, s, n);
      if next.1 {
        RoundsAreTidy(cfg, next.0, n + 1);
      }
    }
  }

  lemma {:induction false} RunIsTidy(cfg: Config, log: seq<Turn>, audit: string, human: string, preamble: string)
    requires ModelNamesCalls(cfg) && TidyLog(log)
    ensures TidyState(Executed(cfg, log, audit, human, preamble))
  {
    var s := Started(cfg, log, audit, human, preamble);
    StartIsTidy(cfg, log, audit, human, preamble);
    RoundsAreTidy(cfg, s, 0);
    RoundIsTidy(cfg, Rounds(cfg, s, 0).0, cfg.maxRounds);
  }

  // ---------------------------------------------------------------- runs

  /** What one run is given besides the log. */
  datatype Job = Job(cfg: Config, audit: string, human: string, preamble: string)

  /** The log after the first `n` of a series of runs. */
  function LogAfter(jobs: seq<Job>, n: nat): seq<Turn>
    requires n <= |jobs|
  {
    if n == 0 then []
    else
      var j := jobs[n - 1];
      Executed(j.cfg, LogAfter(jobs, n - 1), j.audit, j.human, j.preamble).log
  }

  lemma {:induction false} LogStaysTidy(jobs: seq<Job>, n: nat)
    requires n <= |jobs| && forall j :: j in jobs ==> ModelNamesCalls(j.cfg)
    ensures TidyLog(LogAfter(jobs, n))
  {
    if n > 0 {
      LogStaysTidy(jobs, n - 1);
      var j := jobs[n - 1];
      RunIsTidy(j.cfg, LogAfter(jobs, n - 1), j.audit, j.human, j.preamble);
    }
  }

  lemma {:induction false} RequestTranslates(cfg: Config, outside: OpenAiTranslation.Outside, system: Content,
          request: seq<Message>)
    requires OpenAiPairing.Mints(outside) && ForemanRunProperties.Acceptable(cfg, request) && AllTidy(request)
    ensures OpenAiPairing.WellAnswered(OpenAiTranslation.Translated(outside, system, request))
  {
    TidyIsClean(request);
    OpenAiPairing.TranslationKeepsPairing(outside, system, request);
  }

  /**
   Over any series of runs that starts from an empty log, whatever the budgets,
   the trimming and the tools' answers: if the models name their calls, every
   request of every run becomes a chat in which each call is answered at once.
   */
  lemma {:induction false} EveryRequestTranslates(jobs: seq<Job>, n: nat, outside: OpenAiTranslation.Outside,
          system: Content)
    requires n < |jobs| && forall j :: j in jobs ==> ModelNamesCalls(j.cfg)
    requires OpenAiPairing.Mints(outside)
    ensures var j := jobs[n];
            forall request :: request in Executed(j.cfg, LogAfter(jobs, n), j.audit, j.human, j.preamble).requests ==>
              OpenAiPairing.WellAnswered(OpenAiTranslation.Translated(outside, system, request))
  {
    var j := jobs[n];
    assert j in jobs;
    var log := LogAfter(jobs, n);
    LogStaysTidy(jobs, n);
    RunIsTidy(j.cfg, log, j.audit, j.human, j.preamble);
    ForemanRunProperties.EveryRequestIsAcceptable(j.cfg, log, j.audit, j.human, j.preamble);
    var requests := Executed(j.cfg, log, j.audit, j.human, j.preamble).requests;
    forall request | request in requests
      ensures OpenAiPairing.WellAnswered(OpenAiTranslation.Translated(outside, system, request))
    {
      RequestTranslates(j.cfg, outside, system, request);
    }
  }
}
