/**
 What a run writes to the log: whose rows they are, in what order, and which of
 them count as human turns.
 */
module RunLog {
  import opened Options
  import opened Messages
  import opened OrphanRepair
  import opened ContextBudget
  import opened ConversationHistory
  import opened ForemanRun
  import opened Sequences
  import opened CacheMarks
  import LegacyWindows

  /** A row of the run after its human turn: the model's, or the user's answer to its calls. */
  predicate IsExchangeRow(cfg: Config, row: Turn) {
    && row.owner == cfg.owner && row.conversationId == cfg.conversation && row.content.Blocks?
    && if row.isToolResponse then row.role == User else row.role == Assistant
  }

  /** From position `p` on the log has only such rows. */
  predicate OnlyExchanges(cfg: Config, log: seq<Turn>, p: nat) {
    forall i :: p <= i < |log| ==> IsExchangeRow(cfg, log[i])
  }

  /** From position `p` on each row has the id after the row before it, the first ever 1. */
  predicate Consecutive(log: seq<Turn>, p: nat) {
    forall i :: p <= i < |log| ==> log[i].id == if i == 0 then 1 else log[i - 1].id + 1
  }

  predicate Extends(before: seq<Turn>, after: seq<Turn>) {
    before <= after
  }

  lemma {:induction false} AppendWrites(cfg: Config, log: seq<Turn>, p: nat, role: Role, blocks: seq<Block>,
                                        isToolResponse: bool)
    requires OnlyExchanges(cfg, log, p) && role == if isToolResponse then User else Assistant
    ensures var after := Appended(cfg, log, role, Blocks(blocks), isToolResponse);
            Extends(log, after) && OnlyExchanges(cfg, after, p) && |after| == |log| + 1
            && after[|log|].isToolResponse == isToolResponse
  {
  }

  lemma {:induction false} RoundWrites(cfg: Config, s: RunState, n: int, p: nat)
    requires OnlyExchanges(cfg, s.log, p) && p <= |s.log|
    ensures var after := Round(cfg, s, n).0.log;
            Extends(s.log, after) && OnlyExchanges(cfg, after, p) && |after| > |s.log|
            && !after[|s.log|].isToolResponse
            && |after| == |s.log| + if Round(cfg, s, n).1 then 2 else 1
  {
    var reply := Reply(cfg, s, n);
    AppendWrites(cfg, s.log, p, Assistant, reply, false);
    AppendWrites(cfg, Appended(cfg, s.log, Assistant, Blocks(reply), false), p, User,
                 ToolMessage(cfg, n, reply).content.blocks, true);
  }

  lemma {:induction false} AppendIsConsecutive(cfg: Config, log: seq<Turn>, p: nat, role: Role, content: Content,
                                               isToolResponse: bool)
    requires Consecutive(log, p)
    ensures Consecutive(Appended(cfg, log, role, content, isToolResponse), p)
  {
  }

  lemma {:induction false} RoundIsConsecutive(cfg: Config, s: RunState, n: int, p: nat)
    requires Consecutive(s.log, p)
    ensures Consecutive(Round(cfg, s, n).0.log, p)
  {
    var reply := Blocks(Reply(cfg, s, n));
    var answer := ToolMessage(cfg, n, Reply(cfg, s, n)).content;
    var log := Appended(cfg, s.log, Assistant, reply, false);
    AppendIsConsecutive(cfg, s.log, p, Assistant, reply, false);
    AppendIsConsecutive(cfg, log, p, User, answer, true);
  }

  lemma {:induction false} RoundsAreConsecutive(cfg: Config, s: RunState, n: int, p: nat)
    requires Consecutive(s.log, p)
    ensures Consecutive(Rounds(cfg, s, n).0.log, p)
    decreases cfg.maxRounds - n
  {
    if n < cfg.maxRounds {
      RoundIsConsecutive(cfg, s, n, p);
      var (s1, more) := Round(cfg, s, n);
      if more {
        RoundsAreConsecutive(cfg, s1, n + 1, p);
      }
    }
  }

  lemma {:induction false} RunIsConsecutive(cfg: Config, log: seq<Turn>, audit: string, human: string,
                                            preamble: string)
    ensures Consecutive(Executed(cfg, log, audit, human, preamble).log, |log|)
  {
    var first := Appended(cfg, log, System, Plain(audit), false);
    AppendIsConsecutive(cfg, log, |log|, System, Plain(audit), false);
    AppendIsConsecutive(cfg, first, |log|, User, Plain(human), false);
    var s := Started(cfg, log, audit, human, preamble);
    RoundsAreConsecutive(cfg, s, 0, |log|);
    RoundIsConsecutive(cfg, Rounds(cfg, s, 0).0, cfg.maxRounds, |log|);
  }

  lemma {:induction false} RoundsWrite(cfg: Config, s: RunState, n: int, p: nat)
    requires OnlyExchanges(cfg, s.log, p) && p <= |s.log|
    ensures var after := Rounds(cfg, s, n).0.log; Extends(s.log, after) && OnlyExchanges(cfg, after, p)
    decreases cfg.maxRounds - n
  {
    if n < cfg.maxRounds {
      RoundWrites(cfg, s, n, p);
      var (s1, more) := Round(cfg, s, n);
      if more {
        RoundsWrite(cfg, s1, n + 1, p);
      }
    }
  }

  lemma {:induction false} FinishWrites(cfg: Config, s: RunState, p: nat)
    requires OnlyExchanges(cfg, s.log, p) && p <= |s.log|
    ensures var after := Finished(cfg, s).log; Extends(s.log, after) && OnlyExchanges(cfg, after, p)
  {
    RoundsWrite(cfg, s, 0, p);
    RoundWrites(cfg, Rounds(cfg, s, 0).0, cfg.maxRounds, p);
  }

  /**
   A run keeps the log and appends, all under its owner and conversation: the
   audit prompt, the human's message, and then only the model's replies and the
   answers to its calls; only the latter are marked as tool responses.
   */
  lemma {:induction false} RunWrites(cfg: Config, log: seq<Turn>, audit: string, human: string, preamble: string)
    ensures var after := Executed(cfg, log, audit, human, preamble).log;
            && Extends(log, after) && |after| >= |log| + 2
            && after[|log|] == Turn(after[|log|].id, cfg.owner, cfg.conversation, System, Plain(audit), false)
            && after[|log| + 1] == Turn(after[|log| + 1].id, cfg.owner, cfg.conversation, User, Plain(human), false)
            && OnlyExchanges(cfg, after, |log| + 2)
            && Consecutive(after, |log|)
  {
    var s := Started(cfg, log, audit, human, preamble);
    FinishWrites(cfg, s, |log| + 2);
    RunIsConsecutive(cfg, log, audit, human, preamble);
    assert s.log[|log|].role == System && s.log[|log| + 1].role == User;
  }

  lemma {:induction false} HumanTurnsOfConcat(a: seq<Turn>, b: seq<Turn>)
    ensures HumanTurns(a + b) == HumanTurns(a) + HumanTurns(b)
  {
    if a == [] {
      assert a + b == b;
    } else {
      assert (a + b)[1..] == a[1..] + b;
      HumanTurnsOfConcat(a[1..], b);
    }
  }

  lemma {:induction false} ExchangesAreNotHuman(cfg: Config, rows: seq<Turn>)
    requires OnlyExchanges(cfg, rows, 0)
    ensures HumanTurns(rows) == 0
  {
    if rows != [] {
      ExchangesAreNotHuman(cfg, rows[1..]);
    }
  }

  lemma {:induction false} OneHumanTurn(cfg: Config, log: seq<Turn>, after: seq<Turn>)
    requires Extends(log, after) && |after| >= |log| + 2 && OnlyExchanges(cfg, after, |log| + 2)
    requires !IsHumanTurn(after[|log|]) && IsHumanTurn(after[|log| + 1])
    ensures HumanTurns(after) == HumanTurns(log) + 1
  {
    var n := |log|;
    var middle, rest := [after[n], after[n + 1]], after[n + 2..];
    assert after == log + (middle + rest);
    HumanTurnsOfConcat(log, middle + rest);
    HumanTurnsOfConcat(middle, rest);
    ExchangesAreNotHuman(cfg, rest);
    assert middle[1..] == [after[n + 1]] && middle[1..][1..] == [];
    assert HumanTurns(middle[1..][1..]) == 0;
  }

  /** So a run adds exactly one human turn to the log, whatever the model and the tools do. */
  lemma {:induction false} RunAddsOneHumanTurn(cfg: Config, log: seq<Turn>, audit: string, human: string,
                                               preamble: string)
    ensures HumanTurns(Executed(cfg, log, audit, human, preamble).log) == HumanTurns(log) + 1
  {
    RunWrites(cfg, log, audit, human, preamble);
    OneHumanTurn(cfg, log, Executed(cfg, log, audit, human, preamble).log);
  }

  // ---------------------------------------------------------------- one round

  function CallIn(b: Block): seq<Block> {
    match b
    case ToolUse(_, _, _, _) => [b]
    case _ => []
  }

  /** A result that answers one of the reply's calls, cut to the cap; any other is dropped. */
  function AnswerIn(reply: seq<Block>): Block -> seq<Block> {
    (b: Block) =>
      if b.ToolResult? && exists c :: c in reply && c.ToolUse? && c.id == b.toolUseId
      then [b.(output := TruncateToolResult(b.output))] else []
  }

  lemma {:induction false} UsesRead(reply: seq<Block>)
    ensures ToolUses(reply) == Collect(CallIn, reply)
  {
    if reply != [] {
      UsesRead(reply[1..]);
      CollectFirst(CallIn, reply);
    }
  }

  lemma {:induction false} ResultsRead(results: seq<Block>, reply: seq<Block>, calls: set<string>)
    requires forall id :: id in calls <==> exists c :: c in reply && c.ToolUse? && c.id == id
    ensures KeptResults(results, calls) == Collect(AnswerIn(reply), results)
  {
    if results != [] {
      ResultsRead(results[1..], reply, calls);
      CollectFirst(AnswerIn(reply), results);
    }
  }

  lemma {:induction false} ToolMessageReads(cfg: Config, n: int, reply: seq<Block>)
    ensures ToolMessage(cfg, n, reply)
            == Message(User, Blocks(Collect(AnswerIn(reply), cfg.tools(n, Collect(CallIn, reply)))))
  {
    UsesRead(reply);
    ResultsRead(cfg.tools(n, ToolUses(reply)), reply, CallIds(AssistantMessage(reply)));
  }

  /**
   A round, read off what was sent: the model's reply to the new request becomes
   an assistant's row and message; if it calls tools, what they answer to its
   calls becomes a user's row and message, and another round follows.
   */
  lemma {:induction false} RoundReadsOff(cfg: Config, s: RunState, n: int)
    ensures var (after, more) := Round(cfg, s, n);
            |after.requests| == |s.requests| + 1 && s.requests <= after.requests &&
            var request := after.requests[|s.requests|];
            var reply := cfg.llm(n, request);
            var calls := Collect(CallIn, reply);
            var a := Message(Assistant, Blocks(reply));
            var u := Message(User, Blocks(Collect(AnswerIn(reply), cfg.tools(n, calls))));
            && (more <==> calls != [])
            && |after.log| == |s.log| + (if more then 2 else 1) && s.log <= after.log
            && after.log[|s.log|].content == a.content
            && after.messages == request + [a] + (if more then [u] else [])
            && (more ==> after.log[|s.log| + 1].content == u.content)
  {
    var reply := Reply(cfg, s, n);
    UsesRead(reply);
    ToolMessageReads(cfg, n, reply);
    assert Stamped(Trimmed(cfg, s.messages)) + [AssistantMessage(reply)] + []
           == Stamped(Trimmed(cfg, s.messages)) + [AssistantMessage(reply)];
  }

  // ---------------------------------------------------------------- what a run loads

  function RowOf(c: int): Turn -> seq<Turn> {
    (t: Turn) => if t.conversationId == Some(c) then [t] else []
  }

  function RowBy(owner: string): Turn -> seq<Turn> {
    (t: Turn) => if t.owner == owner then [t] else []
  }

  function AsMessage(t: Turn): seq<Message> {
    if t.role == System then [] else [Message(t.role, t.content)]
  }

  /** The queries keep the rows of one conversation or one owner, in order, and audit rows are no messages. */
  lemma {:induction false} QueriesReadOff(log: seq<Turn>, c: int, owner: string)
    ensures OfConversation(log, c) == Collect(RowOf(c), log)
    ensures OfOwner(log, owner) == Collect(RowBy(owner), log)
    ensures AsMessages(log) == Collect(AsMessage, log)
  {
    if log != [] {
      QueriesReadOff(log[1..], c, owner);
      CollectFirst(RowOf(c), log);
      CollectFirst(RowBy(owner), log);
      CollectFirst(AsMessage, log);
    }
  }

  lemma {:induction false} ConversationLoadReads(cfg: Config, rows: seq<Turn>)
    ensures FullLoad(cfg.sizes, rows, cfg.budget) == Fit(cfg.sizes, Collect(AsMessage, rows), cfg.budget)
  {
    QueriesReadOff(rows, 0, "");
    FitOfFromFirstUser(cfg.sizes, AsMessages(rows), cfg.budget);
  }

  function Newest(rows: seq<Turn>): seq<Turn> {
    if |rows| <= 2000 then rows else rows[|rows| - 2000..]
  }

  /**
   A run in a conversation loads its newest rows, fitted to the budget; one
   without loads the window over its owner's newest rows. Either way the array
   starts at a user's message.
   */
  lemma {:induction false} LoadReadsOff(cfg: Config, log: seq<Turn>)
    ensures match cfg.conversation
            case Some(c) =>
              Load(cfg, log) == Fit(cfg.sizes, Collect(AsMessage, Newest(Collect(RowOf(c), log))), cfg.budget)
            case None => Load(cfg, log) == LegacyWindows.Loaded(log, cfg.owner)
  {
    if cfg.conversation.Some? {
      var c := cfg.conversation.value;
      QueriesReadOff(log, c, cfg.owner);
      ConversationLoadReads(cfg, Newest(Collect(RowOf(c), log)));
    }
  }
}
