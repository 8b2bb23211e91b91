/**
 ForemanRun (backend/foreman/run.py): one Foreman turn. The persisted history
 is loaded, the live state injected, and then round after round the array is
 trimmed, repaired, stamped and sent, and extended by the reply and the tool
 results, each of which is also appended to the log.
 */
module ForemanRun {
  import opened Options
  import opened Strings
  import opened Messages
  import opened OrphanRepair
  import opened CacheMarks
  import opened ContextBudget
  import opened ConversationHistory

  const MAX_TOOL_RESULT_CHARS := 32_000

  /**
   What a run is given. The model and the tools are outside: whatever they
   answer in a round is a function of the round and of what they were sent.
   */
  datatype Config = Config(
    owner: string,
    conversation: Option<int>,
    maxRounds: int,
    budget: int,
    sizes: Sizes,
    llm: (int, seq<Message>) -> seq<Block>,
    tools: (int, seq<Block>) -> seq<Block>)

  /** The log, the array in memory, and the arrays sent so far. */
  datatype RunState = RunState(log: seq<Turn>, messages: seq<Message>, requests: seq<seq<Message>>)

  // ---------------------------------------------------------------- specification

  function Notice(count: string): (r: string)
    ensures r != ""
  {
    "\n\n[TRUNCATED \U{2014} " + count + " chars omitted]"
  }

  function TruncateToolResult(content: string): string {
    if |content| <= MAX_TOOL_RESULT_CHARS then content
    else content[..MAX_TOOL_RESULT_CHARS] + Notice(Digits(|content| - MAX_TOOL_RESULT_CHARS))
  }

  function Appended(cfg: Config, log: seq<Turn>, role: Role, content: Content, isToolResponse: bool): seq<Turn> {
    var id := if log == [] then 1 else log[|log| - 1].id + 1;
    log + [Turn(id, cfg.owner, cfg.conversation, role, content, isToolResponse)]
  }

  /** load_for_llm, with or without a conversation. */
  function Load(cfg: Config, log: seq<Turn>): seq<Message> {
    match cfg.conversation
    case Some(c) => FullLoad(cfg.sizes, Last(OfConversation(log, c), MAX_CONVERSATION_TURNS), cfg.budget)
    case None => FromFirstUser(AsMessages(HumanWindow(Last(OfOwner(log, cfg.owner), HISTORY_FETCH_LIMIT))))
  }

  function FitContext(cfg: Config, messages: seq<Message>): seq<Message> {
    if cfg.conversation.None? then Prune(messages, MAX_HISTORY_MESSAGES)
    else Fit(cfg.sizes, messages, cfg.budget)
  }

  /** What is about to be sent, before the cache mark. */
  function Trimmed(cfg: Config, messages: seq<Message>): seq<Message> {
    Repaired(FitContext(cfg, messages))
  }

  function ToolUses(reply: seq<Block>): seq<Block> {
    if reply == [] then []
    else if reply[0].ToolUse? then [reply[0]] + ToolUses(reply[1..]) else ToolUses(reply[1..])
  }

  /** Results of other calls are dropped, long ones are cut. */
  function KeptResults(results: seq<Block>, calls: set<string>): (r: seq<Block>)
    ensures forall b :: b in r ==> b.ToolResult? && b.toolUseId in calls
  {
    if results == [] then []
    else
      var rest := KeptResults(results[1..], calls);
      if results[0].ToolResult? && results[0].toolUseId in calls
      then [results[0].(output := TruncateToolResult(results[0].output))] + rest
      else rest
  }

  function AssistantMessage(reply: seq<Block>): Message {
    Message(Assistant, Blocks(reply))
  }

  function ToolMessage(cfg: Config, n: int, reply: seq<Block>): Message {
    Message(User, Blocks(KeptResults(cfg.tools(n, ToolUses(reply)), CallIds(AssistantMessage(reply)))))
  }

  function Reply(cfg: Config, s: RunState, n: int): seq<Block> {
    cfg.llm(n, Stamped(Trimmed(cfg, s.messages)))
  }

  /** One round; `more` says that tools were called, so another round follows. */
  function Round(cfg: Config, s: RunState, n: int): (RunState, bool) {
    var request := Stamped(Trimmed(cfg, s.messages));
    var reply := Reply(cfg, s, n);
    var log := Appended(cfg, s.log, Assistant, Blocks(reply), false);
    var messages := request + [AssistantMessage(reply)];
    if ToolUses(reply) == [] then (RunState(log, messages, s.requests + [request]), false)
    else
      var answer := ToolMessage(cfg, n, reply);
      (RunState(Appended(cfg, log, User, answer.content, true), messages + [answer], s.requests + [request]), true)
  }

  /** Rounds from `n` on; `capped` says that the last one still wanted more. */
  function Rounds(cfg: Config, s: RunState, n: int): (RunState, bool)
    decreases cfg.maxRounds - n
  {
    if n >= cfg.maxRounds then (s, true)
    else
      var (s1, more) := Round(cfg, s, n);
      if more then Rounds(cfg, s1, n + 1) else (s1, false)
  }

  function Started(cfg: Config, log: seq<Turn>, audit: string, human: string, preamble: string): RunState {
    var full := Appended(cfg, Appended(cfg, log, System, Plain(audit), false), User, Plain(human), false);
    RunState(full, Injected(Load(cfg, full), preamble), [])
  }

  /** The rounds and, when they are capped, the forced wrap-up round. */
  function Finished(cfg: Config, s: RunState): RunState {
    var (s1, capped) := Rounds(cfg, s, 0);
    if capped then Round(cfg, s1, cfg.maxRounds).0 else s1
  }

  function Executed(cfg: Config, log: seq<Turn>, audit: string, human: string, preamble: string): RunState {
    Finished(cfg, Started(cfg, log, audit, human, preamble))
  }

  // ---------------------------------------------------------------- the code

  class Run {
    const cfg: Config
    var log: seq<Turn>
    var requests: seq<seq<Message>>

    constructor (cfg: Config, log: seq<Turn>)
      ensures this.cfg == cfg && this.log == log && requests == []
    {
      this.cfg := cfg;
      this.log := log;
      requests := [];
    }

    /** execute */
    method Execute(audit: string, human: string, preamble: string)
      requires Ordered(log) && requests == []
      modifies this
      ensures var s := Executed(cfg, old(log), audit, human, preamble);
              log == s.log && requests == s.requests
      ensures Ordered(log)
    {
      AppendTurn(System, Plain(audit), false);
      AppendTurn(User, Plain(human), false);
      ghost var start := Started(cfg, old(log), audit, human, preamble);
      var outgoing := LoadAndInject(preamble);
      var messages := outgoing.items;
      var capped := true;
      var n := 0;
      while n < cfg.maxRounds
        invariant capped && n >= 0 && Ordered(log)
        invariant n > 0 ==> n <= cfg.maxRounds
        invariant Rounds(cfg, start, 0) == Rounds(cfg, RunState(log, messages, requests), n)
      {
        var more;
        messages, more := OneRound(messages, n);
        if !more {
          capped := false;
          break;
        }
        n := n + 1;
      }
      if capped {
        var unused;
        messages, unused := OneRound(messages, cfg.maxRounds);
      }
    }

    /** Load what is to be sent, and put the live state in front of the human turn. */
    method LoadAndInject(preamble: string) returns (outgoing: MessageArray)
      requires Ordered(log)
      ensures fresh(outgoing) && outgoing.items == Injected(Load(cfg, log), preamble)
    {
      var messages;
      match cfg.conversation {
        case Some(c) =>
          messages := LoadConversation(cfg.sizes, log, c, cfg.budget);
        case None =>
          var turns, cutoff := LegacyWindow(log, cfg.owner);
          messages := AsMessages(turns[cutoff..]);
          while messages != [] && !messages[0].role.User?
            invariant FromFirstUser(messages) == FromFirstUser(AsMessages(turns[cutoff..]))
          {
            messages := messages[1..];
          }
      }
      outgoing := new MessageArray(messages);
      outgoing.InjectStatePreamble(preamble);
    }

    /** _save_turn: the log only ever grows at its end. */
    method AppendTurn(role: Role, content: Content, isToolResponse: bool)
      requires Ordered(log)
      modifies this`log
      ensures log == Appended(cfg, old(log), role, content, isToolResponse) && Ordered(log)
    {
      AppendedIsOrdered(cfg, log, role, content, isToolResponse);
      log := Appended(cfg, log, role, content, isToolResponse);
    }

    /** _one_round */
    method OneRound(messages: seq<Message>, n: int) returns (extended: seq<Message>, more: bool)
      requires Ordered(log)
      modifies this
      ensures (RunState(log, extended, requests), more) == Round(cfg, RunState(old(log), messages, old(requests)), n)
      ensures Ordered(log)
    {
      var request := PrepareRequest(messages);
      requests := requests + [request];
      var reply := cfg.llm(n, request);
      AppendTurn(Assistant, Blocks(reply), false);
      extended := request + [AssistantMessage(reply)];
      var toolUses := CollectToolUses(reply);
      more := toolUses != [];
      if more {
        var trimmed := FilterResults(cfg.tools(n, toolUses), CallIds(AssistantMessage(reply)));
        AppendTurn(User, Blocks(trimmed), true);
        extended := extended + [Message(User, Blocks(trimmed))];
      }
    }

    /** Its first half: _fit_context, the repair, and the cache mark. */
    method PrepareRequest(messages: seq<Message>) returns (request: seq<Message>)
      ensures request == Stamped(Trimmed(cfg, messages))
    {
      var fitted;
      if cfg.conversation.None? {
        fitted := PruneHistory(messages, MAX_HISTORY_MESSAGES);
      } else {
        fitted := FitTokenBudget(cfg.sizes, messages, cfg.budget);
      }
      var repaired := StripOrphanedToolResults(fitted);
      var outgoing := new MessageArray(repaired);
      outgoing.StampCacheBreakpoint();
      request := outgoing.items;
    }

    /** The loop over the reply that gathers its tool calls. */
    method CollectToolUses(reply: seq<Block>) returns (toolUses: seq<Block>)
      ensures toolUses == ToolUses(reply)
    {
      toolUses := [];
      for i := 0 to |reply|
        invariant toolUses + ToolUses(reply[i..]) == ToolUses(reply)
      {
        if reply[i].ToolUse? {
          toolUses := toolUses + [reply[i]];
        }
      }
    }

    /** The loop that drops stale results and cuts long ones. */
    method FilterResults(results: seq<Block>, calls: set<string>) returns (trimmed: seq<Block>)
      ensures trimmed == KeptResults(results, calls)
    {
      trimmed := [];
      for i := 0 to |results|
        invariant trimmed + KeptResults(results[i..], calls) == KeptResults(results, calls)
      {
        var r := results[i];
        if r.ToolResult? && r.toolUseId in calls {
          trimmed := trimmed + [r.(output := TruncateToolResult(r.output))];
        }
      }
    }
  }

  lemma {:induction false} AppendedIsOrdered(cfg: Config, log: seq<Turn>, role: Role, content: Content,
          isToolResponse: bool)
    requires Ordered(log)
    ensures Ordered(Appended(cfg, log, role, content, isToolResponse))
  {
  }

  /**
   Cutting a tool result: its start is kept, a notice with the number of missing
   characters follows, and the text stays within the cap exactly when nothing had
   to be cut.
   */
  lemma {:induction false} TruncationKeepsPrefix(content: string) returns (count: string)
    ensures |content| <= MAX_TOOL_RESULT_CHARS ==> TruncateToolResult(content) == content
    ensures |content| > MAX_TOOL_RESULT_CHARS ==>
              TruncateToolResult(content)
              == content[..32_000] + ("\n\n[TRUNCATED \U{2014} " + count + " chars omitted]")
              && Value(count) == |content| - MAX_TOOL_RESULT_CHARS
    ensures |TruncateToolResult(content)| <= MAX_TOOL_RESULT_CHARS <==> |content| <= MAX_TOOL_RESULT_CHARS
  {
    count := "";
    if |content| > MAX_TOOL_RESULT_CHARS {
      count := CutReads(content, |content| - MAX_TOOL_RESULT_CHARS);
    }
  }

  lemma {:induction false} CutReads(content: string, missing: nat) returns (count: string)
    requires |content| > MAX_TOOL_RESULT_CHARS && missing == |content| - MAX_TOOL_RESULT_CHARS
    ensures TruncateToolResult(content)
            == content[..32_000] + ("\n\n[TRUNCATED \U{2014} " + count + " chars omitted]")
    ensures |TruncateToolResult(content)| > MAX_TOOL_RESULT_CHARS && Value(count) == missing
  {
    count := Digits(missing);
    DigitsRead(missing);
    NoticeAddsLength(content[..MAX_TOOL_RESULT_CHARS], count);
  }

  lemma {:induction false} NoticeAddsLength(kept: string, count: string)
    ensures |kept + Notice(count)| > |kept|
  {
  }

  /** Exactly the results of the current calls are kept, each once, in order, and cut one by one. */
  lemma {:induction false} ResultsAreKept(results: seq<Block>, more: seq<Block>, b: Block, calls: set<string>)
    ensures KeptResults(results + more, calls) == KeptResults(results, calls) + KeptResults(more, calls)
    ensures KeptResults([b], calls)
            == if b.ToolResult? && b.toolUseId in calls then [b.(output := TruncateToolResult(b.output))] else []
  {
    assert [b][1..] == [];
    if results == [] {
      assert results + more == more;
    } else {
      assert (results + more)[1..] == results[1..] + more;
      ResultsAreKept(results[1..], more, b, calls);
    }
  }
}
