/**
 The array a run keeps in memory against the log it writes: as long as nothing
 has to be trimmed and the tools answer every call, the array is what reloading
 the persisted turns would give, up to cache marks and the live-state block in
 front of the human turn.
 */
module RoundAgreement {
  import opened Options
  import opened Messages
  import opened OrphanRepair
  import opened CacheMarks
  import opened ContextBudget
  import opened ConversationHistory
  import opened ForemanRun
  import opened ForemanRunProperties

  /** A conversation's history with nothing trimmed but a non-user head. */
  function Complete(c: int, log: seq<Turn>): seq<Message> {
    FromFirstUser(AsMessages(OfConversation(log, c)))
  }

  /** Message `i` of a reloaded history as a run holds it; `h` is the human turn. */
  function AsHeld(message: Message, isHuman: bool, preamble: string): Message {
    UnmarkMessage(if isHuman then message.(content := WithState(message.content, preamble)) else message)
  }

  ghost predicate Agree(messages: seq<Message>, reloaded: seq<Message>, h: nat, preamble: string) {
    && |messages| == |reloaded| && h < |messages|
    && forall i {:trigger messages[i]} :: 0 <= i < |messages| ==>
         UnmarkMessage(messages[i]) == AsHeld(reloaded[i], i == h, preamble)
  }

  // ---------------------------------------------------------------- what an appended turn adds

  lemma {:induction false} OfConversationSnoc(log: seq<Turn>, c: int, turn: Turn)
    ensures OfConversation(log + [turn], c)
         == OfConversation(log, c) + (if turn.conversationId == Some(c) then [turn] else [])
  {
    if log == [] {
      assert OfConversation([turn][1..], c) == [];
    } else {
      assert (log + [turn])[1..] == log[1..] + [turn];
      OfConversationSnoc(log[1..], c, turn);
    }
  }

  lemma {:induction false} OfOwnerSnoc(log: seq<Turn>, owner: string, turn: Turn)
    ensures OfOwner(log + [turn], owner) == OfOwner(log, owner) + (if turn.owner == owner then [turn] else [])
  {
    if log == [] {
      assert OfOwner([turn][1..], owner) == [];
    } else {
      assert (log + [turn])[1..] == log[1..] + [turn];
      OfOwnerSnoc(log[1..], owner, turn);
    }
  }

  lemma {:induction false} AsMessagesSnoc(rows: seq<Turn>, turn: Turn)
    ensures AsMessages(rows + [turn])
         == AsMessages(rows) + (if turn.role.System? then [] else [Message(turn.role, turn.content)])
  {
    if rows == [] {
      assert AsMessages([turn][1..]) == [];
    } else {
      assert (rows + [turn])[1..] == rows[1..] + [turn];
      AsMessagesSnoc(rows[1..], turn);
    }
  }

  lemma {:induction false} FromFirstUserSnoc(messages: seq<Message>, m: Message)
    requires FromFirstUser(messages) != [] || m.role.User?
    ensures FromFirstUser(messages + [m]) == FromFirstUser(messages) + [m]
  {
    if messages == [] {
      assert messages + [m] == [m];
    } else if !messages[0].role.User? {
      assert (messages + [m])[1..] == messages[1..] + [m];
      FromFirstUserSnoc(messages[1..], m);
    }
  }

  lemma {:induction false} CompleteSnoc(cfg: Config, c: int, log: seq<Turn>, role: Role, content: Content,
          isToolResponse: bool)
    requires cfg.conversation == Some(c) && !role.System?
    requires Complete(c, log) != [] || role.User?
    ensures Complete(c, Appended(cfg, log, role, content, isToolResponse))
            == Complete(c, log) + [Message(role, content)]
  {
    var full := Appended(cfg, log, role, content, isToolResponse);
    var turn := full[|log|];
    OfConversationSnoc(log, c, turn);
    AsMessagesSnoc(OfConversation(log, c), turn);
    FromFirstUserSnoc(AsMessages(OfConversation(log, c)), Message(role, content));
  }

  // ---------------------------------------------------------------- one round

  lemma {:induction false} NothingToTrim(cfg: Config, messages: seq<Message>)
    requires cfg.conversation.Some?
    requires WellFormed(messages) && WithinLimit(cfg, messages)
    ensures Trimmed(cfg, messages) == messages
  {
    assert WithinBudget(cfg.sizes, messages, cfg.budget) == messages;
    RepairedIffWellFormed(messages);
  }

  lemma {:induction false} AgreeSnoc(messages: seq<Message>, reloaded: seq<Message>, h: nat, preamble: string,
          m: Message)
    requires Agree(messages, reloaded, h, preamble)
    ensures Agree(messages + [m], reloaded + [m], h, preamble)
  {
    var a, b := messages + [m], reloaded + [m];
    forall i | 0 <= i < |a| ensures UnmarkMessage(a[i]) == AsHeld(b[i], i == h, preamble) {
      if i < |messages| {
        assert a[i] == messages[i] && b[i] == reloaded[i];
      }
    }
  }

  lemma {:induction false} StampedAgrees(messages: seq<Message>, reloaded: seq<Message>, h: nat, preamble: string)
    requires Agree(messages, reloaded, h, preamble)
    requires messages[|messages| - 1].content.Blocks?
    ensures Agree(Stamped(messages), reloaded, h, preamble)
  {
    var s := Stamped(messages);
    forall i | 0 <= i < |s| ensures UnmarkMessage(s[i]) == AsHeld(reloaded[i], i == h, preamble) {
      StampKeepsContent(messages, i);
    }
  }

  /** Every call of the reply is answered by the tools. */
  ghost predicate Answered(cfg: Config, s: RunState, n: int) {
    AnswerIds(ToolMessage(cfg, n, Reply(cfg, s, n))) == CallIds(AssistantMessage(Reply(cfg, s, n)))
  }

  /** Ready for another round: acceptable as it stands, and ending in a block list. */
  ghost predicate Ready(messages: seq<Message>) {
    WellFormed(messages) && messages != [] && messages[|messages| - 1].content.Blocks?
  }

  lemma {:induction false} NoToolUses(reply: seq<Block>)
    ensures ToolUses(reply) == [] <==> CallIds(AssistantMessage(reply)) == {}
  {
    if reply != [] {
      NoToolUses(reply[1..]);
      assert forall b :: b in reply <==> b == reply[0] || b in reply[1..];
      if reply[0].ToolUse? {
        assert reply[0].id in CallIds(AssistantMessage(reply));
      } else {
        assert CallIds(AssistantMessage(reply)) == CallIds(AssistantMessage(reply[1..]));
      }
    }
  }

  lemma {:induction false} ReadyAfterExchange(request: seq<Message>, a: Message, u: Message)
    requires WellFormed(request) && request != []
    requires a.role.Assistant? && u.role.User? && u.content.Blocks? && AnswerIds(u) == CallIds(a)
    ensures Ready(request + [a] + [u])
  {
    PairedSnoc(request, a);
    assert CallsBefore(request + [a], |request + [a]|) == CallIds(a);
    PairedSnoc(request + [a], u);
    assert CallsBefore(request + [a] + [u], |request + [a] + [u]|) == CallIds(u) == {};
  }

  lemma {:induction false} AppendedAgrees(cfg: Config, c: int, messages: seq<Message>, log: seq<Turn>, h: nat,
          preamble: string,
                       role: Role, content: Content, isToolResponse: bool)
    requires cfg.conversation == Some(c) && !role.System?
    requires Agree(messages, Complete(c, log), h, preamble)
    ensures Agree(messages + [Message(role, content)],
                  Complete(c, Appended(cfg, log, role, content, isToolResponse)), h, preamble)
  {
    CompleteSnoc(cfg, c, log, role, content, isToolResponse);
    AgreeSnoc(messages, Complete(c, log), h, preamble, Message(role, content));
  }

  /** A round that trims nothing extends memory and log by the same one or two messages. */
  lemma {:induction false} RoundExtends(cfg: Config, s: RunState, n: int)
    requires Trimmed(cfg, s.messages) == s.messages
    ensures var (s1, more) := Round(cfg, s, n);
            var a := AssistantMessage(Reply(cfg, s, n));
            var log := Appended(cfg, s.log, Assistant, a.content, false);
            if more then
              var u := ToolMessage(cfg, n, Reply(cfg, s, n));
              s1.messages == Stamped(s.messages) + [a] + [u] && s1.log == Appended(cfg, log, User, u.content, true)
            else
              s1.messages == Stamped(s.messages) + [a] && s1.log == log
  {
  }

  /** Sending, and then appending an exchange to both sides, keeps the agreement. */
  lemma {:induction false} ExchangeAgrees(cfg: Config, c: int, messages: seq<Message>, log: seq<Turn>, h: nat,
          preamble: string,
                       a: Message, u: Message)
    requires cfg.conversation == Some(c) && a.role.Assistant? && u.role.User?
    requires Ready(messages) && Agree(messages, Complete(c, log), h, preamble)
    ensures var request := Stamped(messages);
            var log1 := Appended(cfg, log, Assistant, a.content, false);
            Agree(request + [a], Complete(c, log1), h, preamble) &&
            Agree(request + [a] + [u], Complete(c, Appended(cfg, log1, User, u.content, true)), h, preamble)
    ensures AnswerIds(u) == CallIds(a) && u.content.Blocks? ==> Ready(Stamped(messages) + [a] + [u])
  {
    var request := Stamped(messages);
    var log1 := Appended(cfg, log, Assistant, a.content, false);
    StampedAgrees(messages, Complete(c, log), h, preamble);
    AppendedAgrees(cfg, c, request, log, h, preamble, Assistant, a.content, false);
    AppendedAgrees(cfg, c, request + [a], log1, h, preamble, User, u.content, true);
    if AnswerIds(u) == CallIds(a) && u.content.Blocks? {
      StampKeepsWellFormed(messages);
      ReadyAfterExchange(request, a, u);
    }
  }

  lemma {:induction false} RoundKeepsAgreement(cfg: Config, c: int, s: RunState, n: int, h: nat, preamble: string)
    requires cfg.conversation == Some(c)
    requires Ready(s.messages) && WithinLimit(cfg, s.messages)
    requires Agree(s.messages, Complete(c, s.log), h, preamble)
    ensures var (s1, more) := Round(cfg, s, n);
            Agree(s1.messages, Complete(c, s1.log), h, preamble) &&
            (more && Answered(cfg, s, n) ==> Ready(s1.messages))
  {
    NothingToTrim(cfg, s.messages);
    RoundExtends(cfg, s, n);
    var a, u := AssistantMessage(Reply(cfg, s, n)), ToolMessage(cfg, n, Reply(cfg, s, n));
    ExchangeAgrees(cfg, c, s.messages, s.log, h, preamble, a, u);
  }
}
