/**
 When the chat that a paired conversation becomes has every call answered.
 */
module OpenAiPairing {
  import opened Messages
  import opened Sequences
  import opened OpenAiTranslation
  import OrphanRepair

  // ---------------------------------------------------------------- what an answered chat is

  function AskedBy(m: ChatMessage): set<string> {
    if m.AssistantSays? then set c | c in m.calls :: c.id else {}
  }

  /** The ids answered by the tool messages at the head of a chat. */
  function RunIds(chat: seq<ChatMessage>): set<string> {
    if chat != [] && chat[0].ToolSays? then {chat[0].callId} + RunIds(chat[1..]) else {}
  }

  /** After each other message come tool messages that answer exactly its calls. */
  predicate Answered(chat: seq<ChatMessage>) {
    chat == [] || ((chat[0].ToolSays? || RunIds(chat[1..]) == AskedBy(chat[0])) && Answered(chat[1..]))
  }

  /** Moreover the chat does not start with an answer. */
  predicate WellAnswered(chat: seq<ChatMessage>) {
    Answered(chat) && RunIds(chat) == {}
  }

  /** Some text comes before a tool result. */
  predicate SpeaksBeforeAnswering(blocks: seq<Block>) {
    blocks != [] &&
    (SpeaksBeforeAnswering(blocks[..|blocks| - 1])
     || (blocks[|blocks| - 1].ToolResult? && Collect(UserPart, blocks[..|blocks| - 1]) != []))
  }

  predicate NamesItsCalls(blocks: seq<Block>) {
    forall b :: b in blocks && b.ToolUse? ==> b.id != ""
  }

  /** Results lead each user message, and every call has an identifier. */
  predicate Clean(message: Message) {
    message.content.Blocks? ==>
      (message.role.User? ==> !SpeaksBeforeAnswering(message.content.blocks)) &&
      (message.role.Assistant? ==> NamesItsCalls(message.content.blocks))
  }

  ghost predicate Mints(outside: Outside) {
    forall a: nat, b: nat :: outside.mint(a, b) != ""
  }

  /**
   What one message's translation does to any chat that follows it: it stays
   answered exactly when the message is clean, and then starts with the answers
   the message gives.
   */
  ghost predicate Fits(part: seq<ChatMessage>, calls: set<string>, answers: set<string>, clean: bool) {
    forall rest {:trigger part + rest} :: (Answered(rest) ==> RunIds(rest) == calls) ==>
      && (Answered(part + rest) <==> Answered(rest) && clean)
      && (Answered(part + rest) ==> RunIds(part + rest) == answers)
  }

  // ---------------------------------------------------------------- one user message

  function Answer(b: Block): seq<ChatMessage> {
    if b.ToolResult? then [ToolSays(b.toolUseId, b.output)] else []
  }

  /** Without text before a result, the answers come first and all text after them. */
  lemma {:induction false} AnswersFirst(blocks: seq<Block>)
    requires !SpeaksBeforeAnswering(blocks)
    ensures UserBlocks(blocks) == UserState(Collect(Answer, blocks), Collect(UserPart, blocks))
  {
    if blocks != [] {
      var front, b := blocks[..|blocks| - 1], blocks[|blocks| - 1];
      AnswersFirst(front);
      assert Collect(Answer, front) + [] == Collect(Answer, front);
    }
  }

  /** A spot where an answer directly follows some user text. */
  predicate TextThenAnswer(chat: seq<ChatMessage>, k: nat) {
    k + 1 < |chat| && chat[k].UserSays? && chat[k + 1].ToolSays?
  }

  lemma {:induction false} SpotInPrefix(chat: seq<ChatMessage>, more: seq<ChatMessage>, k: nat)
    requires TextThenAnswer(chat, k)
    ensures TextThenAnswer(chat + more, k)
  {
  }

  /** Otherwise there is such a spot. */
  lemma {:induction false} SpeechMakesSpot(blocks: seq<Block>) returns (k: nat)
    requires SpeaksBeforeAnswering(blocks)
    ensures TextThenAnswer(UserBlocks(blocks).out, k)
  {
    var front, b := blocks[..|blocks| - 1], blocks[|blocks| - 1];
    var s := UserBlocks(front);
    if SpeaksBeforeAnswering(front) {
      k := SpeechMakesSpot(front);
      if b.ToolResult? {
        SpotInPrefix(s.out, FlushText(s.pending), k);
        SpotInPrefix(s.out + FlushText(s.pending), [ToolSays(b.toolUseId, b.output)], k);
      }
    } else {
      AnswersFirst(front);
      k := |s.out|;
    }
  }

  lemma {:induction false} SpotIsUnanswered(chat: seq<ChatMessage>, k: nat)
    requires TextThenAnswer(chat, k)
    ensures !Answered(chat)
  {
    if k == 0 {
      assert chat[1..][0] == chat[1];
      assert chat[1].callId in RunIds(chat[1..]);
    } else {
      assert chat[1..][k - 1] == chat[k] && chat[1..][k] == chat[k + 1];
      SpotIsUnanswered(chat[1..], k - 1);
    }
  }

  // ---------------------------------------------------------------- runs of answers

  predicate OnlyAnswers(tools: seq<ChatMessage>) {
    forall k :: 0 <= k < |tools| ==> tools[k].ToolSays?
  }

  lemma {:induction false} RunThenRest(tools: seq<ChatMessage>, rest: seq<ChatMessage>)
    requires OnlyAnswers(tools)
    ensures RunIds(tools + rest) == RunIds(tools) + RunIds(rest)
    ensures Answered(tools + rest) == Answered(rest)
  {
    if tools == [] {
      assert tools + rest == rest;
    } else {
      assert (tools + rest)[1..] == tools[1..] + rest;
      RunThenRest(tools[1..], rest);
    }
  }

  function AnswerId(b: Block): set<string> {
    if b.ToolResult? then {b.toolUseId} else {}
  }

  lemma {:induction false} AnswerIdsMore(front: seq<Block>, b: Block)
    ensures AnswerIds(Message(User, Blocks(front + [b]))) == AnswerIds(Message(User, Blocks(front))) + AnswerId(b)
  {
  }

  lemma {:induction false} AnswersOfBlocks(blocks: seq<Block>)
    ensures OnlyAnswers(Collect(Answer, blocks))
    ensures RunIds(Collect(Answer, blocks)) == AnswerIds(Message(User, Blocks(blocks)))
  {
    if blocks != [] {
      var front, b := blocks[..|blocks| - 1], blocks[|blocks| - 1];
      AnswersOfBlocks(front);
      AnswerIdsMore(front, b);
      assert blocks == front + [b];
      RunThenRest(Collect(Answer, front), Answer(b));
      assert RunIds(Answer(b)) == AnswerId(b);
    }
  }

  lemma {:induction false} TextThenRest(pending: seq<string>, rest: seq<ChatMessage>)
    requires Answered(rest) ==> RunIds(rest) == {}
    ensures Answered(FlushText(pending) + rest) == Answered(rest)
    ensures Answered(rest) ==> RunIds(FlushText(pending) + rest) == {}
  {
    var chat := FlushText(pending) + rest;
    if pending == [] {
      assert chat == rest;
    } else {
      assert chat[0] == UserSays(JoinLines(pending)) && chat[1..] == rest;
    }
  }

  lemma {:induction false} CleanUserFits(blocks: seq<Block>, rest: seq<ChatMessage>)
    requires !SpeaksBeforeAnswering(blocks)
    requires Answered(rest) ==> RunIds(rest) == {}
    ensures Answered(TranslatedUser(blocks) + rest) == Answered(rest)
    ensures Answered(rest) ==> RunIds(TranslatedUser(blocks) + rest) == AnswerIds(Message(User, Blocks(blocks)))
  {
    var s := UserBlocks(blocks);
    AnswersFirst(blocks);
    AnswersOfBlocks(blocks);
    TextThenRest(s.pending, rest);
    RunThenRest(s.out, FlushText(s.pending) + rest);
    Regroup(s.out, FlushText(s.pending), rest);
  }

  lemma {:induction false} UserFits(blocks: seq<Block>)
    ensures Fits(TranslatedUser(blocks), {}, AnswerIds(Message(User, Blocks(blocks))), !SpeaksBeforeAnswering(blocks))
  {
    var part := TranslatedUser(blocks);
    forall rest | Answered(rest) ==> RunIds(rest) == {}
      ensures (Answered(part + rest) <==> Answered(rest) && !SpeaksBeforeAnswering(blocks))
              && (Answered(part + rest) ==> RunIds(part + rest) == AnswerIds(Message(User, Blocks(blocks))))
    {
      if SpeaksBeforeAnswering(blocks) {
        var k := SpeechMakesSpot(blocks);
        SpotInPrefix(UserBlocks(blocks).out, FlushText(UserBlocks(blocks).pending), k);
        SpotInPrefix(part, rest, k);
        SpotIsUnanswered(part + rest, k);
      } else {
        CleanUserFits(blocks, rest);
      }
    }
  }

  // ---------------------------------------------------------------- one assistant message

  /** The calls go out under the ids that answers use, unless one has none. */
  lemma {:induction false} CallsKeepIds(outside: Outside, blocks: seq<Block>, i: nat)
    requires Mints(outside)
    ensures var asked := set c | c in Calls(outside, blocks, i) :: c.id;
            asked == CallIds(Message(Assistant, Blocks(blocks))) <==> NamesItsCalls(blocks)
  {
    CallsNeverEmpty(outside, blocks, i);
    var asked := set c | c in Calls(outside, blocks, i) :: c.id;
    var ids := CallIds(Message(Assistant, Blocks(blocks)));
    if NamesItsCalls(blocks) {
      CallsUnderTheirIds(outside, blocks, i);
    } else {
      assert "" in ids;
      assert "" !in asked;
    }
  }

  lemma {:induction false} CallsNeverEmpty(outside: Outside, blocks: seq<Block>, i: nat)
    requires Mints(outside)
    ensures forall c :: c in Calls(outside, blocks, i) ==> c.id != ""
  {
    if blocks != [] {
      CallsNeverEmpty(outside, blocks[..|blocks| - 1], i);
    }
  }

  lemma {:induction false} CallsUnderTheirIds(outside: Outside, blocks: seq<Block>, i: nat)
    requires NamesItsCalls(blocks)
    ensures (set c | c in Calls(outside, blocks, i) :: c.id) == CallIds(Message(Assistant, Blocks(blocks)))
  {
    if blocks != [] {
      var front, b := blocks[..|blocks| - 1], blocks[|blocks| - 1];
      assert blocks == front + [b];
      CallsUnderTheirIds(outside, front, i);
      var before := Calls(outside, front, i);
      var ids := CallIds(Message(Assistant, Blocks(front)));
      if b.ToolUse? {
        var last := CallOf(outside, b, i, |front|);
        assert (set c | c in before + [last] :: c.id) == (set c | c in before :: c.id) + {last.id};
      } else {
        assert before + [] == before;
      }
      assert CallIds(Message(Assistant, Blocks(blocks))) == ids + if b.ToolUse? then {b.id} else {};
    }
  }

  /** A message that is not an answer is followed by answers to its calls. */
  lemma {:induction false} SingleFits(m: ChatMessage, calls: set<string>, clean: bool)
    requires !m.ToolSays? && (AskedBy(m) == calls <==> clean)
    ensures Fits([m], calls, {}, clean)
  {
    forall rest | Answered(rest) ==> RunIds(rest) == calls
      ensures (Answered([m] + rest) <==> Answered(rest) && clean) && (Answered([m] + rest) ==> RunIds([m] + rest) == {})
    {
      assert ([m] + rest)[1..] == rest;
    }
  }

  lemma {:induction false} MessageFits(outside: Outside, message: Message, i: nat)
    requires Mints(outside)
    ensures Fits(TranslatedOne(outside, message, i), CallIds(message), AnswerIds(message), Clean(message))
  {
    if message.role.User? && message.content.Blocks? {
      UserFits(message.content.blocks);
    } else {
      if message.role.Assistant? && message.content.Blocks? {
        CallsKeepIds(outside, message.content.blocks, i);
      }
      SingleFits(TranslatedOne(outside, message, i)[0], CallIds(message), Clean(message));
    }
  }

  // ---------------------------------------------------------------- pairing is preserved

  lemma {:induction false} FitsRest(part: seq<ChatMessage>, calls: set<string>, answers: set<string>, clean: bool,
          rest: seq<ChatMessage>)
    requires Fits(part, calls, answers, clean) && (Answered(rest) ==> RunIds(rest) == calls)
    ensures Answered(part + rest) <==> Answered(rest) && clean
    ensures Answered(part + rest) ==> RunIds(part + rest) == answers
  {
  }

  /** Parts whose calls and answers match their neighbours' make an answered chat exactly when all are clean. */
  lemma {:induction false} PartsFit(parts: seq<seq<ChatMessage>>, calls: seq<set<string>>,
          answers: seq<set<string>>, clean: seq<bool>, i: nat)
    requires |calls| == |clean| == |parts| && |answers| == |parts| + 1 && i <= |parts|
    requires answers[|parts|] == {}
    requires forall k :: 0 <= k < |parts| ==> Fits(parts[k], calls[k], answers[k], clean[k])
    requires forall k :: 0 <= k < |parts| ==> calls[k] == answers[k + 1]
    ensures Answered(FlatFrom(parts, i)) <==> forall k :: i <= k < |parts| ==> clean[k]
    ensures Answered(FlatFrom(parts, i)) ==> RunIds(FlatFrom(parts, i)) == answers[i]
    decreases |parts| - i
  {
    if i < |parts| {
      PartsFit(parts, calls, answers, clean, i + 1);
      FitsRest(parts[i], calls[i], answers[i], clean[i], FlatFrom(parts, i + 1));
    }
  }

  predicate AllClean(messages: seq<Message>) {
    forall k :: 0 <= k < |messages| ==> Clean(messages[k])
  }

  function CallsOf(messages: seq<Message>): seq<set<string>> {
    seq(|messages|, k requires 0 <= k < |messages| => CallIds(messages[k]))
  }

  function AnswersOf(messages: seq<Message>): seq<set<string>> {
    seq(|messages|, k requires 0 <= k < |messages| => AnswerIds(messages[k])) + [{}]
  }

  lemma {:induction false} PairedNeighbours(messages: seq<Message>, k: nat)
    requires OrphanRepair.Paired(messages) && k < |messages|
    ensures CallsOf(messages)[k] == AnswersOf(messages)[k + 1]
  {
    if k + 1 < |messages| {
      assert AnswerIds(messages[k + 1]) == OrphanRepair.CallsBefore(messages, k + 1);
    }
  }

  function CleanOf(messages: seq<Message>): seq<bool> {
    seq(|messages|, k requires 0 <= k < |messages| => Clean(messages[k]))
  }

  lemma {:induction false} EachFits(outside: Outside, messages: seq<Message>, k: nat)
    requires Mints(outside) && k < |messages|
    ensures Fits(TranslatedEach(outside, messages)[k], CallsOf(messages)[k], AnswersOf(messages)[k],
                 CleanOf(messages)[k])
  {
    MessageFits(outside, messages[k], k);
  }

  lemma {:induction false} AnsweredIffClean(outside: Outside, messages: seq<Message>)
    requires Mints(outside) && OrphanRepair.Paired(messages)
    ensures Answered(FlatFrom(TranslatedEach(outside, messages), 0)) <==> AllClean(messages)
    ensures Answered(FlatFrom(TranslatedEach(outside, messages), 0)) ==>
              RunIds(FlatFrom(TranslatedEach(outside, messages), 0)) == AnswersOf(messages)[0]
  {
    var parts, calls, answers := TranslatedEach(outside, messages), CallsOf(messages), AnswersOf(messages);
    var clean := CleanOf(messages);
    forall k | 0 <= k < |parts| ensures calls[k] == answers[k + 1] {
      PairedNeighbours(messages, k);
    }
    forall k | 0 <= k < |parts| ensures Fits(parts[k], calls[k], answers[k], clean[k]) {
      EachFits(outside, messages, k);
    }
    PartsFit(parts, calls, answers, clean, 0);
    CleanEach(messages);
  }

  lemma {:induction false} CleanEach(messages: seq<Message>)
    ensures AllClean(messages) <==> forall k :: 0 <= k < |messages| ==> CleanOf(messages)[k]
  {
    forall k | 0 <= k < |messages| ensures CleanOf(messages)[k] == Clean(messages[k]) {
    }
  }

  /**
   A conversation whose calls and results are paired becomes a chat in which
   every assistant message is followed at once by tool messages answering
   exactly its calls, and no others, if and only if in each user message the
   results come before any text and no call has an empty identifier.
   */
  lemma {:induction false} TranslationKeepsPairing(outside: Outside, system: Content, messages: seq<Message>)
    requires Mints(outside) && OrphanRepair.Paired(messages)
    ensures WellAnswered(Translated(outside, system, messages)) <==> AllClean(messages)
  {
    AnsweredIffClean(outside, messages);
    if messages != [] {
      assert AnswerIds(messages[0]) == OrphanRepair.CallsBefore(messages, 0);
    }
    SystemFirst(system, FlatFrom(TranslatedEach(outside, messages), 0));
  }

  lemma {:induction false} SystemFirst(system: Content, rest: seq<ChatMessage>)
    requires Answered(rest) ==> RunIds(rest) == {}
    ensures WellAnswered(SystemPart(system) + rest) <==> Answered(rest)
  {
    if ContentText(system) == "" {
      assert SystemPart(system) + rest == rest;
    } else {
      assert (SystemPart(system) + rest)[1..] == rest;
    }
  }
}
