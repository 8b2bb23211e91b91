/**
 What translation keeps of any conversation: its tool traffic and its texts, in
 order, and a reply on its way back.
 */
module OpenAiContent {
  import opened Messages
  import opened Options
  import opened Sequences
  import opened OpenAiTranslation

  // ---------------------------------------------------------------- nothing is dropped or reordered

  /** The tool traffic of a conversation. */
  datatype Traffic = Asked(call: Call) | Told(id: string, output: string)

  function Ask(call: Call): seq<Traffic> {
    [Asked(call)]
  }

  function Tell(b: Block): seq<Traffic> {
    if b.ToolResult? then [Told(b.toolUseId, b.output)] else []
  }

  /** The call that block `j` of message `i` makes: under its own id if it has one. */
  function AskAt(outside: Outside, blocks: seq<Block>, i: nat, j: nat): seq<Traffic>
    requires j < |blocks|
  {
    match blocks[j]
    case ToolUse(id, name, input, _) =>
      [Asked(Call(if id == "" then outside.mint(i, j) else id, name, outside.dump(input)))]
    case _ => []
  }

  function AskEach(outside: Outside, blocks: seq<Block>, i: nat): seq<seq<Traffic>> {
    seq(|blocks|, j requires 0 <= j < |blocks| => AskAt(outside, blocks, i, j))
  }

  /** A message's calls and results, read off its blocks one by one. */
  function TrafficOf(outside: Outside, message: Message, i: nat): seq<Traffic> {
    match (message.role, message.content)
    case (Assistant, Blocks(blocks)) => FlatFrom(AskEach(outside, blocks, i), 0)
    case (User, Blocks(blocks)) => Collect(Tell, blocks)
    case _ => []
  }

  function TrafficIn(m: ChatMessage): seq<Traffic> {
    match m
    case AssistantSays(_, calls) => Collect(Ask, calls)
    case ToolSays(id, content) => [Told(id, content)]
    case _ => []
  }

  function TrafficEach(outside: Outside, messages: seq<Message>): seq<seq<Traffic>> {
    seq(|messages|, i requires 0 <= i < |messages| => TrafficOf(outside, messages[i], i))
  }

  lemma {:induction false} CallsAreAsked(outside: Outside, blocks: seq<Block>, i: nat)
    ensures Collect(Ask, Calls(outside, blocks, i)) == FlatFrom(AskEach(outside, blocks, i), 0)
  {
    if blocks != [] {
      var j := |blocks| - 1;
      var front := blocks[..j];
      CallsAreAsked(outside, front, i);
      assert AskEach(outside, blocks, i) == AskEach(outside, front, i) + [AskAt(outside, blocks, i, j)];
      FlatSnoc(AskEach(outside, front, i), AskAt(outside, blocks, i, j), 0);
      var before := Calls(outside, front, i);
      if blocks[j].ToolUse? {
        CollectMore(Ask, before, CallOf(outside, blocks[j], i, j));
      } else {
        assert before + [] == before;
      }
    }
  }

  lemma {:induction false} FlushIsQuiet(pending: seq<string>)
    ensures Collect(TrafficIn, FlushText(pending)) == []
  {
    if pending != [] {
      CollectOne(TrafficIn, UserSays(JoinLines(pending)));
    }
  }

  lemma {:induction false} UserTraffic(blocks: seq<Block>)
    ensures Collect(TrafficIn, UserBlocks(blocks).out) == Collect(Tell, blocks)
  {
    if blocks != [] {
      var front, b := blocks[..|blocks| - 1], blocks[|blocks| - 1];
      var s := UserBlocks(front);
      UserTraffic(front);
      if b.ToolResult? {
        CollectMore(TrafficIn, s.out + FlushText(s.pending), ToolSays(b.toolUseId, b.output));
        CollectOfConcat(TrafficIn, s.out, FlushText(s.pending));
        FlushIsQuiet(s.pending);
      }
    }
  }

  lemma {:induction false} MessageTraffic(outside: Outside, message: Message, i: nat)
    ensures Collect(TrafficIn, TranslatedOne(outside, message, i)) == TrafficOf(outside, message, i)
  {
    if message.role.User? && message.content.Blocks? {
      var s := UserBlocks(message.content.blocks);
      UserTraffic(message.content.blocks);
      CollectOfConcat(TrafficIn, s.out, FlushText(s.pending));
      FlushIsQuiet(s.pending);
    } else {
      CollectOne(TrafficIn, TranslatedOne(outside, message, i)[0]);
      if message.role.Assistant? && message.content.Blocks? {
        CallsAreAsked(outside, message.content.blocks, i);
      }
    }
  }

  /** Of every conversation, each call and each result goes out once, in order. */
  lemma {:induction false} TrafficIsKept(outside: Outside, system: Content, messages: seq<Message>)
    ensures Collect(TrafficIn, Translated(outside, system, messages)) == FlatFrom(TrafficEach(outside, messages), 0)
  {
    var parts := TranslatedEach(outside, messages);
    var gathered := TrafficEach(outside, messages);
    forall k | 0 <= k < |parts| ensures gathered[k] == Collect(TrafficIn, parts[k]) {
      MessageTraffic(outside, messages[k], k);
    }
    CollectOfFlat(TrafficIn, parts, gathered, 0);
    CollectOfConcat(TrafficIn, SystemPart(system), FlatFrom(parts, 0));
    if SystemPart(system) != [] {
      CollectOne(TrafficIn, SystemPart(system)[0]);
    }
  }

  // ---------------------------------------------------------------- text is kept in order

  function Line(text: string): seq<string> {
    if |text| > 0 then [text] else []
  }

  /** What a block says in a list of system blocks. */
  function SystemLine(b: Block): seq<string> {
    match b
    case Text(text, _) => Line(text)
    case ToolResult(_, output, _) => Line(output)
    case Bare(literal) => Line(literal)
    case ToolUse(_, _, _, _) => []
    case Other(_, _) => []
  }

  /** What a user's block says; a result is an answer, not said. */
  function UserLine(b: Block): seq<string> {
    match b
    case Text(text, _) => Line(text)
    case Bare(literal) => Line(literal)
    case ToolResult(_, _, _) => []
    case ToolUse(_, _, _, _) => []
    case Other(_, _) => []
  }

  function AssistantLine(b: Block): seq<string> {
    match b
    case Text(text, _) => Line(text)
    case _ => []
  }

  /** The non-empty texts of a message, read off its blocks. */
  function SpeechOf(message: Message): seq<string> {
    match (message.role, message.content)
    case (Assistant, Blocks(blocks)) => Collect(AssistantLine, blocks)
    case (User, Blocks(blocks)) => Collect(UserLine, blocks)
    case (System, Blocks(blocks)) => Collect(SystemLine, blocks)
    case (_, Plain(text)) => Line(text)
  }

  /** The texts of the system prompt. */
  function SystemSpeech(system: Content): seq<string> {
    SpeechOf(Message(System, system))
  }

  lemma {:induction false} CollectAlike<A, B>(f: A -> seq<B>, g: A -> seq<B>, xs: seq<A>)
    requires forall x :: f(x) == g(x)
    ensures Collect(f, xs) == Collect(g, xs)
  {
    if xs != [] {
      CollectAlike(f, g, xs[..|xs| - 1]);
    }
  }

  /** The translator takes from each block what the block says. */
  lemma {:induction false} PartsAreLines(blocks: seq<Block>)
    ensures Collect(Part, blocks) == Collect(SystemLine, blocks)
    ensures Collect(UserPart, blocks) == Collect(UserLine, blocks)
    ensures Collect(AssistantPart, blocks) == Collect(AssistantLine, blocks)
  {
    CollectAlike(Part, SystemLine, blocks);
    CollectAlike(UserPart, UserLine, blocks);
    CollectAlike(AssistantPart, AssistantLine, blocks);
  }

  lemma {:induction false} ContentSays(content: Content)
    ensures ContentText(content) == JoinLines(SystemSpeech(content))
  {
    if content.Blocks? {
      PartsAreLines(content.blocks);
    }
  }

  function SaidBy(m: ChatMessage): seq<string> {
    match m
    case SystemSays(content) => Line(content)
    case UserSays(content) => Line(content)
    case AssistantSays(reply, _) => if reply.Some? then Line(reply.value) else []
    case ToolSays(_, _) => []
  }

  predicate AllNonEmpty(parts: seq<string>) {
    forall k :: 0 <= k < |parts| ==> parts[k] != ""
  }

  /** Two texts on lines of their own; an empty one takes no line. */
  function Joint(a: string, b: string): string {
    if a == "" then b else if b == "" then a else a + "\n" + b
  }

  lemma {:induction false} JointIsAssociative(a: string, b: string, c: string)
    ensures Joint(Joint(a, b), c) == Joint(a, Joint(b, c))
  {
    if a != "" && b != "" && c != "" {
      assert a + "\n" + b + "\n" + c == a + "\n" + (b + "\n" + c);
    }
  }

  lemma {:induction false} JoinOneMore(x: seq<string>, last: string)
    requires AllNonEmpty(x) && last != ""
    ensures JoinLines(x + [last]) == Joint(JoinLines(x), last)
  {
    if x == [] {
      assert x + [last] == [last];
    } else {
      assert (x + [last])[..|x|] == x;
      assert x[0] != "";
    }
  }

  lemma {:induction false} JoinOfConcat(x: seq<string>, y: seq<string>)
    requires AllNonEmpty(x) && AllNonEmpty(y)
    ensures JoinLines(x + y) == Joint(JoinLines(x), JoinLines(y))
  {
    if y == [] {
      assert x + y == x;
    } else {
      var front, last := y[..|y| - 1], y[|y| - 1];
      calc {
        JoinLines(x + y);
        { assert x + y == x + front + [last]; JoinOneMore(x + front, last); }
        Joint(JoinLines(x + front), last);
        { JoinOfConcat(x, front); }
        Joint(Joint(JoinLines(x), JoinLines(front)), last);
        { JointIsAssociative(JoinLines(x), JoinLines(front), last); }
        Joint(JoinLines(x), Joint(JoinLines(front), last));
        { assert y == front + [last]; JoinOneMore(front, last); }
        Joint(JoinLines(x), JoinLines(y));
      }
    }
  }

  lemma {:induction false} CollectedNonEmpty<A>(f: A -> seq<string>, xs: seq<A>)
    requires forall x :: x in xs ==> AllNonEmpty(f(x))
    ensures AllNonEmpty(Collect(f, xs))
  {
    if xs != [] {
      CollectedNonEmpty(f, xs[..|xs| - 1]);
      assert xs[|xs| - 1] in xs;
    }
  }

  lemma {:induction false} SpeechNonEmpty(message: Message)
    ensures AllNonEmpty(SpeechOf(message))
  {
    if message.content.Blocks? {
      CollectedNonEmpty(AssistantLine, message.content.blocks);
      CollectedNonEmpty(UserLine, message.content.blocks);
      CollectedNonEmpty(SystemLine, message.content.blocks);
    }
  }

  lemma {:induction false} SaidNonEmpty(chat: seq<ChatMessage>)
    ensures AllNonEmpty(Collect(SaidBy, chat))
  {
    CollectedNonEmpty(SaidBy, chat);
  }

  /** Everything a chat says, as one text. */
  function Voice(chat: seq<ChatMessage>): string {
    JoinLines(Collect(SaidBy, chat))
  }

  lemma {:induction false} VoiceOfConcat(a: seq<ChatMessage>, b: seq<ChatMessage>)
    ensures Voice(a + b) == Joint(Voice(a), Voice(b))
  {
    SaidNonEmpty(a);
    SaidNonEmpty(b);
    CollectOfConcat(SaidBy, a, b);
    JoinOfConcat(Collect(SaidBy, a), Collect(SaidBy, b));
  }

  lemma {:induction false} VoiceOfOne(m: ChatMessage)
    ensures Voice([m]) == JoinLines(SaidBy(m))
  {
    CollectOne(SaidBy, m);
  }

  lemma {:induction false} VoiceOfFlush(pending: seq<string>)
    ensures Voice(FlushText(pending)) == JoinLines(pending)
  {
    if pending != [] {
      VoiceOfOne(UserSays(JoinLines(pending)));
    }
  }

  lemma {:induction false} VoiceAtResult(s: UserState, b: Block)
    requires b.ToolResult?
    ensures Voice(UserStep(s, b).out) == Joint(Voice(s.out), JoinLines(s.pending)) && UserStep(s, b).pending == []
  {
    var tool := ToolSays(b.toolUseId, b.output);
    VoiceOfConcat(s.out + FlushText(s.pending), [tool]);
    VoiceOfConcat(s.out, FlushText(s.pending));
    VoiceOfFlush(s.pending);
    VoiceOfOne(tool);
  }

  lemma {:induction false} VoiceAtText(s: UserState, b: Block)
    requires !b.ToolResult? && AllNonEmpty(s.pending)
    ensures AllNonEmpty(UserStep(s, b).pending) && UserStep(s, b).out == s.out
    ensures JoinLines(UserStep(s, b).pending) == Joint(JoinLines(s.pending), JoinLines(UserPart(b)))
  {
    JoinOfConcat(s.pending, UserPart(b));
  }

  /** Everything said by a user up to some block. */
  function UserVoice(s: UserState): string {
    Joint(Voice(s.out), JoinLines(s.pending))
  }

  lemma {:induction false} StepVoice(s: UserState, b: Block)
    requires AllNonEmpty(s.pending)
    ensures AllNonEmpty(UserStep(s, b).pending)
    ensures UserVoice(UserStep(s, b)) == Joint(UserVoice(s), JoinLines(UserPart(b)))
  {
    if b.ToolResult? {
      VoiceAtResult(s, b);
    } else {
      VoiceAtText(s, b);
      JointIsAssociative(Voice(s.out), JoinLines(s.pending), JoinLines(UserPart(b)));
    }
  }

  lemma {:induction false} PendingNonEmpty(blocks: seq<Block>)
    ensures AllNonEmpty(UserBlocks(blocks).pending)
  {
    if blocks != [] {
      PendingNonEmpty(blocks[..|blocks| - 1]);
    }
  }

  /** A user's texts are grouped around the results, but stay in order. */
  lemma {:induction false} UserSpeech(blocks: seq<Block>)
    ensures UserVoice(UserBlocks(blocks)) == JoinLines(Collect(UserPart, blocks))
  {
    if blocks != [] {
      var front, b := blocks[..|blocks| - 1], blocks[|blocks| - 1];
      var before := Collect(UserPart, front);
      calc {
        UserVoice(UserStep(UserBlocks(front), b));
        { PendingNonEmpty(front); StepVoice(UserBlocks(front), b); }
        Joint(UserVoice(UserBlocks(front)), JoinLines(UserPart(b)));
        { UserSpeech(front); }
        Joint(JoinLines(before), JoinLines(UserPart(b)));
        { CollectedNonEmpty(UserPart, front); JoinOfConcat(before, UserPart(b)); }
        JoinLines(before + UserPart(b));
      }
    }
  }

  lemma {:induction false} UserMessageVoice(blocks: seq<Block>)
    ensures Voice(TranslatedUser(blocks)) == JoinLines(Collect(UserPart, blocks))
  {
    var s := UserBlocks(blocks);
    calc {
      Voice(s.out + FlushText(s.pending));
      { VoiceOfConcat(s.out, FlushText(s.pending)); VoiceOfFlush(s.pending); }
      UserVoice(s);
      { UserSpeech(blocks); }
      JoinLines(Collect(UserPart, blocks));
    }
  }

  /** A message that says one text, or none. */
  lemma {:induction false} VoiceOfText(m: ChatMessage, text: string)
    requires SaidBy(m) == Line(text)
    ensures Voice([m]) == text == JoinLines(Line(text))
  {
    VoiceOfOne(m);
  }

  lemma {:induction false} MessageVoice(outside: Outside, message: Message, i: nat)
    ensures Voice(TranslatedOne(outside, message, i)) == JoinLines(SpeechOf(message))
  {
    if message.content.Blocks? {
      PartsAreLines(message.content.blocks);
    }
    match (message.role, message.content)
    case (Assistant, Blocks(blocks)) =>
      var text := JoinLines(Collect(AssistantPart, blocks));
      VoiceOfText(AssistantSays(TextOrNone(text), Calls(outside, blocks, i)), text);
    case (User, Blocks(blocks)) => UserMessageVoice(blocks);
    case (User, Plain(text)) => VoiceOfText(UserSays(text), text);
    case (Assistant, Plain(text)) => VoiceOfText(AssistantSays(Some(text), []), text);
    case (System, content) =>
      ContentSays(content);
      VoiceOfText(SystemSays(ContentText(content)), ContentText(content));
  }

  lemma {:induction false} FlatVoice(parts: seq<seq<ChatMessage>>, speech: seq<seq<string>>, i: nat)
    requires |parts| == |speech| && i <= |parts|
    requires forall k :: 0 <= k < |parts| ==> AllNonEmpty(speech[k]) && Voice(parts[k]) == JoinLines(speech[k])
    ensures AllNonEmpty(FlatFrom(speech, i))
    ensures Voice(FlatFrom(parts, i)) == JoinLines(FlatFrom(speech, i))
    decreases |parts| - i
  {
    if i < |parts| {
      FlatVoice(parts, speech, i + 1);
      VoiceOfConcat(parts[i], FlatFrom(parts, i + 1));
      JoinOfConcat(speech[i], FlatFrom(speech, i + 1));
    }
  }

  function SpeechEach(messages: seq<Message>): seq<seq<string>> {
    seq(|messages|, i requires 0 <= i < |messages| => SpeechOf(messages[i]))
  }

  /** The chat begins with the system prompt's texts as one message, or with no such message if there are none. */
  lemma {:induction false} SystemIsSaidFirst(outside: Outside, system: Content, messages: seq<Message>)
    ensures var texts := SystemSpeech(system);
            Translated(outside, system, messages)
            == (if texts == [] then [] else [SystemSays(JoinLines(texts))])
               + FlatFrom(TranslatedEach(outside, messages), 0)
  {
    ContentSays(system);
    SpeechNonEmpty(Message(System, system));
    JoinedIsNonEmpty(SystemSpeech(system));
  }

  lemma {:induction false} JoinedIsNonEmpty(texts: seq<string>)
    requires AllNonEmpty(texts)
    ensures JoinLines(texts) == "" <==> texts == []
  {
    if texts != [] {
      var front, last := texts[..|texts| - 1], texts[|texts| - 1];
      assert texts == front + [last];
      JoinOneMore(front, last);
    }
  }

  /**
   Every conversation says the same in the chat: after the system texts, the same
   non-empty texts in the same order.
   */
  lemma {:induction false} TextIsKept(outside: Outside, system: Content, messages: seq<Message>)
    ensures Voice(Translated(outside, system, messages))
            == JoinLines(SystemSpeech(system) + FlatFrom(SpeechEach(messages), 0))
  {
    var parts, speech := TranslatedEach(outside, messages), SpeechEach(messages);
    forall k | 0 <= k < |parts| ensures AllNonEmpty(speech[k]) && Voice(parts[k]) == JoinLines(speech[k]) {
      MessageVoice(outside, messages[k], k);
      SpeechNonEmpty(messages[k]);
    }
    FlatVoice(parts, speech, 0);
    VoiceOfConcat(SystemPart(system), FlatFrom(parts, 0));
    SystemVoice(system);
    JoinOfConcat(SystemSpeech(system), FlatFrom(speech, 0));
  }

  lemma {:induction false} SystemVoice(system: Content)
    ensures Voice(SystemPart(system)) == JoinLines(SystemSpeech(system)) && AllNonEmpty(SystemSpeech(system))
  {
    ContentSays(system);
    SpeechNonEmpty(Message(System, system));
    if SystemPart(system) != [] {
      VoiceOfOne(SystemPart(system)[0]);
    }
  }

  /** Who says a chat message; answers to calls come from the user's side. */
  function RoleOf(m: ChatMessage): Role {
    match m
    case SystemSays(_) => System
    case AssistantSays(_, _) => Assistant
    case UserSays(_) => User
    case ToolSays(_, _) => User
  }

  lemma {:induction false} UserBlocksAreUsers(blocks: seq<Block>)
    ensures forall m :: m in UserBlocks(blocks).out ==> RoleOf(m).User?
  {
    if blocks != [] {
      UserBlocksAreUsers(blocks[..|blocks| - 1]);
    }
  }

  /**
   Message by message: the part of the chat that message `k` becomes is said in
   its role and says its texts, in order. All but a user's blocks become one
   message, and an assistant who says nothing has no text at all.
   */
  lemma {:induction false} EachMessageKeepsRoleAndText(outside: Outside, messages: seq<Message>, k: nat)
    requires k < |messages|
    ensures var part, texts := TranslatedEach(outside, messages)[k], SpeechOf(messages[k]);
            && (forall m :: m in part ==> RoleOf(m) == messages[k].role)
            && Voice(part) == JoinLines(texts)
            && (!messages[k].role.User? || messages[k].content.Plain? ==> |part| == 1)
            && (messages[k].role.Assistant? && messages[k].content.Blocks? && texts == []
                ==> part[0].AssistantSays? && part[0].reply == None)
  {
    MessageVoice(outside, messages[k], k);
    if messages[k].content.Blocks? {
      UserBlocksAreUsers(messages[k].content.blocks);
      PartsAreLines(messages[k].content.blocks);
    }
  }

  // ---------------------------------------------------------------- what stands between two results

  function Behind(before: seq<ChatMessage>, s: UserState): UserState {
    UserState(before + s.out, s.pending)
  }

  lemma {:induction false} StepBehind(before: seq<ChatMessage>, s: UserState, b: Block)
    ensures UserStep(Behind(before, s), b) == Behind(before, UserStep(s, b))
  {
    if b.ToolResult? {
      var more := FlushText(s.pending) + [ToolSays(b.toolUseId, b.output)];
      assert before + s.out + FlushText(s.pending) + [ToolSays(b.toolUseId, b.output)] == before + (s.out + more);
      assert s.out + FlushText(s.pending) + [ToolSays(b.toolUseId, b.output)] == s.out + more;
    }
  }

  lemma {:induction false} OneMoreBlock(blocks: seq<Block>, b: Block)
    ensures UserBlocks(blocks + [b]) == UserStep(UserBlocks(blocks), b)
  {
    assert (blocks + [b])[..|blocks|] == blocks;
  }

  lemma {:induction false} AtResult(front: seq<Block>, result: Block)
    requires result.ToolResult?
    ensures UserBlocks(front + [result])
            == UserState(TranslatedUser(front) + [ToolSays(result.toolUseId, result.output)], [])
  {
    OneMoreBlock(front, result);
  }

  lemma {:induction false} AfterResult(start: seq<Block>, rest: seq<Block>, before: seq<ChatMessage>)
    requires UserBlocks(start) == UserState(before, [])
    ensures UserBlocks(start + rest) == Behind(before, UserBlocks(rest))
  {
    if rest == [] {
      assert start + rest == start && before + [] == before;
    } else {
      var more, b := rest[..|rest| - 1], rest[|rest| - 1];
      assert start + rest == start + more + [b];
      AfterResult(start, more, before);
      StepBehind(before, UserBlocks(more), b);
      OneMoreBlock(start + more, b);
    }
  }

  lemma {:induction false} NoResultNoMessage(blocks: seq<Block>)
    requires forall b :: b in blocks ==> !b.ToolResult?
    ensures UserBlocks(blocks) == UserState([], Collect(UserPart, blocks))
  {
    if blocks != [] {
      assert blocks[|blocks| - 1] in blocks;
      NoResultNoMessage(blocks[..|blocks| - 1]);
    }
  }

  /**
   A user's blocks without a result are one message of their texts, or none if
   there are no texts; and a result stands between what its two sides become.
   */
  lemma {:induction false} TextStaysBetweenResults(front: seq<Block>, result: Block, rest: seq<Block>)
    requires result.ToolResult?
    ensures TranslatedUser(front + [result] + rest)
            == TranslatedUser(front) + [ToolSays(result.toolUseId, result.output)] + TranslatedUser(rest)
    ensures (forall b :: b in front ==> !b.ToolResult?) ==>
              var texts := Collect(UserLine, front);
              TranslatedUser(front) == if texts == [] then [] else [UserSays(JoinLines(texts))]
  {
    var before := TranslatedUser(front) + [ToolSays(result.toolUseId, result.output)];
    AtResult(front, result);
    AfterResult(front + [result], rest, before);
    Regroup(before, UserBlocks(rest).out, FlushText(UserBlocks(rest).pending));
    if forall b :: b in front ==> !b.ToolResult? {
      NoResultNoMessage(front);
      PartsAreLines(front);
    }
  }

  // ---------------------------------------------------------------- round trip

  /** What comes back out of a reply's calls: their own ids and names, with the arguments re-written. */
  function Rewritten(outside: Outside, calls: seq<Call>): seq<Call> {
    if calls == [] then []
    else
      var c := calls[|calls| - 1];
      Rewritten(outside, calls[..|calls| - 1]) + [c.(arguments := outside.dump(outside.parse(c.arguments)))]
  }

  lemma {:induction false} CallsMore(outside: Outside, blocks: seq<Block>, b: Block, k: nat)
    ensures Calls(outside, blocks + [b], k)
            == Calls(outside, blocks, k) + if b.ToolUse? then [CallOf(outside, b, k, |blocks|)] else []
  {
    assert (blocks + [b])[..|blocks|] == blocks;
  }

  lemma {:induction false} CallsComeBack(outside: Outside, reply: Reply, calls: seq<Call>, i: nat, k: nat)
    requires forall c :: c in calls ==> c.id != ""
    ensures Calls(outside, ReplyText(reply) + ReplyCalls(outside, calls, i), k) == Rewritten(outside, calls)
    ensures Collect(AssistantPart, ReplyText(reply) + ReplyCalls(outside, calls, i))
            == Collect(AssistantPart, ReplyText(reply))
  {
    var text := ReplyText(reply);
    if calls == [] {
      assert text + [] == text;
      if text != [] {
        CallsMore(outside, [], text[0], k);
        assert [] + [text[0]] == text;
      }
    } else {
      var front, c := calls[..|calls| - 1], calls[|calls| - 1];
      CallsComeBack(outside, reply, front, i, k);
      var last := ToolUse(c.id, c.name, outside.parse(c.arguments), false);
      var blocks := text + ReplyCalls(outside, front, i);
      Regroup(text, ReplyCalls(outside, front, i), [last]);
      CallsMore(outside, blocks, last, k);
      CollectMore(AssistantPart, blocks, last);
    }
  }

  /** A reply is read as its text, if it has one, followed by one call each, under a made-up id where it has none. */
  lemma {:induction false} ReplyReadsOff(outside: Outside, reply: Reply, i: nat, j: nat)
    requires j < |reply.calls|
    ensures var text := if reply.text == None || reply.text == Some("") then [] else [Text(reply.text.value, false)];
            var m, c := ReplyMessage(outside, reply, i), reply.calls[j];
            && m.role == Assistant && m.content.Blocks? && |m.content.blocks| == |text| + |reply.calls|
            && text <= m.content.blocks
            && m.content.blocks[|text| + j]
               == ToolUse(if c.id == "" then outside.mint(i, j) else c.id, c.name, outside.parse(c.arguments), false)
  {
    CallAt(outside, reply.calls, i, j);
  }

  lemma {:induction false} CallAt(outside: Outside, calls: seq<Call>, i: nat, j: nat)
    requires j < |calls|
    ensures |ReplyCalls(outside, calls, i)| == |calls|
    ensures var c := calls[j];
            ReplyCalls(outside, calls, i)[j]
            == ToolUse(if c.id == "" then outside.mint(i, j) else c.id, c.name, outside.parse(c.arguments), false)
  {
    if |calls| > 1 {
      CallAt(outside, calls[..|calls| - 1], i, if j < |calls| - 1 then j else 0);
    }
  }

  /**
   Round trip: a reply whose calls have identifiers, stored as an assistant
   message and sent again, goes out with its text and its calls as received,
   the arguments re-serialized.
   */
  lemma {:induction false} ReplyRoundTrip(outside: Outside, reply: Reply, i: nat, k: nat)
    requires forall c :: c in reply.calls ==> c.id != ""
    ensures TranslatedOne(outside, ReplyMessage(outside, reply, i), k)
            == [AssistantSays(if reply.text.Some? then TextOrNone(reply.text.value) else None,
                              Rewritten(outside, reply.calls))]
  {
    CallsComeBack(outside, reply, reply.calls, i, k);
    if ReplyText(reply) != [] {
      CollectOne(AssistantPart, ReplyText(reply)[0]);
    }
  }
}
