/**
 ConversationHistory (backend/foreman/history.py): reading back the persisted
 turns. A conversation is read in two queries, sizes first, so that rows which
 cannot fit the context window are never loaded.
 */
module ConversationHistory {
  import opened Options
  import opened Messages
  import opened OrphanRepair
  import opened ContextBudget

  const MAX_CONVERSATION_TURNS := 2_000
  const HISTORY_FETCH_LIMIT := 100
  const HUMAN_TURN_WINDOW := 3

  /** A row of foreman_turns; `owner` stands for its (guild, user) pair. */
  datatype Turn = Turn(id: int, owner: string, conversationId: Option<int>,
                       role: Role, content: Content, isToolResponse: bool)

  /** Rows as the primary key orders them. */
  ghost predicate Ordered(rows: seq<Turn>) {
    forall i, j :: 0 <= i < j < |rows| ==> rows[i].id < rows[j].id
  }

  // ---------------------------------------------------------------- specification

  function OfConversation(log: seq<Turn>, conversation: int): (r: seq<Turn>) {
    if log == [] then []
    else
      var rest := OfConversation(log[1..], conversation);
      if log[0].conversationId == Some(conversation) then [log[0]] + rest else rest
  }

  function OfOwner(log: seq<Turn>, owner: string): seq<Turn> {
    if log == [] then []
    else
      var rest := OfOwner(log[1..], owner);
      if log[0].owner == owner then [log[0]] + rest else rest
  }

  function Last<T>(s: seq<T>, n: nat): seq<T> {
    if |s| <= n then s else s[|s| - n..]
  }

  /** The provider's messages: system turns are audit rows and are left out. */
  function AsMessages(rows: seq<Turn>): seq<Message> {
    if rows == [] then []
    else
      var rest := AsMessages(rows[1..]);
      if rows[0].role.System? then rest else [Message(rows[0].role, rows[0].content)] + rest
  }

  /** Reading everything and trimming afterwards: what the two queries must agree with. */
  function FullLoad(sizes: Sizes, rows: seq<Turn>, budget: int): seq<Message> {
    Fit(sizes, FromFirstUser(AsMessages(rows)), budget)
  }

  function RowChars(sizes: Sizes, row: Turn): nat {
    if row.role.System? then 0 else ContentLength(sizes, row.content)
  }

  function Chars(sizes: Sizes, rows: seq<Turn>): nat {
    if rows == [] then 0 else RowChars(sizes, rows[0]) + Chars(sizes, rows[1..])
  }

  /**
   The first row the second query reads: the scan goes back from `i` and stops
   at `low`, or where the next older row would overflow a non-empty reading.
   */
  function PrefetchStart(sizes: Sizes, rows: seq<Turn>, low: nat, i: nat, budgetChars: int): (p: nat)
    requires low <= i <= |rows|
    ensures low <= p <= i
    decreases i
  {
    if i == low then low
    else if Chars(sizes, rows[i..]) > 0
         && Chars(sizes, rows[i..]) + RowChars(sizes, rows[i - 1]) > budgetChars then i
    else PrefetchStart(sizes, rows, low, i - 1, budgetChars)
  }

  function Prefetched(sizes: Sizes, rows: seq<Turn>, budget: int): seq<Turn> {
    var low := |rows| - |Last(rows, MAX_CONVERSATION_TURNS)|;
    rows[PrefetchStart(sizes, rows, low, |rows|, budget * CHARS_PER_TOKEN)..]
  }

  function SinceId(rows: seq<Turn>, id: int): seq<Turn> {
    if rows == [] then []
    else if rows[0].id >= id then [rows[0]] + SinceId(rows[1..], id) else SinceId(rows[1..], id)
  }

  predicate IsHumanTurn(row: Turn) {
    row.role.User? && !row.isToolResponse
  }

  function HumanTurns(rows: seq<Turn>): nat {
    if rows == [] then 0 else (if IsHumanTurn(rows[0]) then 1 else 0) + HumanTurns(rows[1..])
  }

  /** The shortest window with HUMAN_TURN_WINDOW human turns, or everything. */
  function HumanWindow(rows: seq<Turn>): seq<Turn> {
    if rows != [] && HumanTurns(rows[1..]) >= HUMAN_TURN_WINDOW then HumanWindow(rows[1..]) else rows
  }

  // ---------------------------------------------------------------- the code

  /** _fetch_conversation_turns: scan sizes newest first, then read from the oldest that fits. */
  method FetchConversationTurns(sizes: Sizes, log: seq<Turn>, conversation: int, budget: int) returns (turns: seq<Turn>)
    requires Ordered(log)
    ensures turns == Prefetched(sizes, OfConversation(log, conversation), budget)
  {
    var rows := OfConversation(log, conversation);
    OfConversationIsOrdered(log, conversation);
    var low := |rows| - |Last(rows, MAX_CONVERSATION_TURNS)|;
    if rows == [] {
      return [];
    }
    var oldest := OldestThatFits(sizes, rows, low, budget * CHARS_PER_TOKEN);
    SinceIdIsSuffix(rows, oldest);
    turns := SinceId(rows, rows[oldest].id);
  }

  /** The scan of the first query, which sees only roles and lengths. */
  method OldestThatFits(sizes: Sizes, rows: seq<Turn>, low: nat, budgetChars: int) returns (oldest: nat)
    requires low < |rows|
    ensures oldest == PrefetchStart(sizes, rows, low, |rows|, budgetChars) < |rows|
  {
    var chars := 0;
    oldest := |rows| - 1;
    var i := |rows|;
    while i > low
      invariant low <= i <= |rows|
      invariant chars == Chars(sizes, rows[i..])
      invariant oldest == (if i == |rows| then |rows| - 1 else i)
      invariant PrefetchStart(sizes, rows, low, |rows|, budgetChars) == PrefetchStart(sizes, rows, low, i, budgetChars)
    {
      var size := if rows[i - 1].role.System? then 0 else ContentLength(sizes, rows[i - 1].content);
      assert rows[i - 1..][1..] == rows[i..];
      if chars != 0 && chars + size > budgetChars {
        break;
      }
      chars := chars + size;
      oldest := i - 1;
      i := i - 1;
    }
  }

  /** load_for_llm for a conversation: exactly what reading every row would give. */
  method LoadConversation(sizes: Sizes, log: seq<Turn>, conversation: int, budget: int) returns (messages: seq<Message>)
    requires Ordered(log)
    ensures messages == FullLoad(sizes, Last(OfConversation(log, conversation), MAX_CONVERSATION_TURNS), budget)
    ensures |OfConversation(log, conversation)| <= MAX_CONVERSATION_TURNS
            ==> messages == FullLoad(sizes, OfConversation(log, conversation), budget)
    ensures var recent := AsMessages(Last(OfConversation(log, conversation), MAX_CONVERSATION_TURNS));
            recent != [] && Tokens(sizes, recent) > budget
            ==> messages == FullLoad(sizes, OfConversation(log, conversation), budget)
  {
    var turns := FetchConversationTurns(sizes, log, conversation, budget);
    messages := AsMessages(turns);
    while messages != [] && !messages[0].role.User?
      invariant FromFirstUser(messages) == FromFirstUser(AsMessages(turns))
    {
      messages := messages[1..];
    }
    messages := FitTokenBudget(sizes, messages, budget);
    ghost var rows := OfConversation(log, conversation);
    PrefetchLosesNothing(sizes, rows, budget);
    ghost var recent := AsMessages(Last(rows, MAX_CONVERSATION_TURNS));
    if recent != [] && Tokens(sizes, recent) > budget {
      CeilingIsHarmless(sizes, rows, budget);
    }
  }

  /** _load_turns without a conversation: back to the third human turn from the end. */
  method LegacyWindow(log: seq<Turn>, owner: string) returns (turns: seq<Turn>, cutoff: nat)
    ensures turns == Last(OfOwner(log, owner), HISTORY_FETCH_LIMIT)
    ensures cutoff <= |turns|
    ensures if HumanTurns(turns) < HUMAN_TURN_WINDOW then cutoff == 0
            else cutoff < |turns| && IsHumanTurn(turns[cutoff]) && HumanTurns(turns[cutoff..]) == HUMAN_TURN_WINDOW
    ensures turns[cutoff..] == HumanWindow(turns)
  {
    turns := Last(OfOwner(log, owner), HISTORY_FETCH_LIMIT);
    cutoff := 0;
    var humanCount := 0;
    var i := |turns|;
    while i > 0
      invariant 0 <= i <= |turns|
      invariant humanCount == HumanTurns(turns[i..]) < HUMAN_TURN_WINDOW
    {
      assert turns[i - 1..][1..] == turns[i..];
      i := i - 1;
      if turns[i].role.User? && !turns[i].isToolResponse {
        humanCount := humanCount + 1;
        if humanCount >= HUMAN_TURN_WINDOW {
          cutoff := i;
          HumanTurnsOfSuffix(turns, i);
          HumanWindowStart(turns, i);
          return;
        }
      }
    }
    assert turns[0..] == turns;
    HumanWindowStart(turns, 0);
  }

  // ---------------------------------------------------------------- steps of the proof

  lemma {:induction false} HumanTurnsOfSuffix(rows: seq<Turn>, i: nat)
    requires i <= |rows|
    ensures HumanTurns(rows[i..]) <= HumanTurns(rows)
  {
    if i == 0 {
      assert rows[0..] == rows;
    } else {
      HumanTurnsOfSuffix(rows[1..], i - 1);
      assert rows[1..][i - 1..] == rows[i..];
    }
  }

  lemma {:induction false} HumanWindowStart(rows: seq<Turn>, cutoff: nat)
    requires cutoff <= |rows|
    requires cutoff < |rows| ==> HumanTurns(rows[cutoff + 1..]) < HUMAN_TURN_WINDOW
    requires cutoff > 0 ==> HumanTurns(rows[cutoff..]) >= HUMAN_TURN_WINDOW
    ensures HumanWindow(rows) == rows[cutoff..]
  {
    if cutoff == 0 {
      assert rows[0..] == rows;
    } else {
      assert rows[1..][cutoff - 1..] == rows[cutoff..];
      if cutoff < |rows| {
        assert rows[1..][cutoff..] == rows[cutoff + 1..];
      }
      HumanTurnsOfSuffix(rows[1..], cutoff - 1);
      HumanWindowStart(rows[1..], cutoff - 1);
    }
  }

  lemma {:induction false} OfConversationIsOrdered(log: seq<Turn>, conversation: int)
    requires Ordered(log)
    ensures Ordered(OfConversation(log, conversation))
    ensures forall t :: t in OfConversation(log, conversation) ==> t in log
  {
    if log != [] {
      OfConversationIsOrdered(log[1..], conversation);
      var rest := OfConversation(log[1..], conversation);
      forall t | t in rest ensures log[0].id < t.id {
        var j :| 0 <= j < |log[1..]| && log[1..][j] == t;
        assert log[j + 1] == t;
      }
    }
  }

  lemma {:induction false} SinceIdIsSuffix(rows: seq<Turn>, p: nat)
    requires Ordered(rows) && p < |rows|
    ensures SinceId(rows, rows[p].id) == rows[p..]
  {
    if p > 0 {
      SinceIdIsSuffix(rows[1..], p - 1);
      assert rows[1..][p - 1..] == rows[p..];
    } else {
      SinceIdKeepsAll(rows, rows[0].id);
    }
  }

  lemma {:induction false} SinceIdKeepsAll(rows: seq<Turn>, id: int)
    requires forall r :: r in rows ==> r.id >= id
    ensures SinceId(rows, id) == rows
  {
    if rows != [] {
      SinceIdKeepsAll(rows[1..], id);
    }
  }

  /** Rounding down per message never undercuts the raw length of its content. */
  lemma {:induction false} TokensCoverChars(sizes: Sizes, rows: seq<Turn>)
    ensures Chars(sizes, rows) <= CHARS_PER_TOKEN * Tokens(sizes, AsMessages(rows))
    ensures Chars(sizes, rows) > 0 ==> AsMessages(rows) != []
  {
    if rows != [] {
      TokensCoverChars(sizes, rows[1..]);
      if !rows[0].role.System? {
        var m := Message(rows[0].role, rows[0].content);
        assert AsMessages(rows)[1..] == AsMessages(rows[1..]);
        assert RowChars(sizes, rows[0]) <= CHARS_PER_TOKEN * MessageTokens(sizes, m);
      }
    }
  }

  lemma {:induction false} AsMessagesOfSuffix(rows: seq<Turn>, p: nat)
    requires p <= |rows|
    ensures IsSuffix(AsMessages(rows[p..]), AsMessages(rows))
  {
    if p == 0 {
      assert rows[0..] == rows;
    } else {
      AsMessagesOfSuffix(rows[1..], p - 1);
      assert rows[1..][p - 1..] == rows[p..];
      SuffixIsTransitive(AsMessages(rows[p..]), AsMessages(rows[1..]), AsMessages(rows));
    }
  }

  /** Where the scan stops early, the rows read up to there no longer fit. */
  lemma {:induction false} PrefetchStop(sizes: Sizes, rows: seq<Turn>, low: nat, i: nat, budgetChars: int)
    requires low <= i <= |rows|
    ensures var p := PrefetchStart(sizes, rows, low, i, budgetChars);
            p > low ==> Chars(sizes, rows[p..]) > 0 && Chars(sizes, rows[p - 1..]) > budgetChars
    decreases i
  {
    if i > low {
      assert rows[i - 1..][1..] == rows[i..];
      if !(Chars(sizes, rows[i..]) > 0 && Chars(sizes, rows[i..]) + RowChars(sizes, rows[i - 1]) > budgetChars) {
        PrefetchStop(sizes, rows, low, i - 1, budgetChars);
      }
    }
  }

  /** Rows that are dropped anyway are not missed, wherever the reading started. */
  lemma {:induction false} EarlyStopIsHarmless(sizes: Sizes, rows: seq<Turn>, p: nat, budget: int)
    requires 0 < p <= |rows|
    requires Chars(sizes, rows[p..]) > 0 && Chars(sizes, rows[p - 1..]) > budget * CHARS_PER_TOKEN
    ensures Fit(sizes, AsMessages(rows[p..]), budget) == Fit(sizes, AsMessages(rows), budget)
  {
    var all, read, more := AsMessages(rows), AsMessages(rows[p..]), AsMessages(rows[p - 1..]);
    TokensCoverChars(sizes, rows[p..]);
    TokensCoverChars(sizes, rows[p - 1..]);
    AsMessagesOfSuffix(rows, p);
    AsMessagesOfSuffix(rows, p - 1);
    assert rows[p - 1..][1..] == rows[p..];
    var q := |all| - |read|;
    assert all[q..] == read;
    if q > 0 {
      SuffixTokens(sizes, all, q - 1, q);
      assert |more| == |read| + 1 ==> all[q - 1..] == more;
    }
    CutIgnoresWhatItDrops(sizes, all, budget, q);
  }

  // ---------------------------------------------------------------- main results

  /**
   The two-query read agrees with the full read: for every log, trimming the
   prefetched rows gives what trimming the newest MAX_CONVERSATION_TURNS rows
   gives, and so what trimming the whole conversation gives up to that many.
   */
  lemma {:induction false} PrefetchLosesNothing(sizes: Sizes, rows: seq<Turn>, budget: int)
    ensures FullLoad(sizes, Prefetched(sizes, rows, budget), budget)
         == FullLoad(sizes, Last(rows, MAX_CONVERSATION_TURNS), budget)
  {
    var low := RecentStart(rows);
    var start := PrefetchStart(sizes, rows, low, |rows|, budget * CHARS_PER_TOKEN);
    PrefetchStop(sizes, rows, low, |rows|, budget * CHARS_PER_TOKEN);
    calc {
      FullLoad(sizes, Prefetched(sizes, rows, budget), budget);
      FullLoad(sizes, rows[start..], budget);
      { StartIsHarmless(sizes, rows, low, start, budget); }
      FullLoad(sizes, rows[low..], budget);
      FullLoad(sizes, Last(rows, MAX_CONVERSATION_TURNS), budget);
    }
  }

  lemma {:induction false} RecentStart(rows: seq<Turn>) returns (low: nat)
    ensures low == |rows| - |Last(rows, MAX_CONVERSATION_TURNS)| <= |rows|
    ensures Last(rows, MAX_CONVERSATION_TURNS) == rows[low..]
  {
    low := |rows| - |Last(rows, MAX_CONVERSATION_TURNS)|;
  }

  lemma {:induction false} StartIsHarmless(sizes: Sizes, rows: seq<Turn>, low: nat, start: nat, budget: int)
    requires low <= start <= |rows|
    requires start > low ==>
               Chars(sizes, rows[start..]) > 0 && Chars(sizes, rows[start - 1..]) > budget * CHARS_PER_TOKEN
    ensures FullLoad(sizes, rows[start..], budget) == FullLoad(sizes, rows[low..], budget)
  {
    var recent, p := rows[low..], start - low;
    assert recent[p..] == rows[start..];
    if p > 0 {
      assert recent[p - 1..] == rows[start - 1..];
      EarlyStopIsHarmless(sizes, recent, p, budget);
    }
    FitOfFromFirstUser(sizes, AsMessages(rows[start..]), budget);
    FitOfFromFirstUser(sizes, AsMessages(recent), budget);
  }

  /** What is read besides its oldest non-empty row fits the budget. */
  lemma {:induction false} PrefetchIsBounded(sizes: Sizes, rows: seq<Turn>, low: nat, i: nat, budgetChars: int)
    requires low <= i <= |rows|
    requires Chars(sizes, rows[i..]) > budgetChars ==> Chars(sizes, rows[i..]) == 0 || OneRowHasAll(sizes, rows[i..])
    ensures var read := rows[PrefetchStart(sizes, rows, low, i, budgetChars)..];
            Chars(sizes, read) > budgetChars ==> Chars(sizes, read) == 0 || OneRowHasAll(sizes, read)
    decreases i
  {
    if i > low {
      var next := rows[i - 1..];
      assert next[1..] == rows[i..];
      if !(Chars(sizes, rows[i..]) > 0 && Chars(sizes, rows[i..]) + RowChars(sizes, rows[i - 1]) > budgetChars) {
        if Chars(sizes, rows[i..]) == 0 {
          assert next[0] in next && RowChars(sizes, next[0]) == Chars(sizes, next);
        }
        PrefetchIsBounded(sizes, rows, low, i - 1, budgetChars);
      }
    }
  }

  ghost predicate OneRowHasAll(sizes: Sizes, rows: seq<Turn>) {
    exists r :: r in rows && RowChars(sizes, r) == Chars(sizes, rows)
  }

  lemma {:induction false} PrefetchReadsNoMoreThanFits(sizes: Sizes, rows: seq<Turn>, budget: nat)
    ensures var read := Prefetched(sizes, rows, budget);
            Chars(sizes, read) <= budget * CHARS_PER_TOKEN || OneRowHasAll(sizes, read)
  {
    var low := |rows| - |Last(rows, MAX_CONVERSATION_TURNS)|;
    assert rows[|rows|..] == [];
    PrefetchIsBounded(sizes, rows, low, |rows|, budget * CHARS_PER_TOKEN);
  }

  /** Beyond the row ceiling too, if the newest rows alone already overflow the budget. */
  lemma {:induction false} CeilingIsHarmless(sizes: Sizes, rows: seq<Turn>, budget: int)
    requires var recent := AsMessages(Last(rows, MAX_CONVERSATION_TURNS));
             recent != [] && Tokens(sizes, recent) > budget
    ensures FullLoad(sizes, Last(rows, MAX_CONVERSATION_TURNS), budget) == FullLoad(sizes, rows, budget)
  {
    var all, recent := AsMessages(rows), AsMessages(Last(rows, MAX_CONVERSATION_TURNS));
    var low := |rows| - |Last(rows, MAX_CONVERSATION_TURNS)|;
    assert Last(rows, MAX_CONVERSATION_TURNS) == rows[low..];
    AsMessagesOfSuffix(rows, low);
    var q := |all| - |recent|;
    if q > 0 {
      SuffixTokens(sizes, all, q - 1, q);
    }
    CutIgnoresWhatItDrops(sizes, all, budget, q);
    FitOfFromFirstUser(sizes, all, budget);
    FitOfFromFirstUser(sizes, recent, budget);
  }

  /** It changes what is loaded exactly when a user message beyond it would have fitted the budget. */
  lemma {:induction false} CeilingCuts(sizes: Sizes, rows: seq<Turn>, budget: int)
    ensures var recent := Last(rows, MAX_CONVERSATION_TURNS);
            |AsMessages(recent)| <= |AsMessages(rows)| &&
            (FullLoad(sizes, recent, budget) != FullLoad(sizes, rows, budget)
             <==> OlderUserFits(sizes, AsMessages(rows), |AsMessages(rows)| - |AsMessages(recent)|, budget))
  {
    var recent := Last(rows, MAX_CONVERSATION_TURNS);
    assert recent == rows[|rows| - |recent|..];
    AsMessagesOfSuffix(rows, |rows| - |recent|);
    CutNoticesOlderUsers(sizes, AsMessages(rows), |AsMessages(rows)| - |AsMessages(recent)|, budget);
    FitOfFromFirstUser(sizes, AsMessages(rows), budget);
    FitOfFromFirstUser(sizes, AsMessages(recent), budget);
  }
}
