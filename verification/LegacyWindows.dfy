/**
 The window of a run without a conversation (backend/foreman/history.py): which
 turn it starts at, and when it keeps every call together with its answers.
 */
module LegacyWindows {
  import opened Messages
  import opened OrphanRepair
  import opened ContextBudget
  import opened ConversationHistory
  import opened Options

  /** The rows the query fetches, of which the window is a suffix. */
  function Fetched(log: seq<Turn>, owner: string): seq<Turn> {
    Last(OfOwner(log, owner), HISTORY_FETCH_LIMIT)
  }

  /** What load_for_llm returns without a conversation. */
  function Loaded(log: seq<Turn>, owner: string): seq<Message> {
    FromFirstUser(AsMessages(HumanWindow(Fetched(log, owner))))
  }

  // ---------------------------------------------------------------- where the window starts

  lemma {:induction false} HumanWindowIsSuffix(rows: seq<Turn>)
    ensures IsSuffix(HumanWindow(rows), rows)
    ensures rows != [] ==> HumanWindow(rows) != []
  {
    if rows != [] && HumanTurns(rows[1..]) >= HUMAN_TURN_WINDOW {
      HumanWindowIsSuffix(rows[1..]);
      assert HumanTurns([]) == 0;
    }
  }

  /** The window starts at a human turn if and only if there are enough of them, or the oldest row read is one. */
  lemma {:induction false} WindowStartsAtHuman(rows: seq<Turn>)
    requires rows != []
    ensures HumanWindow(rows) != []
    ensures IsHumanTurn(HumanWindow(rows)[0]) <==> HumanTurns(rows) >= 3 || IsHumanTurn(rows[0])
  {
    if HumanTurns(rows[1..]) >= HUMAN_TURN_WINDOW {
      assert HumanTurns([]) == 0;
      WindowStartsAtHuman(rows[1..]);
    }
  }

  // ---------------------------------------------------------------- when it is paired

  /** A suffix of a paired array is paired exactly when it does not start at an answer. */
  lemma {:induction false} SuffixIsPaired(messages: seq<Message>, suffix: seq<Message>)
    requires Paired(messages) && IsSuffix(suffix, messages)
    ensures Paired(suffix) <==> suffix == [] || AnswerIds(suffix[0]) == {}
  {
    var q := |messages| - |suffix|;
    if suffix != [] && AnswerIds(suffix[0]) == {} {
      forall i | 0 <= i < |suffix| ensures AnswerIds(suffix[i]) == CallsBefore(suffix, i) {
        assert suffix[i] == messages[q + i];
        assert AnswerIds(messages[q + i]) == CallsBefore(messages, q + i);
      }
      assert CallsBefore(suffix, |suffix|) == CallsBefore(messages, |messages|);
    }
    if suffix != [] && Paired(suffix) {
      assert AnswerIds(suffix[0]) == CallsBefore(suffix, 0);
    }
  }

  lemma {:induction false} SuffixMessages(part: seq<Turn>, rows: seq<Turn>)
    requires IsSuffix(part, rows)
    ensures IsSuffix(AsMessages(part), AsMessages(rows))
  {
    AsMessagesOfSuffix(rows, |rows| - |part|);
  }

  lemma {:induction false} FetchedWindowIsSuffix(rows: seq<Turn>)
    ensures IsSuffix(HumanWindow(Last(rows, HISTORY_FETCH_LIMIT)), rows)
  {
    var fetched := Last(rows, HISTORY_FETCH_LIMIT);
    HumanWindowIsSuffix(fetched);
    assert IsSuffix(fetched, rows);
    SuffixIsTransitive(HumanWindow(fetched), fetched, rows);
  }

  lemma {:induction false} WindowIsSuffixOfLog(log: seq<Turn>, owner: string)
    ensures IsSuffix(AsMessages(HumanWindow(Fetched(log, owner))), AsMessages(OfOwner(log, owner)))
    ensures IsSuffix(Loaded(log, owner), AsMessages(OfOwner(log, owner)))
  {
    var rows, window := OfOwner(log, owner), HumanWindow(Fetched(log, owner));
    FetchedWindowIsSuffix(rows);
    SuffixMessages(window, rows);
    FromFirstUserIsSuffix(AsMessages(window));
    SuffixIsTransitive(Loaded(log, owner), AsMessages(window), AsMessages(rows));
  }

  /**
   Of a log in which every call is answered, the window and the array loaded
   from it are paired if and only if they do not start at an answer, however
   the fetch limit and the window cut the log.
   */
  lemma {:induction false} WindowKeepsPairs(log: seq<Turn>, owner: string)
    requires Paired(AsMessages(OfOwner(log, owner)))
    ensures var window, loaded := AsMessages(HumanWindow(Fetched(log, owner))), Loaded(log, owner);
            (Paired(window) <==> window == [] || AnswerIds(window[0]) == {})
            && (Paired(loaded) <==> loaded == [] || AnswerIds(loaded[0]) == {})
  {
    WindowIsSuffixOfLog(log, owner);
    SuffixIsPaired(AsMessages(OfOwner(log, owner)), AsMessages(HumanWindow(Fetched(log, owner))));
    SuffixIsPaired(AsMessages(OfOwner(log, owner)), Loaded(log, owner));
  }

  /** With enough human turns in reach, which answer no calls, nothing needs repair. */
  lemma {:induction false} EnoughTurnsKeepPairs(log: seq<Turn>, owner: string)
    requires Paired(AsMessages(OfOwner(log, owner)))
    requires HumanTurns(Fetched(log, owner)) >= HUMAN_TURN_WINDOW
    requires forall r :: r in Fetched(log, owner) && IsHumanTurn(r) ==> AnswerIds(Message(r.role, r.content)) == {}
    ensures Paired(Loaded(log, owner)) && Loaded(log, owner) == AsMessages(HumanWindow(Fetched(log, owner)))
  {
    var rows := Fetched(log, owner);
    assert HumanTurns([]) == 0;
    WindowStartsAtHuman(rows);
    HumanWindowIsSuffix(rows);
    var window := HumanWindow(rows);
    assert window[0] == rows[|rows| - |window|];
    WindowKeepsPairs(log, owner);
  }

  // ---------------------------------------------------------------- a window that starts at tool results

  /** One long run: a request, fifty calls with their results, and a reply. */
  function LongRunRow(i: nat, owner: string): Turn {
    if i == 0 then Turn(1, owner, None, User, Plain("go"), false)
    else if i == 101 then Turn(102, owner, None, Assistant, Plain("done"), false)
    else if i % 2 == 1 then Turn(i + 1, owner, None, Assistant, Blocks([ToolUse("t", "step", "{}", false)]), false)
    else Turn(i + 1, owner, None, User, Blocks([ToolResult("t", "ok", false)]), true)
  }

  function LongRun(owner: string): seq<Turn> {
    seq(102, i requires 0 <= i < 102 => LongRunRow(i, owner))
  }

  lemma {:induction false} OwnRows(log: seq<Turn>, owner: string)
    requires forall t :: t in log ==> t.owner == owner
    ensures OfOwner(log, owner) == log
  {
    if log != [] {
      OwnRows(log[1..], owner);
    }
  }

  lemma {:induction false} AllRowsAreMessages(rows: seq<Turn>)
    requires forall t :: t in rows ==> !t.role.System?
    ensures |AsMessages(rows)| == |rows|
    ensures forall i {:trigger AsMessages(rows)[i]} ::
              0 <= i < |rows| ==> AsMessages(rows)[i] == Message(rows[i].role, rows[i].content)
  {
    if rows != [] {
      AllRowsAreMessages(rows[1..]);
      assert rows[0] in rows;
    }
  }

  lemma {:induction false} NoHumanTurns(rows: seq<Turn>)
    requires forall t :: t in rows ==> !IsHumanTurn(t)
    ensures HumanTurns(rows) == 0
  {
    if rows != [] {
      NoHumanTurns(rows[1..]);
      assert rows[0] in rows;
    }
  }

  function LongRunMessage(i: nat): Message {
    Message(LongRunRow(i, "").role, LongRunRow(i, "").content)
  }

  lemma {:induction false} LongRunIds(i: nat)
    requires i < 102
    ensures CallIds(LongRunMessage(i)) == if i % 2 == 1 && i < 101 then {"t"} else {}
    ensures AnswerIds(LongRunMessage(i)) == if i % 2 == 0 && i > 0 then {"t"} else {}
  {
    var content := LongRunMessage(i).content;
    if content.Blocks? {
      assert content.blocks[0] in content.blocks;
    }
  }

  lemma {:induction false} LongRunMessages(owner: string)
    ensures OfOwner(LongRun(owner), owner) == LongRun(owner) && |AsMessages(LongRun(owner))| == 102
    ensures forall i :: 0 <= i < 102 ==> AsMessages(LongRun(owner))[i] == LongRunMessage(i)
  {
    OwnRows(LongRun(owner), owner);
    AllRowsAreMessages(LongRun(owner));
  }

  lemma {:induction false} LongRunIsPaired(owner: string)
    ensures Paired(AsMessages(LongRun(owner)))
  {
    LongRunMessages(owner);
    var messages := AsMessages(LongRun(owner));
    forall i | 0 <= i < |messages| ensures AnswerIds(messages[i]) == CallsBefore(messages, i) {
      LongRunIds(i);
      if i > 0 {
        LongRunIds(i - 1);
      }
    }
    LongRunIds(101);
  }

  lemma {:induction false} LongRunWindow(owner: string)
    ensures HumanWindow(Fetched(LongRun(owner), owner)) == LongRun(owner)[2..]
  {
    var rows := LongRun(owner);
    LongRunMessages(owner);
    assert Fetched(rows, owner) == rows[2..];
    NoHumanTurns(rows[2..]);
    HumanTurnsOfSuffix(rows[2..], 1);
  }

  /** The fetch limit cuts a call from its results: the window starts at them, and is not paired. */
  lemma {:induction false} FetchCanSplitPair(owner: string)
    ensures var log := LongRun(owner);
            Paired(AsMessages(OfOwner(log, owner)))
            && HumanWindow(Fetched(log, owner)) != [] && !IsHumanTurn(HumanWindow(Fetched(log, owner))[0])
            && !Paired(AsMessages(HumanWindow(Fetched(log, owner)))) && !Paired(Loaded(log, owner))
  {
    var log := LongRun(owner);
    LongRunMessages(owner);
    LongRunIsPaired(owner);
    LongRunWindow(owner);
    var window := AsMessages(log[2..]);
    AllRowsAreMessages(log[2..]);
    LongRunIds(2);
    assert window[0] == LongRunMessage(2);
    WindowKeepsPairs(log, owner);
  }
}
