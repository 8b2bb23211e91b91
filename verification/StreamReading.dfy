/**
 The text of a formatted batch, read off its entries from front to back: each
 ordinary line, and each run of tool entries as one line or none.
 */
module StreamReading {
  import opened Sequences
  import opened Strings
  import opened StreamFormat

  // ---------------------------------------------------------------- the reading

  function CallLine(e: Entry): seq<string> {
    match e.kind
    case ToolUse(_) => [e.line]
    case _ => []
  }

  /** The lines of the tool calls of a run. */
  function CallLines(run: seq<Entry>): seq<string> {
    Collect(CallLine, run)
  }

  /** How often a run calls a tool, by name. */
  function Mention(run: seq<Entry>, name: string): string {
    name + " \U{D7} " + Digits(UsesOf(run, name))
  }

  function MentionEach(run: seq<Entry>, names: seq<string>): seq<string> {
    seq(|names|, i requires 0 <= i < |names| => Mention(run, names[i]))
  }

  /** A run shows its only call's line; with more calls, its turn and what it called, in order of first call. */
  function RunLines(run: seq<Entry>, turn: nat): seq<string> {
    if |CallLines(run)| <= 1 then CallLines(run)
    else ["\U{25B6} Turn " + Digits(turn + 1) + ": " + Join(", ", MentionEach(run, FirstCalls(run)))]
  }

  function TurnsOf(run: seq<Entry>): nat {
    if |CallLines(run)| <= 1 then 0 else 1
  }

  /** The lines of a batch after turn `turn`. */
  function BatchLines(entries: seq<Entry>, turn: nat): seq<string>
    decreases |entries|
  {
    if entries == [] then []
    else if entries[0].kind.Plain? then [entries[0].line] + BatchLines(entries[1..], turn)
    else
      var run, rest := Lead(entries), AfterLead(entries);
      RunLines(run, turn) + BatchLines(rest, turn + TurnsOf(run))
  }

  function LastTurn(entries: seq<Entry>, turn: nat): nat
    decreases |entries|
  {
    if entries == [] then turn
    else if entries[0].kind.Plain? then LastTurn(entries[1..], turn)
    else LastTurn(AfterLead(entries), turn + TurnsOf(Lead(entries)))
  }

  /** What follows the run of tool entries at the head. */
  function AfterLead(entries: seq<Entry>): (rest: seq<Entry>)
    ensures |rest| <= |entries|
    ensures entries != [] && !entries[0].kind.Plain? ==> |rest| < |entries|
  {
    if entries == [] || entries[0].kind.Plain? then entries else AfterLead(entries[1..])
  }

  lemma {:induction false} LeadAndRest(entries: seq<Entry>)
    ensures Lead(entries) + AfterLead(entries) == entries
    ensures forall e :: e in Lead(entries) ==> IsTool(e)
    ensures AfterLead(entries) == [] || AfterLead(entries)[0].kind.Plain?
  {
    if entries != [] && IsTool(entries[0]) {
      LeadAndRest(entries[1..]);
      assert [entries[0]] + Lead(entries[1..]) + AfterLead(entries[1..]) == [entries[0]] + entries[1..];
    }
  }

  // ---------------------------------------------------------------- one run

  lemma {:induction false} TextsOfConcat(a: seq<Line>, b: seq<Line>)
    ensures LineTexts(a + b) == LineTexts(a) + LineTexts(b)
  {
  }

  lemma {:induction false} RawTexts(run: seq<Entry>)
    ensures LineTexts(RawLines(run)) == CallLines(run) && |CallLines(run)| == Uses(run)
  {
    if run != [] {
      var front, e := run[..|run| - 1], run[|run| - 1];
      RawTexts(front);
      TextsOfConcat(RawLines(front), RawLine(e));
      assert LineTexts(RawLine(e)) == CallLine(e);
    }
  }

  lemma {:induction false} NamesAt(counts: seq<Count>, i: nat)
    requires i < |counts|
    ensures |Names(counts)| == |counts| && Names(counts)[i] == counts[i].name
  {
    if i > 0 {
      NamesAt(counts[1..], i - 1);
    } else if |counts| > 1 {
      NamesAt(counts[1..], 0);
    }
  }

  /** Of a list that names each tool once, an entry's number is the tool's total. */
  lemma {:induction false} TimesAt(counts: seq<Count>, i: nat)
    requires i < |counts|
    requires forall j, k :: 0 <= j < k < |counts| ==> counts[j].name != counts[k].name
    ensures TimesIn(counts, counts[i].name) == counts[i].times
  {
    if i > 0 {
      TimesAt(counts[1..], i - 1);
      assert counts[1..][i - 1] == counts[i];
    } else {
      TimesOfStranger(counts[1..], counts[0].name);
    }
  }

  lemma {:induction false} TimesOfStranger(counts: seq<Count>, name: string)
    requires forall k :: 0 <= k < |counts| ==> counts[k].name != name
    ensures TimesIn(counts, name) == 0
  {
    if counts != [] {
      TimesOfStranger(counts[1..], name);
    }
  }

  lemma {:induction false} TallyReads(run: seq<Entry>, i: nat)
    requires i < |Tally(run)|
    ensures |FirstCalls(run)| == |Tally(run)|
    ensures CountText(Tally(run)[i]) == Mention(run, FirstCalls(run)[i])
  {
    var counts := Tally(run);
    SummaryAddsUp(run);
    FirstCallsAreDistinct(run);
    NamesAt(counts, i);
    forall j | 0 <= j < |counts| ensures counts[j].name == FirstCalls(run)[j] {
      NamesAt(counts, j);
    }
    TimesAt(counts, i);
    TallyTimes(run, counts[i].name);
  }

  lemma {:induction false} TallyTexts(run: seq<Entry>)
    ensures CountTexts(Tally(run)) == MentionEach(run, FirstCalls(run))
  {
    var counts := Tally(run);
    SummaryAddsUp(run);
    if counts != [] {
      TallyReads(run, 0);
    } else {
      assert Names(counts) == [];
    }
    forall i | 0 <= i < |counts| ensures CountText(counts[i]) == MentionEach(run, FirstCalls(run))[i] {
      TallyReads(run, i);
    }
  }

  lemma {:induction false} MentionsAreTexts(run: seq<Entry>, names: seq<string>)
    requires names != []
    ensures Join(", ", MentionEach(run, names)) != ""
  {
    var texts := MentionEach(run, names);
    assert texts[|texts| - 1] == Mention(run, names[|names| - 1]);
  }

  lemma {:induction false} SummaryReads(run: seq<Entry>, turn: nat)
    requires Uses(run) > 1
    ensures [SummaryText(turn + 1, Tally(run))] == RunLines(run, turn)
  {
    var counts := Tally(run);
    RawTexts(run);
    SummaryAddsUp(run);
    assert counts != [];
    NamesAt(counts, 0);
    TallyTexts(run);
    MentionsAreTexts(run, FirstCalls(run));
  }

  /** What a run adds to the text, read off its entries. */
  lemma {:induction false} RunReads(run: seq<Entry>, turn: nat)
    ensures LineTexts(Flushed(run, turn)) == RunLines(run, turn)
    ensures TurnAfter(run, turn) == turn + TurnsOf(run)
  {
    RawTexts(run);
    if Uses(run) > 1 {
      SummaryReads(run, turn);
      assert LineTexts([Summary(turn + 1, Tally(run))]) == [SummaryText(turn + 1, Tally(run))];
    }
  }

  // ---------------------------------------------------------------- a whole batch

  lemma {:induction false} FeedRun(p: Progress, run: seq<Entry>)
    requires forall e :: e in run ==> IsTool(e)
    ensures FeedAll(p, run) == p.(group := p.group + run)
  {
    if run == [] {
      assert p.group + [] == p.group;
    } else {
      var front, e := run[..|run| - 1], run[|run| - 1];
      FeedRun(p, front);
      assert e in run;
      assert p.group + front + [e] == p.group + run;
    }
  }

  /** A run that ends in ordinary output may as well be closed before it. */
  lemma {:induction false} CloseBeforePlain(p: Progress, rest: seq<Entry>)
    requires rest == [] || !IsTool(rest[0])
    ensures Close(FeedAll(p, rest)) == Close(FeedAll(Close(p), rest))
  {
    assert Close(Close(p)) == Close(p) by {
      assert Close(p).output + [] == Close(p).output;
    }
    if rest != [] {
      FeedFirst(p, rest);
      FeedFirst(Close(p), rest);
    }
  }

  lemma {:induction false} CloseRun(p: Progress, run: seq<Entry>, rest: seq<Entry>)
    requires p.group == [] && (forall e :: e in run ==> IsTool(e)) && (rest == [] || !IsTool(rest[0]))
    ensures Close(FeedAll(p, run + rest)) == Close(FeedAll(Close(p.(group := run)), rest))
  {
    FeedAllOfConcat(p, run, rest);
    FeedRun(p, run);
    assert [] + run == run;
    CloseBeforePlain(p.(group := run), rest);
  }

  /** From `p` to `q` these lines are put out, and the turn becomes `turn`. */
  predicate Adds(p: Progress, q: Progress, lines: seq<string>, turn: nat) {
    LineTexts(q.output) == LineTexts(p.output) + lines && q.turn == turn
  }

  lemma {:induction false} ThenAdds(p: Progress, m: Progress, q: Progress, a: seq<string>, b: seq<string>, turn: nat)
    requires Adds(p, m, a, m.turn) && Adds(m, q, b, turn)
    ensures Adds(p, q, a + b, turn)
  {
    assert LineTexts(p.output) + a + b == LineTexts(p.output) + (a + b);
  }

  lemma {:induction false} PlainAdds(p: Progress, e: Entry)
    requires p.group == [] && e.kind.Plain?
    ensures Adds(p, Feed(p, e), [e.line], p.turn) && Feed(p, e).group == [] && Feed(p, e).turn == p.turn
  {
    assert p.output + [] == p.output;
    TextsOfConcat(p.output, [Spoken(e.line)]);
    assert LineTexts([Spoken(e.line)]) == [e.line];
  }

  lemma {:induction false} RunAdds(p: Progress, run: seq<Entry>)
    ensures Adds(p, Close(p.(group := run)), RunLines(run, p.turn), p.turn + TurnsOf(run))
  {
    RunReads(run, p.turn);
    TextsOfConcat(p.output, Flushed(run, p.turn));
  }

  lemma {:induction false} BatchAdds(p: Progress, entries: seq<Entry>)
    requires p.group == []
    ensures Adds(p, Close(FeedAll(p, entries)), BatchLines(entries, p.turn), LastTurn(entries, p.turn))
    decreases |entries|, 1
  {
    if entries == [] {
      NothingAdds(p);
    } else if entries[0].kind.Plain? {
      var m := Feed(p, entries[0]);
      PlainAdds(p, entries[0]);
      FeedFirst(p, entries);
      BatchAdds(m, entries[1..]);
      ThenAdds(p, m, Close(FeedAll(m, entries[1..])), [entries[0].line], BatchLines(entries[1..], p.turn),
               LastTurn(entries[1..], p.turn));
    } else {
      RunThenBatch(p, entries, Lead(entries), AfterLead(entries));
    }
  }

  lemma {:induction false} NothingAdds(p: Progress)
    requires p.group == []
    ensures Adds(p, Close(p), [], p.turn)
  {
    assert p.output + [] == p.output;
  }

  lemma {:induction false} RunThenBatch(p: Progress, entries: seq<Entry>, run: seq<Entry>, rest: seq<Entry>)
    requires p.group == [] && entries != [] && !entries[0].kind.Plain?
    requires run == Lead(entries) && rest == AfterLead(entries)
    ensures Adds(p, Close(FeedAll(p, entries)), BatchLines(entries, p.turn), LastTurn(entries, p.turn))
    decreases |entries|, 0
  {
    LeadAndRest(entries);
    var m := Close(p.(group := run));
    CloseRun(p, run, rest);
    RunAdds(p, run);
    BatchAdds(m, rest);
    ThenAdds(p, m, Close(FeedAll(m, rest)), RunLines(run, p.turn), BatchLines(rest, m.turn), LastTurn(rest, m.turn));
  }

  /**
   The text a batch is posted as: its lines, read off the entries, each on a line
   of its own; and the turn carried on is the start plus the runs with more than
   one call.
   */
  lemma {:induction false} TextReadsOff(entries: seq<Entry>, start: nat)
    ensures Rendered(Formatted(entries, start).output) == Join("\n", BatchLines(entries, start))
    ensures Formatted(entries, start).turn == LastTurn(entries, start)
  {
    var p := Progress([], [], start);
    BatchAdds(p, entries);
    assert LineTexts([]) + BatchLines(entries, start) == BatchLines(entries, start);
    assert LineTexts(Formatted(entries, start).output) == BatchLines(entries, start);
  }
}
