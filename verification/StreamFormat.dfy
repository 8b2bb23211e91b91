/**
 Compacting a task's terminal stream for its thread (backend/discord_notifier.py,
 _format_stream_entries): a run of tool entries becomes one numbered summary.
 */
module StreamFormat {
  import opened Sequences
  import opened Strings

  /** A streamed line: ordinary output, a tool call by its lower-cased name, or a tool's result. */
  datatype Kind = Plain | ToolUse(name: string) | ToolResult

  datatype Entry = Entry(line: string, kind: Kind)

  datatype Count = Count(name: string, times: nat)

  /** A formatted line: ordinary output, a lone tool call, or a turn's summary. */
  datatype Line = Spoken(line: string) | Call(name: string, line: string) | Summary(turn: nat, counts: seq<Count>)

  // ---------------------------------------------------------------- specification

  predicate IsTool(e: Entry) {
    !e.kind.Plain?
  }

  function Uses(group: seq<Entry>): nat {
    if group == [] then 0
    else Uses(group[..|group| - 1]) + if group[|group| - 1].kind.ToolUse? then 1 else 0
  }

  /** One more use of a tool; names stay in order of first use. */
  function Bump(counts: seq<Count>, name: string): seq<Count> {
    if counts == [] then [Count(name, 1)]
    else if counts[0].name == name then [Count(name, counts[0].times + 1)] + counts[1..]
    else [counts[0]] + Bump(counts[1..], name)
  }

  function Tally(group: seq<Entry>): seq<Count> {
    if group == [] then []
    else
      var before := Tally(group[..|group| - 1]);
      var e := group[|group| - 1];
      if e.kind.ToolUse? then Bump(before, e.kind.name) else before
  }

  function RawLine(e: Entry): seq<Line> {
    if e.kind.ToolUse? then [Call(e.kind.name, e.line)] else []
  }

  /** The lines of a run too short to summarize: tool results are dropped. */
  function RawLines(group: seq<Entry>): seq<Line> {
    Collect(RawLine, group)
  }

  function Flushed(group: seq<Entry>, turn: nat): seq<Line> {
    if Uses(group) <= 1 then RawLines(group) else [Summary(turn + 1, Tally(group))]
  }

  function TurnAfter(group: seq<Entry>, turn: nat): nat {
    if Uses(group) <= 1 then turn else turn + 1
  }

  /** The formatter between two entries: lines so far, the open run of tool entries, the last turn. */
  datatype Progress = Progress(output: seq<Line>, group: seq<Entry>, turn: nat)

  function Close(p: Progress): Progress {
    Progress(p.output + Flushed(p.group, p.turn), [], TurnAfter(p.group, p.turn))
  }

  function Feed(p: Progress, e: Entry): Progress {
    if IsTool(e) then p.(group := p.group + [e])
    else var q := Close(p); q.(output := q.output + [Spoken(e.line)])
  }

  function FeedAll(p: Progress, entries: seq<Entry>): Progress {
    if entries == [] then p
    else Feed(FeedAll(p, entries[..|entries| - 1]), entries[|entries| - 1])
  }

  function Formatted(entries: seq<Entry>, start: nat): Progress {
    Close(FeedAll(Progress([], [], start), entries))
  }

  /** `name x times`, with a multiplication sign. */
  function CountText(c: Count): string {
    c.name + " \U{D7} " + Digits(c.times)
  }

  function CountTexts(counts: seq<Count>): seq<string> {
    seq(|counts|, i requires 0 <= i < |counts| => CountText(counts[i]))
  }

  function SummaryText(turn: nat, counts: seq<Count>): string {
    var parts := Join(", ", CountTexts(counts));
    "\U{25B6} Turn " + Digits(turn) + ": " + if parts == "" then "tool activity" else parts
  }

  function LineText(x: Line): string {
    match x
    case Spoken(line) => line
    case Call(_, line) => line
    case Summary(turn, counts) => SummaryText(turn, counts)
  }

  function LineTexts(output: seq<Line>): seq<string> {
    seq(|output|, i requires 0 <= i < |output| => LineText(output[i]))
  }

  /** The text of a formatted batch. */
  function Rendered(output: seq<Line>): string {
    Join("\n", LineTexts(output))
  }

  // ---------------------------------------------------------------- the code

  /** _format_stream_entries */
  method FormatStreamEntries(entries: seq<Entry>, startTurn: nat) returns (text: string, turn: nat)
    ensures text == Rendered(Formatted(entries, startTurn).output)
    ensures turn == Formatted(entries, startTurn).turn
  {
    var output: seq<Line> := [];
    turn := startTurn;
    var group: seq<Entry> := [];
    for i := 0 to |entries|
      invariant forall e :: e in group ==> IsTool(e)
      invariant Progress(output, group, turn) == FeedAll(Progress([], [], startTurn), entries[..i])
    {
      assert entries[..i + 1][..i] == entries[..i];
      if IsTool(entries[i]) {
        group := group + [entries[i]];
      } else {
        var lines;
        lines, turn := FlushGroup(group, turn);
        output, group := output + lines, [];
        output := output + [Spoken(entries[i].line)];
      }
    }
    assert entries[..|entries|] == entries;
    var tail;
    tail, turn := FlushGroup(group, turn);
    output := output + tail;
    text := Rendered(output);
  }

  /** flush_group */
  method FlushGroup(group: seq<Entry>, turn: nat) returns (lines: seq<Line>, after: nat)
    requires forall e :: e in group ==> IsTool(e)
    ensures lines == Flushed(group, turn) && after == TurnAfter(group, turn)
  {
    var used := 0;
    var counts: seq<Count> := [];
    for i := 0 to |group|
      invariant used == Uses(group[..i]) && counts == Tally(group[..i])
    {
      assert group[..i + 1][..i] == group[..i];
      if group[i].kind.ToolUse? {
        used := used + 1;
        counts := Bump(counts, group[i].kind.name);
      }
    }
    assert group[..|group|] == group;
    if used > 1 {
      return [Summary(turn + 1, counts)], turn + 1;
    }
    lines, after := [], turn;
    for i := 0 to |group|
      invariant lines == RawLines(group[..i])
      invariant after == turn
    {
      assert group[..i + 1][..i] == group[..i];
      assert IsTool(group[i]);
      CollectMore(RawLine, group[..i], group[i]);
      assert group[..i] + [group[i]] == group[..i + 1];
      if !group[i].kind.ToolResult? {
        lines := lines + [Call(group[i].kind.name, group[i].line)];
      }
    }
  }

  // ---------------------------------------------------------------- small facts

  lemma {:induction false} UsesOfConcat(x: seq<Entry>, y: seq<Entry>)
    ensures Uses(x + y) == Uses(x) + Uses(y)
  {
    if y == [] {
      assert x + y == x;
    } else {
      assert (x + y)[..|x + y| - 1] == x + y[..|y| - 1];
      UsesOfConcat(x, y[..|y| - 1]);
    }
  }

  lemma {:induction false} FeedAllOfConcat(p: Progress, a: seq<Entry>, b: seq<Entry>)
    ensures FeedAll(p, a + b) == FeedAll(FeedAll(p, a), b)
  {
    if b == [] {
      assert a + b == a;
    } else {
      assert (a + b)[..|a + b| - 1] == a + b[..|b| - 1];
      FeedAllOfConcat(p, a, b[..|b| - 1]);
    }
  }

  lemma {:induction false} FeedFirst(p: Progress, b: seq<Entry>)
    requires b != []
    ensures FeedAll(p, b) == FeedAll(Feed(p, b[0]), b[1..])
  {
    assert b == [b[0]] + b[1..];
    FeedAllOfConcat(p, [b[0]], b[1..]);
    assert FeedAll(p, [b[0]][..0]) == p;
    assert FeedAll(p, [b[0]]) == Feed(p, b[0]);
  }

  /** Without a tool call, a run has no tally and no lines. */
  lemma {:induction false} NoUsesNoLines(group: seq<Entry>)
    requires Uses(group) == 0
    ensures RawLines(group) == [] && Tally(group) == []
  {
    if group != [] {
      NoUsesNoLines(group[..|group| - 1]);
    }
  }

  lemma {:induction false} RawLinesCount(group: seq<Entry>)
    ensures |RawLines(group)| == Uses(group)
  {
    if group != [] {
      RawLinesCount(group[..|group| - 1]);
    }
  }

  lemma {:induction false} ResultsDoNotTally(x: seq<Entry>, y: seq<Entry>)
    requires Uses(y) == 0
    ensures Tally(x + y) == Tally(x)
  {
    if y == [] {
      assert x + y == x;
    } else {
      assert (x + y)[..|x + y| - 1] == x + y[..|y| - 1];
      ResultsDoNotTally(x, y[..|y| - 1]);
    }
  }

  lemma {:induction false} ResultsFirstDoNotTally(x: seq<Entry>, y: seq<Entry>)
    requires Uses(x) == 0
    ensures Tally(x + y) == Tally(y)
  {
    if y == [] {
      assert x + y == x;
      NoUsesNoLines(x);
    } else {
      assert (x + y)[..|x + y| - 1] == x + y[..|y| - 1];
      ResultsFirstDoNotTally(x, y[..|y| - 1]);
    }
  }

  // ---------------------------------------------------------------- cutting a run

  function FlushedTwice(x: seq<Entry>, y: seq<Entry>, turn: nat): seq<Line> {
    Flushed(x, turn) + Flushed(y, TurnAfter(x, turn))
  }

  lemma {:induction false} FlushedCount(group: seq<Entry>, turn: nat)
    ensures |Flushed(group, turn)| == if Uses(group) == 0 then 0 else 1
  {
    RawLinesCount(group);
  }

  /** A cut run reads the same exactly when one side of the cut makes no tool call. */
  lemma {:induction false} CutRun(x: seq<Entry>, y: seq<Entry>, turn: nat)
    ensures if Uses(x) == 0 || Uses(y) == 0
            then Flushed(x + y, turn) == FlushedTwice(x, y, turn)
                 && TurnAfter(x + y, turn) == TurnAfter(y, TurnAfter(x, turn))
            else |Flushed(x + y, turn)| < |FlushedTwice(x, y, turn)|
  {
    UsesOfConcat(x, y);
    if Uses(x) == 0 {
      NoUsesNoLines(x);
      CollectOfConcat(RawLine, x, y);
      ResultsFirstDoNotTally(x, y);
    } else if Uses(y) == 0 {
      NoUsesNoLines(y);
      CollectOfConcat(RawLine, x, y);
      ResultsDoNotTally(x, y);
    } else {
      FlushedCount(x + y, turn);
      FlushedCount(x, turn);
      FlushedCount(y, TurnAfter(x, turn));
    }
  }

  /** The run of tool entries at the head of a batch. */
  function Lead(b: seq<Entry>): seq<Entry> {
    if b != [] && IsTool(b[0]) then [b[0]] + Lead(b[1..]) else []
  }

  /** How many lines a batch adds does not depend on the numbering. */
  lemma {:induction false} LinesAdded(p: Progress, q: Progress, b: seq<Entry>)
    requires p.group == q.group
    ensures |Close(FeedAll(p, b)).output| - |p.output| == |Close(FeedAll(q, b)).output| - |q.output|
    decreases |b|
  {
    if b == [] {
      FlushedCount(p.group, p.turn);
      FlushedCount(q.group, q.turn);
    } else {
      FeedFirst(p, b);
      FeedFirst(q, b);
      FlushedCount(p.group, p.turn);
      FlushedCount(q.group, q.turn);
      LinesAdded(Feed(p, b[0]), Feed(q, b[0]), b[1..]);
    }
  }

  /** The two ways to go on after `x`: with the run still open, or with a batch ended there. */
  function Kept(p: Progress, y: seq<Entry>): Progress {
    p.(group := p.group + y)
  }

  function Ended(p: Progress, y: seq<Entry>): Progress {
    Close(p).(group := y)
  }

  lemma {:induction false} AfterCut(p: Progress, y: seq<Entry>, b: seq<Entry>)
    requires b == [] || !IsTool(b[0])
    ensures var one, two := Close(FeedAll(Kept(p, y), b)), Close(FeedAll(Ended(p, y), b));
            if Uses(p.group) == 0 || Uses(y) == 0 then one == two else |one.output| < |two.output|
  {
    CutRun(p.group, y, p.turn);
    var one, two := Close(Kept(p, y)), Close(Ended(p, y));
    assert two.output == p.output + FlushedTwice(p.group, y, p.turn);
    if b != [] {
      FeedFirst(Kept(p, y), b);
      FeedFirst(Ended(p, y), b);
      LinesAdded(Feed(Kept(p, y), b[0]), Feed(Ended(p, y), b[0]), b[1..]);
    }
  }

  lemma {:induction false} CutAnywhere(p: Progress, y: seq<Entry>, b: seq<Entry>)
    ensures var one, two := Close(FeedAll(Kept(p, y), b)), Close(FeedAll(Ended(p, y), b));
            if Uses(p.group) == 0 || Uses(y + Lead(b)) == 0 then one == two else |one.output| < |two.output|
    decreases |b|
  {
    if b == [] || !IsTool(b[0]) {
      assert y + Lead(b) == y;
      AfterCut(p, y, b);
    } else {
      FeedFirst(Kept(p, y), b);
      FeedFirst(Ended(p, y), b);
      assert Kept(p, y + [b[0]]) == Feed(Kept(p, y), b[0]) by {
        assert p.group + (y + [b[0]]) == p.group + y + [b[0]];
      }
      assert (y + [b[0]]) + Lead(b[1..]) == y + Lead(b);
      CutAnywhere(p, y + [b[0]], b[1..]);
    }
  }

  /** The run still open at the end of a batch. */
  function Trail(a: seq<Entry>): seq<Entry> {
    if a != [] && IsTool(a[|a| - 1]) then Trail(a[..|a| - 1]) + [a[|a| - 1]] else []
  }

  lemma {:induction false} TrailIsGroup(a: seq<Entry>, start: nat)
    ensures FeedAll(Progress([], [], start), a).group == Trail(a)
  {
    if a != [] {
      TrailIsGroup(a[..|a| - 1], start);
    }
  }

  function Shifted(prefix: seq<Line>, p: Progress): Progress {
    p.(output := prefix + p.output)
  }

  lemma {:induction false} PrefixIsKept(prefix: seq<Line>, p: Progress, b: seq<Entry>)
    ensures Close(FeedAll(Shifted(prefix, p), b)) == Shifted(prefix, Close(FeedAll(p, b)))
    decreases |b|
  {
    if b == [] {
      assert prefix + p.output + Flushed(p.group, p.turn) == prefix + (p.output + Flushed(p.group, p.turn));
    } else {
      FeedFirst(p, b);
      FeedFirst(Shifted(prefix, p), b);
      assert Feed(Shifted(prefix, p), b[0]).output == prefix + Feed(p, b[0]).output;
      PrefixIsKept(prefix, Feed(p, b[0]), b[1..]);
    }
  }

  /** One batch, then another with the turn number carried over. */
  function TwoBatches(a: seq<Entry>, b: seq<Entry>, start: nat): Progress {
    var first := Formatted(a, start);
    Shifted(first.output, Formatted(b, first.turn))
  }

  /**
   Formatting in two batches gives the text and the numbering of formatting all
   at once, if and only if the cut does not have tool calls of one run on both
   sides.
   */
  lemma {:induction false} BatchesAgreeWithOneShot(a: seq<Entry>, b: seq<Entry>, start: nat)
    ensures Formatted(a + b, start) == TwoBatches(a, b, start) <==> Uses(Trail(a)) == 0 || Uses(Lead(b)) == 0
  {
    var p := FeedAll(Progress([], [], start), a);
    TrailIsGroup(a, start);
    FeedAllOfConcat(Progress([], [], start), a, b);
    CutAnywhere(p, [], b);
    assert p.group + [] == p.group && [] + Lead(b) == Lead(b);
    assert Kept(p, []) == p && Ended(p, []) == Close(p);
    var first := Formatted(a, start);
    assert first.output + [] == first.output;
    assert Shifted(first.output, Progress([], [], first.turn)) == Close(p);
    PrefixIsKept(first.output, Progress([], [], first.turn), b);
  }

  // ---------------------------------------------------------------- any number of batches

  function Batches(batches: seq<seq<Entry>>, start: nat): Progress {
    if batches == [] then Progress([], [], start)
    else
      var before := Batches(batches[..|batches| - 1], start);
      Shifted(before.output, Formatted(batches[|batches| - 1], before.turn))
  }

  function Joined(batches: seq<seq<Entry>>): seq<Entry> {
    if batches == [] then [] else Joined(batches[..|batches| - 1]) + batches[|batches| - 1]
  }

  // -- ordinary lines

  function PlainLine(e: Entry): seq<string> {
    if IsTool(e) then [] else [e.line]
  }

  function PlainLines(entries: seq<Entry>): seq<string> {
    Collect(PlainLine, entries)
  }

  function SpokenLine(x: Line): seq<string> {
    if x.Spoken? then [x.line] else []
  }

  function SpokenLines(output: seq<Line>): seq<string> {
    Collect(SpokenLine, output)
  }

  lemma {:induction false} RawLinesAreCalls(group: seq<Entry>)
    ensures forall x :: x in RawLines(group) ==> x.Call?
  {
    if group != [] {
      RawLinesAreCalls(group[..|group| - 1]);
    }
  }

  lemma {:induction false} FlushedIsUnspoken(group: seq<Entry>, turn: nat)
    ensures forall x :: x in Flushed(group, turn) ==> !x.Spoken?
  {
    RawLinesAreCalls(group);
  }

  lemma {:induction false} CloseIsSilent(p: Progress)
    ensures SpokenLines(Close(p).output) == SpokenLines(p.output)
  {
    CollectOfConcat(SpokenLine, p.output, Flushed(p.group, p.turn));
    FlushedIsUnspoken(p.group, p.turn);
    CollectNothing(SpokenLine, Flushed(p.group, p.turn));
  }

  lemma {:induction false} FeedKeepsPlain(p: Progress, entries: seq<Entry>)
    ensures SpokenLines(FeedAll(p, entries).output) == SpokenLines(p.output) + PlainLines(entries)
  {
    if entries != [] {
      var q := FeedAll(p, entries[..|entries| - 1]);
      var e := entries[|entries| - 1];
      FeedKeepsPlain(p, entries[..|entries| - 1]);
      if !IsTool(e) {
        CloseIsSilent(q);
        CollectMore(SpokenLine, Close(q).output, Spoken(e.line));
      }
    }
  }

  /** Whatever the batches, ordinary lines all survive, unchanged and in order. */
  lemma {:induction false} OrdinaryLinesSurvive(batches: seq<seq<Entry>>, start: nat)
    ensures SpokenLines(Batches(batches, start).output) == PlainLines(Joined(batches))
  {
    if batches != [] {
      var front, last := batches[..|batches| - 1], batches[|batches| - 1];
      var before := Batches(front, start);
      OrdinaryLinesSurvive(front, start);
      var p := Progress([], [], before.turn);
      FeedKeepsPlain(p, last);
      CloseIsSilent(FeedAll(p, last));
      CollectOfConcat(SpokenLine, before.output, Formatted(last, before.turn).output);
      CollectOfConcat(PlainLine, Joined(front), last);
    }
  }

  // -- turn numbers

  function TurnNumber(x: Line): seq<nat> {
    if x.Summary? then [x.turn] else []
  }

  function TurnNumbers(output: seq<Line>): seq<nat> {
    Collect(TurnNumber, output)
  }

  /** start + 1, ..., last */
  function UpTo(start: nat, last: nat): seq<nat> {
    if last <= start then [] else UpTo(start, last - 1) + [last]
  }

  lemma {:induction false} CloseNumbers(p: Progress, start: nat)
    requires start <= p.turn && TurnNumbers(p.output) == UpTo(start, p.turn)
    ensures start <= Close(p).turn && TurnNumbers(Close(p).output) == UpTo(start, Close(p).turn)
  {
    CollectOfConcat(TurnNumber, p.output, Flushed(p.group, p.turn));
    RawLinesAreCalls(p.group);
    CollectOne(TurnNumber, Summary(p.turn + 1, Tally(p.group)));
    CollectNothing(TurnNumber, RawLines(p.group));
  }

  lemma {:induction false} FeedNumbers(p: Progress, entries: seq<Entry>, start: nat)
    requires start <= p.turn && TurnNumbers(p.output) == UpTo(start, p.turn)
    ensures var q := FeedAll(p, entries); start <= q.turn && TurnNumbers(q.output) == UpTo(start, q.turn)
  {
    if entries != [] {
      var q := FeedAll(p, entries[..|entries| - 1]);
      var e := entries[|entries| - 1];
      FeedNumbers(p, entries[..|entries| - 1], start);
      if !IsTool(e) {
        CloseNumbers(q, start);
        CollectMore(TurnNumber, Close(q).output, Spoken(e.line));
      }
    }
  }

  /** Whatever the batches, the summaries are numbered without a gap or a repeat. */
  lemma {:induction false} TurnsAreConsecutive(batches: seq<seq<Entry>>, start: nat)
    ensures var p := Batches(batches, start); start <= p.turn && TurnNumbers(p.output) == UpTo(start, p.turn)
  {
    if batches != [] {
      var front, last := batches[..|batches| - 1], batches[|batches| - 1];
      var before := Batches(front, start);
      TurnsAreConsecutive(front, start);
      var p := Progress(before.output, [], before.turn);
      FeedNumbers(p, last, start);
      CloseNumbers(FeedAll(p, last), start);
      assert Shifted(before.output, Progress([], [], before.turn)) == p by {
        assert before.output + [] == before.output;
      }
      PrefixIsKept(before.output, Progress([], [], before.turn), last);
    }
  }

  // -- tool calls

  function UsesOf(entries: seq<Entry>, name: string): nat {
    if entries == [] then 0
    else UsesOf(entries[..|entries| - 1], name) + if entries[|entries| - 1].kind == ToolUse(name) then 1 else 0
  }

  function TimesIn(counts: seq<Count>, name: string): nat {
    if counts == [] then 0 else (if counts[0].name == name then counts[0].times else 0) + TimesIn(counts[1..], name)
  }

  function Mentions(output: seq<Line>, name: string): nat {
    if output == [] then 0
    else
      var x := output[|output| - 1];
      Mentions(output[..|output| - 1], name)
      + match x
        case Spoken(_) => 0
        case Call(n, _) => if n == name then 1 else 0
        case Summary(_, counts) => TimesIn(counts, name)
  }

  lemma {:induction false} BumpTimes(counts: seq<Count>, used: string, name: string)
    ensures TimesIn(Bump(counts, used), name) == TimesIn(counts, name) + if used == name then 1 else 0
  {
    if counts == [] {
      assert [Count(used, 1)][1..] == [];
    } else if counts[0].name != used {
      BumpTimes(counts[1..], used, name);
    }
  }

  lemma {:induction false} TallyTimes(group: seq<Entry>, name: string)
    ensures TimesIn(Tally(group), name) == UsesOf(group, name)
  {
    if group != [] {
      var e := group[|group| - 1];
      TallyTimes(group[..|group| - 1], name);
      if e.kind.ToolUse? {
        BumpTimes(Tally(group[..|group| - 1]), e.kind.name, name);
      }
    }
  }

  lemma {:induction false} MentionsOfConcat(a: seq<Line>, b: seq<Line>, name: string)
    ensures Mentions(a + b, name) == Mentions(a, name) + Mentions(b, name)
  {
    if b == [] {
      assert a + b == a;
    } else {
      assert (a + b)[..|a + b| - 1] == a + b[..|b| - 1];
      MentionsOfConcat(a, b[..|b| - 1], name);
    }
  }

  lemma {:induction false} RawMentions(group: seq<Entry>, name: string)
    ensures Mentions(RawLines(group), name) == UsesOf(group, name)
  {
    if group != [] {
      var e := group[|group| - 1];
      RawMentions(group[..|group| - 1], name);
      var before := RawLines(group[..|group| - 1]);
      if e.kind.ToolUse? {
        assert (before + [Call(e.kind.name, e.line)])[..|before|] == before;
      } else {
        assert before + [] == before;
      }
    }
  }

  lemma {:induction false} CloseMentions(p: Progress, name: string)
    ensures Mentions(Close(p).output, name) == Mentions(p.output, name) + UsesOf(p.group, name)
  {
    MentionsOfConcat(p.output, Flushed(p.group, p.turn), name);
    RawMentions(p.group, name);
    TallyTimes(p.group, name);
    assert [Summary(p.turn + 1, Tally(p.group))][..0] == [];
  }

  lemma {:induction false} FeedMentions(p: Progress, entries: seq<Entry>, name: string)
    ensures var q := FeedAll(p, entries);
            Mentions(q.output, name) + UsesOf(q.group, name)
            == Mentions(p.output, name) + UsesOf(p.group, name) + UsesOf(entries, name)
  {
    if entries != [] {
      var q := FeedAll(p, entries[..|entries| - 1]);
      var e := entries[|entries| - 1];
      FeedMentions(p, entries[..|entries| - 1], name);
      if IsTool(e) {
        assert (q.group + [e])[..|q.group|] == q.group;
      } else {
        CloseMentions(q, name);
        assert (Close(q).output + [Spoken(e.line)])[..|Close(q).output|] == Close(q).output;
      }
    }
  }

  lemma {:induction false} UsesOfJoined(a: seq<Entry>, b: seq<Entry>, name: string)
    ensures UsesOf(a + b, name) == UsesOf(a, name) + UsesOf(b, name)
  {
    if b == [] {
      assert a + b == a;
    } else {
      assert (a + b)[..|a + b| - 1] == a + b[..|b| - 1];
      UsesOfJoined(a, b[..|b| - 1], name);
    }
  }

  /** Whatever the batches, every call of every tool is shown or counted exactly once. */
  lemma {:induction false} ToolCallsAreConserved(batches: seq<seq<Entry>>, start: nat, name: string)
    ensures Mentions(Batches(batches, start).output, name) == UsesOf(Joined(batches), name)
  {
    if batches != [] {
      var front, last := batches[..|batches| - 1], batches[|batches| - 1];
      var before := Batches(front, start);
      ToolCallsAreConserved(front, start, name);
      var p := Progress([], [], before.turn);
      FeedMentions(p, last, name);
      CloseMentions(FeedAll(p, last), name);
      MentionsOfConcat(before.output, Formatted(last, before.turn).output, name);
      UsesOfJoined(Joined(front), last, name);
    }
  }

  // -- one summary

  function Total(counts: seq<Count>): nat {
    if counts == [] then 0 else counts[0].times + Total(counts[1..])
  }

  function Names(counts: seq<Count>): seq<string> {
    if counts == [] then [] else [counts[0].name] + Names(counts[1..])
  }

  /** The tools a run calls, in order of first call. */
  function FirstCalls(group: seq<Entry>): seq<string> {
    if group == [] then []
    else
      var before := FirstCalls(group[..|group| - 1]);
      var e := group[|group| - 1];
      if e.kind.ToolUse? && e.kind.name !in before then before + [e.kind.name] else before
  }

  lemma {:induction false} BumpNames(counts: seq<Count>, used: string)
    ensures Total(Bump(counts, used)) == Total(counts) + 1
    ensures Names(Bump(counts, used)) == if used in Names(counts) then Names(counts) else Names(counts) + [used]
  {
    if counts == [] {
      assert [Count(used, 1)][1..] == [];
    } else if counts[0].name == used {
      assert Bump(counts, used)[1..] == counts[1..];
    } else {
      assert Bump(counts, used)[1..] == Bump(counts[1..], used);
      BumpNames(counts[1..], used);
    }
  }

  lemma {:induction false} FirstCallsAreDistinct(group: seq<Entry>)
    ensures forall i, j :: 0 <= i < j < |FirstCalls(group)| ==> FirstCalls(group)[i] != FirstCalls(group)[j]
  {
    if group != [] {
      FirstCallsAreDistinct(group[..|group| - 1]);
    }
  }

  /** A summary names each tool of its run once, in order of first call, and its counts add up to the calls. */
  lemma {:induction false} SummaryAddsUp(group: seq<Entry>)
    ensures Total(Tally(group)) == Uses(group)
    ensures Names(Tally(group)) == FirstCalls(group)
  {
    if group != [] {
      SummaryAddsUp(group[..|group| - 1]);
      var e := group[|group| - 1];
      if e.kind.ToolUse? {
        BumpNames(Tally(group[..|group| - 1]), e.kind.name);
      }
    }
  }
}
