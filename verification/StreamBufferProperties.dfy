/**
 What every interleaving of notifies, timers, early flushes and terminal flushes
 keeps: no line is lost, no buffer stalls, and the drained batches read as one stream.
 What becomes of them on the way to the thread is StreamPosts.
 */
module StreamBufferProperties {
  import opened Sequences
  import opened StreamFormat
  import opened StreamBuffer

  // ---------------------------------------------------------------- nothing is lost

  /** The characters of white space, besides those from U+2000 to U+200A. */
  const SPACES :=
    "\t\n\U{B}\U{C}\r\U{1C}\U{1D}\U{1E}\U{1F} \U{85}\U{A0}\U{1680}\U{2028}\U{2029}\U{202F}\U{205F}\U{3000}"

  /** A line worth streaming: streaming is on, the task is named, and something in the line is no white space. */
  ghost predicate IsWanted(e: Event) {
    && e.Notify? && e.enabled && |e.task| > 0
    && exists i :: 0 <= i < |e.entry.line| && e.entry.line[i] !in SPACES
                   && !('\U{2000}' <= e.entry.line[i] <= '\U{200A}')
  }

  ghost function Accepted(events: seq<Event>, task: string, n: nat): seq<Entry>
    requires n <= |events|
  {
    if n == 0 then []
    else
      var e := events[n - 1];
      Accepted(events, task, n - 1) + if IsWanted(e) && e.task == task then [e.entry] else []
  }

  lemma {:induction false} SpacesAre(c: char)
    ensures IsSpace(c) <==> c in SPACES || '\U{2000}' <= c <= '\U{200A}'
  {
  }

  lemma {:induction false} WantedIsAccepted(e: Event)
    ensures IsWanted(e) <==> Accepts(e)
  {
    if e.Notify? {
      forall c: char ensures IsSpace(c) <==> c in SPACES || '\U{2000}' <= c <= '\U{200A}' {
        SpacesAre(c);
      }
    }
  }

  function DrainedEntries(log: seq<Item>, task: string): seq<Entry> {
    if log == [] then []
    else
      var x := log[|log| - 1];
      DrainedEntries(log[..|log| - 1], task) + if x.Batched? && x.task == task then x.entries else []
  }

  function Waiting(hub: Hub, task: string): seq<Entry> {
    if task in hub.buffers then hub.buffers[task].lines else []
  }

  lemma {:induction false} BatchedOneMore(log: seq<Item>, x: Item, task: string)
    ensures DrainedEntries(log + [x], task)
            == DrainedEntries(log, task) + if x.Batched? && x.task == task then x.entries else []
  {
    assert (log + [x])[..|log|] == log;
  }

  lemma {:induction false} BatchIsDrained(log: seq<Item>, b: Buffer, owner: string, task: string)
    ensures DrainedEntries(log + Batch(b, owner), task)
            == DrainedEntries(log, task) + if owner == task then b.lines else []
  {
    if b.lines == [] {
      assert log + [] == log;
    } else {
      BatchedOneMore(log, Batched(owner, b.guild, b.lines, b.turns), task);
    }
  }

  function Outflow(hub: Hub, task: string): seq<Entry> {
    DrainedEntries(hub.log, task) + Waiting(hub, task)
  }

  lemma {:induction false} FlushMovesLines(hub: Hub, owner: string, task: string)
    ensures Outflow(Drained(hub, owner), task) == Outflow(hub, task)
  {
    if owner in hub.buffers {
      BatchIsDrained(hub.log, hub.buffers[owner], owner, task);
    }
  }

  lemma {:induction false} NotifyAddsLine(hub: Hub, guild: string, owner: string, entry: Entry, task: string)
    ensures Outflow(Notified(hub, guild, owner, entry), task)
            == Outflow(hub, task) + if owner == task then [entry] else []
  {
    assert Waiting(Notified(hub, guild, owner, entry), task)
           == Waiting(hub, task) + if owner == task then [entry] else [];
  }

  lemma {:induction false} CloseMovesLines(hub: Hub, owner: string, task: string)
    requires owner in hub.buffers
    ensures Outflow(Step(hub, TerminalFlush(owner)), task) == Outflow(hub, task)
  {
    var log := hub.log + Batch(hub.buffers[owner], owner);
    calc {
      DrainedEntries(log + [Closed(owner)], task);
      { BatchedOneMore(log, Closed(owner), task); }
      DrainedEntries(log, task) + [];
      DrainedEntries(log, task);
      { BatchIsDrained(hub.log, hub.buffers[owner], owner, task); }
      DrainedEntries(hub.log, task) + if owner == task then hub.buffers[owner].lines else [];
    }
    var after := Step(hub, TerminalFlush(owner));
    assert after.log == log + [Closed(owner)];
    assert Waiting(after, task) == if owner == task then [] else Waiting(hub, task);
  }

  lemma {:induction false} StepMovesLines(hub: Hub, e: Event, task: string)
    ensures Outflow(Step(hub, e), task)
            == Outflow(hub, task) + if Accepts(e) && e.task == task then [e.entry] else []
  {
    match e
    case Notify(guild, owner, entry, _) =>
      if Accepts(e) {
        NotifyAddsLine(hub, guild, owner, entry, task);
      }
    case TimerFires(owner) =>
      if owner in hub.buffers && hub.buffers[owner].timer {
        var h := hub.(buffers := hub.buffers[owner := hub.buffers[owner].(timer := false)]);
        FlushMovesLines(h, owner, task);
        assert Waiting(h, task) == Waiting(hub, task);
      }
    case EarlyFlush(owner) =>
      FlushMovesLines(hub.(immediate := hub.immediate - multiset{owner}), owner, task);
    case TerminalFlush(owner) =>
      if owner in hub.buffers {
        CloseMovesLines(hub, owner, task);
      }
  }

  lemma {:induction false} OutflowIsAccepted(events: seq<Event>, n: nat, task: string)
    requires n <= |events|
    ensures Outflow(At(events, n), task) == Accepted(events, task, n)
  {
    if n > 0 {
      OutflowIsAccepted(events, n - 1, task);
      WantedIsAccepted(events[n - 1]);
      StepMovesLines(At(events, n - 1), events[n - 1], task);
    }
  }

  /**
   Over any run, the batches drained for a task followed by the lines still
   buffered are the lines accepted for it: all of them, in order, once.
   */
  lemma {:induction false} NothingIsLost(events: seq<Event>, n: nat, task: string)
    requires n <= |events|
    ensures DrainedEntries(At(events, n).log, task) + Waiting(At(events, n), task) == Accepted(events, task, n)
  {
    OutflowIsAccepted(events, n, task);
  }

  // ---------------------------------------------------------------- nothing stalls

  function SizeOf(lines: seq<Entry>): nat {
    if lines == [] then 0 else SizeOf(lines[..|lines| - 1]) + |lines[|lines| - 1].line| + 1
  }

  /** Sizes are right, and something is due to flush every buffer that holds lines. */
  predicate Live(hub: Hub, task: string) {
    task in hub.buffers ==>
      var b := hub.buffers[task];
      && b.size == SizeOf(b.lines)
      && (b.lines != [] ==> b.timer || hub.immediate[task] > 0)
      && (b.size >= 1500 ==> hub.immediate[task] > 0)
      && (b.timer ==> b.size < 1500)
  }

  lemma {:induction false} NotifyKeepsLive(hub: Hub, guild: string, owner: string, entry: Entry, task: string)
    requires Live(hub, task)
    ensures Live(Notified(hub, guild, owner, entry), task)
  {
    var b := BufferOf(hub, owner, guild);
    assert (b.lines + [entry])[..|b.lines|] == b.lines;
  }

  /** A drain empties the buffer, so it may use up the flush that made it. */
  lemma {:induction false} DrainIsLive(hub: Hub, task: string)
    requires task in hub.buffers && hub.buffers[task].size == SizeOf(hub.buffers[task].lines)
    requires hub.buffers[task].timer ==> hub.buffers[task].size < STREAM_FLUSH_CHARS
    ensures Live(Drained(hub, task), task)
  {
  }

  lemma {:induction false} StepKeepsLive(hub: Hub, e: Event, task: string)
    requires Live(hub, task)
    ensures Live(Step(hub, e), task)
  {
    match e
    case Notify(guild, owner, entry, _) =>
      if Accepts(e) {
        NotifyKeepsLive(hub, guild, owner, entry, task);
      }
    case TimerFires(owner) =>
      if owner == task && task in hub.buffers {
        DrainIsLive(hub.(buffers := hub.buffers[task := hub.buffers[task].(timer := false)]), task);
      }
    case EarlyFlush(owner) =>
      if owner == task && task in hub.buffers {
        DrainIsLive(hub.(immediate := hub.immediate - multiset{task}), task);
      }
    case TerminalFlush(_) =>
  }

  /**
   Nothing stalls: at every point of every run a buffer's size is the sum of its
   line lengths plus one each, a buffer that holds lines has a timer or an early
   flush outstanding, and a full one has an early flush.
   */
  lemma {:induction false} NothingStalls(events: seq<Event>, n: nat, task: string)
    requires n <= |events|
    ensures Live(At(events, n), task)
  {
    if n > 0 {
      NothingStalls(events, n - 1, task);
      StepKeepsLive(At(events, n - 1), events[n - 1], task);
    }
  }

  /** With no flush outstanding for a task, everything accepted has been drained. */
  lemma {:induction false} IdleMeansDrained(events: seq<Event>, n: nat, task: string)
    requires n <= |events|
    requires task in At(events, n).buffers ==> !At(events, n).buffers[task].timer
    requires At(events, n).immediate[task] == 0
    ensures DrainedEntries(At(events, n).log, task) == Accepted(events, task, n)
  {
    NothingIsLost(events, n, task);
    NothingStalls(events, n, task);
  }

  // ---------------------------------------------------------------- for which guild

  /** The task's buffer and its batches are the guild's. */
  predicate GuildIs(hub: Hub, task: string, guild: string) {
    && (task in hub.buffers ==> hub.buffers[task].guild == guild)
    && forall i :: 0 <= i < |hub.log| && hub.log[i].Batched? && hub.log[i].task == task ==> hub.log[i].guild == guild
  }

  lemma {:induction false} StepKeepsGuild(hub: Hub, e: Event, task: string, guild: string)
    requires GuildIs(hub, task, guild)
    requires IsWanted(e) && e.task == task ==> e.guild == guild
    ensures GuildIs(Step(hub, e), task, guild)
  {
    WantedIsAccepted(e);
  }

  /** A task streamed from one guild has all its batches drained for that guild. */
  lemma {:induction false} BatchesGoToTheirGuild(events: seq<Event>, n: nat, task: string, guild: string)
    requires n <= |events|
    requires forall k :: 0 <= k < n && IsWanted(events[k]) && events[k].task == task ==> events[k].guild == guild
    ensures GuildIs(At(events, n), task, guild)
  {
    if n > 0 {
      BatchesGoToTheirGuild(events, n - 1, task, guild);
      StepKeepsGuild(At(events, n - 1), events[n - 1], task, guild);
    }
  }

  // ---------------------------------------------------------------- what the drained batches show

  /** Everything drained for the task, formatted. */
  function DrainedLines(log: seq<Item>, task: string): seq<Line> {
    if log == [] then []
    else
      var x := log[|log| - 1];
      DrainedLines(log[..|log| - 1], task)
      + if x.Batched? && x.task == task then Formatted(x.entries, x.start).output else []
  }

  lemma {:induction false} BatchSpoken(entries: seq<Entry>, start: nat)
    ensures SpokenLines(Formatted(entries, start).output) == PlainLines(entries)
  {
    var p := Progress([], [], start);
    FeedKeepsPlain(p, entries);
    CloseIsSilent(FeedAll(p, entries));
  }

  lemma {:induction false} DrainedSpoken(log: seq<Item>, task: string)
    ensures SpokenLines(DrainedLines(log, task)) == PlainLines(DrainedEntries(log, task))
  {
    if log != [] {
      var front, x := log[..|log| - 1], log[|log| - 1];
      DrainedSpoken(front, task);
      if x.Batched? && x.task == task {
        BatchSpoken(x.entries, x.start);
        CollectOfConcat(SpokenLine, DrainedLines(front, task), Formatted(x.entries, x.start).output);
        CollectOfConcat(PlainLine, DrainedEntries(front, task), x.entries);
      } else {
        assert DrainedLines(front, task) + [] == DrainedLines(front, task);
        assert DrainedEntries(front, task) + [] == DrainedEntries(front, task);
      }
    }
  }

  /** However it is batched, ordinary output is drained whole and in order. */
  lemma {:induction false} DrainsKeepOrdinaryOutput(events: seq<Event>, n: nat, task: string)
    requires n <= |events|
    ensures var hub := At(events, n);
            SpokenLines(DrainedLines(hub.log, task)) + PlainLines(Waiting(hub, task))
            == PlainLines(Accepted(events, task, n))
  {
    var hub := At(events, n);
    NothingIsLost(events, n, task);
    DrainedSpoken(hub.log, task);
    CollectOfConcat(PlainLine, DrainedEntries(hub.log, task), Waiting(hub, task));
  }

  lemma {:induction false} BatchMentions(entries: seq<Entry>, start: nat, name: string)
    ensures Mentions(Formatted(entries, start).output, name) == UsesOf(entries, name)
  {
    var p := Progress([], [], start);
    FeedMentions(p, entries, name);
    CloseMentions(FeedAll(p, entries), name);
  }

  lemma {:induction false} DrainedMentions(log: seq<Item>, task: string, name: string)
    ensures Mentions(DrainedLines(log, task), name) == UsesOf(DrainedEntries(log, task), name)
  {
    if log != [] {
      var front, x := log[..|log| - 1], log[|log| - 1];
      DrainedMentions(front, task, name);
      if x.Batched? && x.task == task {
        BatchMentions(x.entries, x.start, name);
        MentionsOfConcat(DrainedLines(front, task), Formatted(x.entries, x.start).output, name);
        UsesOfJoined(DrainedEntries(front, task), x.entries, name);
      } else {
        assert DrainedLines(front, task) + [] == DrainedLines(front, task);
        assert DrainedEntries(front, task) + [] == DrainedEntries(front, task);
      }
    }
  }

  /** Every tool call is shown or counted once in the drained batches, or still waiting. */
  lemma {:induction false} DrainsCountEveryCall(events: seq<Event>, n: nat, task: string, name: string)
    requires n <= |events|
    ensures var hub := At(events, n);
            Mentions(DrainedLines(hub.log, task), name) + UsesOf(Waiting(hub, task), name)
            == UsesOf(Accepted(events, task, n), name)
  {
    var hub := At(events, n);
    NothingIsLost(events, n, task);
    DrainedMentions(hub.log, task, name);
    UsesOfJoined(DrainedEntries(hub.log, task), Waiting(hub, task), name);
  }

  // ---------------------------------------------------------------- turn numbers across batches

  /** What was drained since the task's buffer was last closed. */
  function DrainedSince(log: seq<Item>, task: string): seq<Line> {
    if log == [] then []
    else
      var front, x := log[..|log| - 1], log[|log| - 1];
      if x.task != task then DrainedSince(front, task)
      else if x.Closed? then []
      else DrainedSince(front, task) + Formatted(x.entries, x.start).output
  }

  function TurnsOf(hub: Hub, task: string): nat {
    if task in hub.buffers then hub.buffers[task].turns else 0
  }

  predicate Numbered(hub: Hub, task: string) {
    TurnNumbers(DrainedSince(hub.log, task)) == UpTo(0, TurnsOf(hub, task))
  }

  lemma {:induction false} SinceOneMore(log: seq<Item>, x: Item, task: string)
    ensures DrainedSince(log + [x], task)
            == if x.task != task then DrainedSince(log, task)
               else if x.Closed? then []
               else DrainedSince(log, task) + Formatted(x.entries, x.start).output
  {
    assert (log + [x])[..|log|] == log;
  }

  lemma {:induction false} BatchIsNumbered(before: seq<Line>, turns: nat, entries: seq<Entry>)
    requires TurnNumbers(before) == UpTo(0, turns)
    ensures TurnNumbers(before + Formatted(entries, turns).output) == UpTo(0, Formatted(entries, turns).turn)
  {
    var p := Progress(before, [], turns);
    FeedNumbers(p, entries, 0);
    CloseNumbers(FeedAll(p, entries), 0);
    assert Shifted(before, Progress([], [], turns)) == p by { assert before + [] == before; }
    PrefixIsKept(before, Progress([], [], turns), entries);
  }

  lemma {:induction false} FlushKeepsNumbers(hub: Hub, owner: string, task: string)
    requires Numbered(hub, task)
    ensures Numbered(Drained(hub, owner), task)
  {
    if owner in hub.buffers {
      var b := hub.buffers[owner];
      if b.lines == [] {
        assert hub.log + [] == hub.log;
      } else {
        SinceOneMore(hub.log, Batched(owner, b.guild, b.lines, b.turns), task);
        if owner == task {
          BatchIsNumbered(DrainedSince(hub.log, task), b.turns, b.lines);
        }
      }
    }
  }

  lemma {:induction false} CloseKeepsNumbers(hub: Hub, owner: string, task: string)
    requires Numbered(hub, task) && owner in hub.buffers
    ensures Numbered(Step(hub, TerminalFlush(owner)), task)
  {
    var log := hub.log + Batch(hub.buffers[owner], owner);
    SinceOneMore(log, Closed(owner), task);
    if owner != task {
      FlushKeepsNumbers(hub, owner, task);
    }
  }

  lemma {:induction false} TimerKeepsNumbers(hub: Hub, owner: string, task: string)
    requires Numbered(hub, task) && owner in hub.buffers
    ensures Numbered(Drained(hub.(buffers := hub.buffers[owner := hub.buffers[owner].(timer := false)]), owner), task)
  {
    var h := hub.(buffers := hub.buffers[owner := hub.buffers[owner].(timer := false)]);
    assert TurnsOf(h, task) == TurnsOf(hub, task) && h.log == hub.log;
    FlushKeepsNumbers(h, owner, task);
  }

  lemma {:induction false} NotifyKeepsNumbers(hub: Hub, guild: string, owner: string, entry: Entry, task: string)
    requires Numbered(hub, task)
    ensures Numbered(Notified(hub, guild, owner, entry), task)
  {
    var after := Notified(hub, guild, owner, entry);
    assert TurnsOf(after, task) == TurnsOf(hub, task) && after.log == hub.log;
  }

  lemma {:induction false} StepKeepsNumbers(hub: Hub, e: Event, task: string)
    requires Numbered(hub, task)
    ensures Numbered(Step(hub, e), task)
  {
    match e
    case Notify(guild, owner, entry, _) => NotifyKeepsNumbers(hub, guild, owner, entry, task);
    case TimerFires(owner) =>
      if owner in hub.buffers {
        TimerKeepsNumbers(hub, owner, task);
      }
    case EarlyFlush(owner) =>
      FlushKeepsNumbers(hub.(immediate := hub.immediate - multiset{owner}), owner, task);
    case TerminalFlush(owner) =>
      if owner in hub.buffers {
        CloseKeepsNumbers(hub, owner, task);
      }
  }

  /** From one end of a task's stream to the next, its turns are numbered 1, 2, 3, ... across all batches. */
  lemma {:induction false} TurnsRunOn(events: seq<Event>, n: nat, task: string)
    requires n <= |events|
    ensures Numbered(At(events, n), task)
  {
    if n > 0 {
      TurnsRunOn(events, n - 1, task);
      StepKeepsNumbers(At(events, n - 1), events[n - 1], task);
    }
  }
}
