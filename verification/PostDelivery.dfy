/**
 What a reader of the thread gets: everything, if posts neither fail nor overlap;
 otherwise possibly a later batch before an earlier one, but never a message twice.
 */
module PostDelivery {
  import opened Sequences
  import opened Strings
  import opened Chunking
  import opened StreamPosts
  import opened PostOrder
  import F = StreamFormat
  import B = StreamBuffer
  import P = StreamBufferProperties
  import R = StreamReading

  // ---------------------------------------------------------------- one post at a time

  /** At most one coroutine has messages of the task to send. */
  predicate OnePost(posts: seq<Post>, task: string) {
    forall j, k :: 0 <= j < k < |posts| ==> Mine(posts[j].left, task) == [] || Mine(posts[k].left, task) == []
  }

  lemma {:induction false} AloneNeverOvertakes(w: World, e: Event, task: string)
    requires OnePost(w.posts, task)
    ensures !Overtakes(w, e, task)
  {
    if Overtakes(w, e, task) {
      ResumedLeft(w.posts[e.k], e.ok, task);
      forall q | q in w.posts[..e.k] ensures LeftFor(task)(q) == [] {
        var j :| 0 <= j < e.k && w.posts[j] == q;
      }
      CollectNothing(LeftFor(task), w.posts[..e.k]);
      assert false;
    }
  }

  /** Before each step the task has at most one post under way, and no step fails one. */
  predicate Unhurried(events: seq<Event>, n: nat, task: string)
    requires n <= |events|
  {
    n == 0
    || (&& Unhurried(events, n - 1, task)
        && OnePost(At(events, n - 1).posts, task)
        && !Fails(At(events, n - 1), events[n - 1], task))
  }

  lemma {:induction false} UnhurriedIsUnharmed(events: seq<Event>, n: nat, task: string)
    requires n <= |events| && Unhurried(events, n, task)
    ensures Unharmed(events, n, task)
  {
    if n > 0 {
      UnhurriedIsUnharmed(events, n - 1, task);
      AloneNeverOvertakes(At(events, n - 1), events[n - 1], task);
    }
  }

  /** One post at a time and none failing is enough for the thread to be in order. */
  lemma {:induction false} OnePostAtATimeIsInOrder(events: seq<Event>, n: nat, task: string)
    requires n <= |events| && Unhurried(events, n, task)
    ensures InOrder(Books(At(events, n), task))
  {
    UnhurriedIsUnharmed(events, n, task);
    OrderIffUnharmed(events, n, task);
  }

  // ---------------------------------------------------------------- no message twice

  lemma {:induction false} WithoutCounts(pieces: seq<Piece>, i: nat, j: nat)
    requires i <= j <= |pieces|
    ensures multiset(pieces) == multiset(Without(pieces, i, j)) + multiset(pieces[i..j])
  {
    assert pieces == pieces[..i] + pieces[i..j] + pieces[j..];
  }

  predicate NoneTwice(l: Ledger) {
    multiset(l.arrived) + multiset(l.outstanding) <= multiset(l.issued)
  }

  lemma {:induction false} DeliveryCounts(l: Ledger, m: Ledger, i: nat)
    requires Delivers(l, m, i)
    ensures multiset(m.arrived) + multiset(m.outstanding) == multiset(l.arrived) + multiset(l.outstanding)
  {
    var sent := l.outstanding[i];
    WithoutCounts(l.outstanding, i, i + 1);
    assert l.outstanding[i..i + 1] == [sent];
    assert multiset(m.arrived) == multiset(l.arrived) + multiset([sent]);
  }

  lemma {:induction false} LossCounts(l: Ledger, m: Ledger, i: nat, j: nat)
    requires Loses(l, m, i, j)
    ensures multiset(m.outstanding) <= multiset(l.outstanding)
  {
    WithoutCounts(l.outstanding, i, j);
  }

  lemma {:induction false} AwaitKeepsNoneTwice(l: Ledger, m: Ledger, i: nat, gone: seq<Piece>, ok: bool)
    requires NoneTwice(l) && gone != [] && Awaited(l, m, i, gone, ok)
    ensures NoneTwice(m)
  {
    if ok {
      DeliveryCounts(l, m, i);
    } else {
      LossCounts(l, m, i, i + |gone|);
    }
  }

  lemma {:induction false} EntryKeepsNoneTwice(l: Ledger, m: Ledger, low: nat, high: nat)
    requires NoneTwice(l) && Entered(l, m, low, high)
    ensures NoneTwice(m)
  {
    if more :| Issues(l, m, more, low, high) {
      assert multiset(m.outstanding) == multiset(l.outstanding) + multiset(more);
    } else {
      var i: nat, gone, ok :| Awaited(l, m, i, gone, ok);
      if gone != [] {
        AwaitKeepsNoneTwice(l, m, i, gone, ok);
      }
    }
  }

  lemma {:induction false} StepKeepsNoneTwice(w: World, e: Event, task: string)
    requires NoneTwice(Books(w, task))
    ensures NoneTwice(Books(Step(w, e), task))
  {
    StepEnters(w, e, task);
    EntryKeepsNoneTwice(Books(w, task), Books(Step(w, e), task), |w.issued|, |Step(w, e).issued|);
  }

  /** Whatever fails or overlaps, no message arrives more often than it was cut. */
  lemma {:induction false} NothingArrivesTwice(events: seq<Event>, n: nat, task: string)
    requires n <= |events|
    ensures NoneTwice(Books(At(events, n), task))
  {
    var kept := (w: World, u: bool) => NoneTwice(Books(w, task));
    forall w, e, u | kept(w, u) ensures kept(Step(w, e), u && !Harms(w, e, task)) {
      StepKeepsNoneTwice(w, e, task);
    }
    EveryRunKeeps(kept, events, n, task);
  }

  // ---------------------------------------------------------------- the messages of the drained batches

  function TextOf(p: Piece): seq<string> {
    [p.text]
  }

  function Texts(pieces: seq<Piece>): seq<string> {
    Collect(TextOf, pieces)
  }

  function TextsOf(task: string): B.Item -> seq<string> {
    (x: B.Item) => if x.Batched? && x.task == task then BatchTexts(x.entries, x.start) else []
  }

  lemma {:induction false} NumberedTexts(n: nat, owner: string, texts: seq<string>)
    ensures Texts(NumberedPieces(n, owner, texts)) == texts
  {
    if texts != [] {
      var pieces, front := NumberedPieces(n, owner, texts), texts[..|texts| - 1];
      NumberedTexts(n, owner, front);
      assert pieces == NumberedPieces(n, owner, front) + [pieces[|pieces| - 1]];
      CollectMore(TextOf, NumberedPieces(n, owner, front), pieces[|pieces| - 1]);
    }
  }

  lemma {:induction false} BatchAddsTexts(issued: seq<Piece>, owner: string, texts: seq<string>, task: string)
    ensures Texts(Mine(issued + NumberedPieces(|issued|, owner, texts), task))
            == Texts(Mine(issued, task)) + if owner == task then texts else []
  {
    var pieces := NumberedPieces(|issued|, owner, texts);
    CollectOfConcat(ForTask(task), issued, pieces);
    PiecesAreMine(|issued|, owner, texts, task);
    CollectOfConcat(TextOf, Mine(issued, task), Mine(pieces, task));
    NumberedTexts(|issued|, owner, texts);
  }

  lemma {:induction false} BegunAddsTexts(w: World, x: B.Item, task: string)
    ensures Texts(Mine(Begun(w, x).issued, task)) == Texts(Mine(w.issued, task)) + TextsOf(task)(x)
  {
    if x.Batched? {
      BatchAddsTexts(w.issued, x.task, BatchTexts(x.entries, x.start), task);
    }
  }

  lemma {:induction false} AppendTwice(a: seq<string>, b: seq<string>, c: seq<string>)
    ensures a + [] == a && a + b + c == a + (b + c)
  {
  }

  lemma {:induction false} BegunAllAddsTexts(w: World, items: seq<B.Item>, task: string, before: seq<string>)
    requires Texts(Mine(w.issued, task)) == before
    ensures Texts(Mine(BegunAll(w, items).issued, task)) == before + Collect(TextsOf(task), items)
  {
    if items == [] {
      AppendTwice(before, [], []);
    } else {
      var front, x := items[..|items| - 1], items[|items| - 1];
      BegunAllAddsTexts(w, front, task, before);
      BegunAddsTexts(BegunAll(w, front), x, task);
      AppendTwice(before, Collect(TextsOf(task), front), TextsOf(task)(x));
    }
  }

  lemma {:induction false} BegunAllKeepsHub(w: World, items: seq<B.Item>)
    ensures BegunAll(w, items).hub == w.hub
  {
    if items != [] {
      BegunAllKeepsHub(w, items[..|items| - 1]);
    }
  }

  lemma {:induction false} StepMovesHub(w: World, e: Event)
    ensures Step(w, e).hub == if e.Stream? then B.Step(w.hub, e.event) else w.hub
  {
    if e.Stream? {
      var after := B.Step(w.hub, e.event);
      BegunAllKeepsHub(w.(hub := after), Drains(w.hub, after));
    }
  }

  lemma {:induction false} LogGrows(hub: B.Hub, e: B.Event)
    ensures hub.log + Drains(hub, B.Step(hub, e)) == B.Step(hub, e).log
  {
    var after := B.Step(hub, e);
    if e.TerminalFlush? && e.task in hub.buffers {
      var batch := B.Batch(hub.buffers[e.task], e.task);
      assert after.log == hub.log + (batch + [B.Closed(e.task)]);
    }
    assert |hub.log| <= |after.log| && after.log[..|hub.log|] == hub.log;
  }

  predicate Tracks(w: World, task: string) {
    Texts(Mine(w.issued, task)) == Collect(TextsOf(task), w.hub.log)
  }

  lemma {:induction false} StreamKeepsTrack(w: World, e: B.Event, task: string)
    requires Tracks(w, task)
    ensures Tracks(Step(w, Stream(e)), task)
  {
    var after := B.Step(w.hub, e);
    LogGrows(w.hub, e);
    BegunAllAddsTexts(w.(hub := after), Drains(w.hub, after), task, Texts(Mine(w.issued, task)));
    BegunAllKeepsHub(w.(hub := after), Drains(w.hub, after));
    CollectOfConcat(TextsOf(task), w.hub.log, Drains(w.hub, after));
  }

  /** The messages cut for a task are those of its drained batches. */
  lemma {:induction false} IssuedAreDrained(events: seq<Event>, n: nat, task: string)
    requires n <= |events|
    ensures Texts(Mine(At(events, n).issued, task)) == Collect(TextsOf(task), At(events, n).hub.log)
  {
    var kept := (w: World, u: bool) => Tracks(w, task);
    forall w, e, u | kept(w, u) ensures kept(Step(w, e), u && !Harms(w, e, task)) {
      if e.Stream? {
        StreamKeepsTrack(w, e.event, task);
      }
    }
    EveryRunKeeps(kept, events, n, task);
  }

  // ---------------------------------------------------------------- the stream behind the posts

  function StreamEvents(events: seq<Event>, n: nat): seq<B.Event>
    requires n <= |events|
  {
    if n == 0 then []
    else StreamEvents(events, n - 1) + if events[n - 1].Stream? then [events[n - 1].event] else []
  }

  lemma {:induction false} LongerStream(s: seq<B.Event>, more: seq<B.Event>, n: nat)
    requires n <= |s|
    ensures B.At(s + more, n) == B.At(s, n)
  {
    if n > 0 {
      LongerStream(s, more, n - 1);
      assert (s + more)[n - 1] == s[n - 1];
    }
  }

  /** The buffers are those of the stream alone. */
  lemma {:induction false} HubFollowsStream(events: seq<Event>, n: nat)
    requires n <= |events|
    ensures At(events, n).hub == B.At(StreamEvents(events, n), |StreamEvents(events, n)|)
  {
    if n > 0 {
      HubFollowsStream(events, n - 1);
      var s, e := StreamEvents(events, n - 1), events[n - 1];
      StepMovesHub(At(events, n - 1), e);
      if e.Stream? {
        LongerStream(s, [e.event], |s|);
      } else {
        assert s + [] == s;
      }
    }
  }

  // ---------------------------------------------------------------- what can be read

  /** What of a text no break can swallow. */
  function InkOf(texts: seq<string>): string {
    Collect(Ink, texts)
  }

  lemma {:induction false} GluedInk(texts: seq<string>)
    ensures Ink(Glued(texts)) == InkOf(texts)
  {
    if texts != [] {
      var first, rest := texts[0], texts[1..];
      GluedInk(rest);
      InkOfConcat(first, Glued(rest));
      CollectOne(Ink, first);
      CollectOfConcat(Ink, [first], rest);
      assert texts == [first] + rest;
    }
  }

  lemma {:induction false} JoinedInk(parts: seq<string>)
    ensures Ink(Join("\n", parts)) == InkOf(parts)
  {
    if |parts| == 1 {
      assert parts == [parts[0]];
      CollectOne(Ink, parts[0]);
    } else if parts != [] {
      var front, last := parts[..|parts| - 1], parts[|parts| - 1];
      JoinedInk(front);
      InkOfConcat(Join("\n", front) + "\n", last);
      InkOfConcat(Join("\n", front), "\n");
      NewlinesHaveNoInk("\n");
    }
  }

  lemma {:induction false} BatchInk(entries: seq<F.Entry>, start: nat)
    ensures InkOf(BatchTexts(entries, start)) == InkOf(R.BatchLines(entries, start))
  {
    var text := F.Rendered(F.Formatted(entries, start).output);
    R.TextReadsOff(entries, start);
    JoinedInk(R.BatchLines(entries, start));
    InkIsKept(text, MAX_MESSAGE_LENGTH);
    GluedInk(BatchTexts(entries, start));
  }

  /** The lines of a task's batches, read off their entries. */
  function LinesOf(task: string): B.Item -> seq<string> {
    (x: B.Item) => if x.Batched? && x.task == task then R.BatchLines(x.entries, x.start) else []
  }

  lemma {:induction false} ItemInk(x: B.Item, task: string)
    ensures InkOf(TextsOf(task)(x)) == InkOf(LinesOf(task)(x))
  {
    if x.Batched? && x.task == task {
      BatchInk(x.entries, x.start);
    }
  }

  lemma {:induction false} LogInk(log: seq<B.Item>, task: string)
    ensures InkOf(Collect(TextsOf(task), log)) == InkOf(Collect(LinesOf(task), log))
  {
    if log != [] {
      var front, x := log[..|log| - 1], log[|log| - 1];
      LogInk(front, task);
      ItemInk(x, task);
      CollectOfConcat(Ink, Collect(TextsOf(task), front), TextsOf(task)(x));
      CollectOfConcat(Ink, Collect(LinesOf(task), front), LinesOf(task)(x));
    }
  }

  /** Every message of a batch has between 1 and 2000 characters. */
  lemma {:induction false} MessagesFit(entries: seq<F.Entry>, start: nat)
    ensures forall t :: t in BatchTexts(entries, start) ==> 1 <= |t| <= 2000
  {
    ChunksFit(F.Rendered(F.Formatted(entries, start).output), MAX_MESSAGE_LENGTH);
  }

  // ---------------------------------------------------------------- everything arrives

  predicate FlushDue(hub: B.Hub, task: string) {
    hub.immediate[task] > 0 || (task in hub.buffers && hub.buffers[task].timer)
  }

  /**
   Over any run in which no post of a task failed or was overtaken, once no flush
   is due and no message is left to send: the thread has exactly the messages of
   the drained batches, in order; the batches hold exactly the lines accepted;
   and read without line breaks the thread is the lines read off those batches.
   */
  lemma {:induction false} EverythingArrives(events: seq<Event>, n: nat, task: string)
    requires n <= |events| && Unharmed(events, n, task)
    requires Outstanding(At(events, n).posts, task) == [] && !FlushDue(At(events, n).hub, task)
    ensures var w, s := At(events, n), StreamEvents(events, n);
            && Texts(Mine(w.thread, task)) == Collect(TextsOf(task), w.hub.log)
            && P.DrainedEntries(w.hub.log, task) == P.Accepted(s, task, |s|)
            && InkOf(Texts(Mine(w.thread, task))) == InkOf(Collect(LinesOf(task), w.hub.log))
  {
    var w, s := At(events, n), StreamEvents(events, n);
    OrderIffUnharmed(events, n, task);
    assert Mine(w.thread, task) + [] == Mine(w.thread, task);
    IssuedAreDrained(events, n, task);
    HubFollowsStream(events, n);
    P.IdleMeansDrained(s, |s|, task);
    LogInk(w.hub.log, task);
  }

  // ---------------------------------------------------------------- a later batch first

  /** A line streamed into a task's empty buffer, and the flush after the batching interval. */
  function LineAndFlush(task: string, line: string): seq<Event> {
    [Stream(B.Notify("guild", task, F.Entry(line, F.Plain), true)), Stream(B.TimerFires(task))]
  }

  predicate ShortLine(line: string) {
    !B.Blank(line) && |line| + 1 < B.STREAM_FLUSH_CHARS
  }

  predicate NothingBuffered(hub: B.Hub, task: string) {
    task in hub.buffers ==> hub.buffers[task].lines == [] && hub.buffers[task].size == 0
  }

  lemma {:induction false} OneLineIsOneMessage(line: string, start: nat)
    requires ShortLine(line)
    ensures BatchTexts([F.Entry(line, F.Plain)], start) == [line]
  {
    var e := F.Entry(line, F.Plain);
    var p := F.Progress([], [], start);
    assert [e][..0] == [];
    assert F.FeedAll(p, [e]) == F.Feed(p, e);
    var output := F.Formatted([e], start).output;
    assert output == [F.Spoken(line)];
    assert F.Rendered(output) == line;
  }

  lemma {:induction false} LineIsDrained(hub: B.Hub, task: string, line: string)
    requires task != "" && ShortLine(line) && NothingBuffered(hub, task)
    ensures var events := LineAndFlush(task, line);
            var after := B.Step(B.Step(hub, events[0].event), events[1].event);
            && NothingBuffered(after, task)
            && exists guild, start :: after.log == hub.log + [B.Batched(task, guild, [F.Entry(line, F.Plain)], start)]
  {
    var e := F.Entry(line, F.Plain);
    var b := B.BufferOf(hub, task, "guild");
    var h := B.Step(hub, B.Notify("guild", task, e, true));
    assert b.lines + [e] == [e];
    assert h.buffers[task] == b.(lines := [e], size := |line| + 1, timer := true);
    var after := B.Step(h, B.TimerFires(task));
    assert after.log == hub.log + [B.Batched(task, b.guild, [e], b.turns)];
  }

  lemma {:induction false} OneBatchBegins(w: World, hub: B.Hub, task: string, guild: string, line: string, start: nat)
    requires ShortLine(line) && hub.log == w.hub.log + [B.Batched(task, guild, [F.Entry(line, F.Plain)], start)]
    ensures BegunAll(w.(hub := hub), Drains(w.hub, hub))
            == World(hub, w.posts + [Post(guild, false, [Piece(|w.issued|, task, line)])],
                     w.issued + [Piece(|w.issued|, task, line)], w.thread)
  {
    var x := B.Batched(task, guild, [F.Entry(line, F.Plain)], start);
    assert Drains(w.hub, hub) == [x];
    assert [x][..0] == [];
    OneLineIsOneMessage(line, start);
    assert NumberedPieces(|w.issued|, task, [line]) == [Piece(|w.issued|, task, line)];
  }

  /** A line streamed and flushed becomes the one message of a new coroutine. */
  lemma {:induction false} LineIsCut(w: World, task: string, line: string) returns (guild: string)
    requires task != "" && ShortLine(line) && NothingBuffered(w.hub, task)
    ensures var v := Step(Step(w, LineAndFlush(task, line)[0]), LineAndFlush(task, line)[1]);
            && NothingBuffered(v.hub, task) && v.thread == w.thread
            && v.posts == w.posts + [Post(guild, false, [Piece(|w.issued|, task, line)])]
            && v.issued == w.issued + [Piece(|w.issued|, task, line)]
  {
    var notify, fires := LineAndFlush(task, line)[0].event, LineAndFlush(task, line)[1].event;
    var h := B.Step(w.hub, notify);
    assert Drains(w.hub, h) == [];
    assert Step(w, Stream(notify)) == w.(hub := h);
    LineIsDrained(w.hub, task, line);
    var after := B.Step(h, fires);
    var owner, start :| after.log == w.hub.log + [B.Batched(task, owner, [F.Entry(line, F.Plain)], start)];
    guild := owner;
    OneBatchBegins(w.(hub := h), after, task, guild, line, start);
  }

  /** Both threads are found, the later message is sent, then the earlier one. */
  lemma {:induction false} LaterPostFirst(events: seq<Event>, n: nat, first: Post, second: Post, a: Piece, b: Piece)
    requires n + 4 == |events|
    requires events[n..] == [PostStep(0, true), PostStep(1, true), PostStep(1, true), PostStep(0, true)]
    requires first.left == [a] && second.left == [b] && !first.located && !second.located
    requires At(events, n).posts == [first, second] && At(events, n).thread == []
    ensures At(events, n + 4).thread == [b, a] && At(events, n + 4).issued == At(events, n).issued
  {
    var w := At(events, n);
    var found := w.(posts := [first.(located := true), second.(located := true)]);
    assert events[n] == events[n..][0] && events[n + 1] == events[n..][1];
    assert events[n + 2] == events[n..][2] && events[n + 3] == events[n..][3];
    assert At(events, n + 1) == w.(posts := [first.(located := true), second]);
    assert At(events, n + 2) == found;
    assert At(events, n + 3).posts[0] == found.posts[0] && At(events, n + 3).thread == [b];
    assert At(events, n + 4).thread == [b] + [a];
  }

  /** One line's notify and flush, at position `n` of a run. */
  lemma {:induction false} LineAt(events: seq<Event>, n: nat, task: string, line: string) returns (guild: string)
    requires n + 2 <= |events| && events[n..n + 2] == LineAndFlush(task, line)
    requires task != "" && ShortLine(line) && NothingBuffered(At(events, n).hub, task)
    ensures var w, v := At(events, n), At(events, n + 2);
            && NothingBuffered(v.hub, task) && v.thread == w.thread
            && v.posts == w.posts + [Post(guild, false, [Piece(|w.issued|, task, line)])]
            && v.issued == w.issued + [Piece(|w.issued|, task, line)]
  {
    guild := LineIsCut(At(events, n), task, line);
    assert events[n] == events[n..n + 2][0] && events[n + 1] == events[n..n + 2][1];
    assert At(events, n + 1) == Step(At(events, n), events[n]);
  }

  lemma {:induction false} StartsEmpty(events: seq<Event>, task: string)
    ensures var w := At(events, 0);
            NothingBuffered(w.hub, task) && w.posts == [] && w.issued == [] && w.thread == []
  {
  }

  lemma {:induction false} FirstLine(events: seq<Event>, task: string, line: string) returns (guild: string)
    requires 2 <= |events| && events[0..2] == LineAndFlush(task, line) && task != "" && ShortLine(line)
    ensures var w, a := At(events, 2), Piece(0, task, line);
            && NothingBuffered(w.hub, task) && w.thread == []
            && w.posts == [Post(guild, false, [a])] && w.issued == [a]
  {
    StartsEmpty(events, task);
    guild := LineAt(events, 0, task, line);
  }

  lemma {:induction false} SecondLine(events: seq<Event>, n: nat, task: string, line: string, p: Post, a: Piece)
    returns (guild: string)
    requires n + 2 <= |events| && events[n..n + 2] == LineAndFlush(task, line) && task != "" && ShortLine(line)
    requires NothingBuffered(At(events, n).hub, task)
    requires At(events, n).posts == [p] && At(events, n).issued == [a] && At(events, n).thread == []
    ensures var w, b := At(events, n + 2), Piece(1, task, line);
            w.posts == [p, Post(guild, false, [b])] && w.issued == [a, b] && w.thread == []
  {
    guild := LineAt(events, n, task, line);
  }

  function Reordering(task: string, first: string, second: string): seq<Event> {
    LineAndFlush(task, first) + LineAndFlush(task, second)
    + [PostStep(0, true), PostStep(1, true), PostStep(1, true), PostStep(0, true)]
  }

  lemma {:induction false} SwappedIsNotInOrder(l: Ledger, w: World, task: string, a: Piece, b: Piece)
    requires l == Books(w, task) && w.issued == [a, b] && w.thread == [b, a]
    requires a.task == task && b.task == task && a != b
    ensures !InOrder(l)
  {
    assert [a, b] == [a] + [b] && [b, a] == [b] + [a];
    CollectOne(ForTask(task), a);
    CollectOne(ForTask(task), b);
    CollectMore(ForTask(task), [a], b);
    CollectMore(ForTask(task), [b], a);
    assert (l.arrived + l.outstanding)[0] == b;
  }

  /**
   Two short lines, each flushed in its turn; the second one's coroutine overtakes
   the first's, so the thread shows them in the wrong order though no post failed.
   */
  lemma {:induction false} LaterBatchFirst(task: string, first: string, second: string)
    requires task != "" && ShortLine(first) && ShortLine(second)
    ensures var w := At(Reordering(task, first, second), 8);
            && w.issued == [Piece(0, task, first), Piece(1, task, second)]
            && w.thread == [Piece(1, task, second), Piece(0, task, first)]
            && !InOrder(Books(w, task))
  {
    var events := Reordering(task, first, second);
    var a, b := Piece(0, task, first), Piece(1, task, second);
    var g := FirstLine(events, task, first);
    var h := SecondLine(events, 2, task, second, Post(g, false, [a]), a);
    LaterPostFirst(events, 4, Post(g, false, [a]), Post(h, false, [b]), a, b);
    SwappedIsNotInOrder(Books(At(events, 8), task), At(events, 8), task, a, b);
  }
}
