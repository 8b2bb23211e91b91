/**
 When the messages of a task arrive complete and in order.
 */
module PostOrder {
  import opened Sequences
  import opened StreamPosts
  import B = StreamBuffer
  import F = StreamFormat

  // ---------------------------------------------------------------- one task's messages

  function ForTask(task: string): Piece -> seq<Piece> {
    (p: Piece) => if p.task == task then [p] else []
  }

  function Mine(pieces: seq<Piece>, task: string): seq<Piece> {
    Collect(ForTask(task), pieces)
  }

  function LeftFor(task: string): Post -> seq<Piece> {
    (q: Post) => Mine(q.left, task)
  }

  /** The messages that some coroutine has yet to send, by age of the coroutines. */
  function Outstanding(posts: seq<Post>, task: string): seq<Piece> {
    Collect(LeftFor(task), posts)
  }

  /** Of one task: the messages cut, those accepted by the thread, and those still to be sent. */
  datatype Ledger = Ledger(issued: seq<Piece>, arrived: seq<Piece>, outstanding: seq<Piece>)

  function Books(w: World, task: string): Ledger {
    Ledger(Mine(w.issued, task), Mine(w.thread, task), Outstanding(w.posts, task))
  }

  /** What has arrived and what is still to come is what was cut, in order. */
  predicate InOrder(l: Ledger) {
    l.arrived + l.outstanding == l.issued
  }

  // ---------------------------------------------------------------- how a ledger can change

  predicate Ascending(pieces: seq<Piece>) {
    forall i, j :: 0 <= i < j < |pieces| ==> pieces[i].number < pieces[j].number
  }

  predicate Within(pieces: seq<Piece>, low: nat, high: nat) {
    forall i :: 0 <= i < |pieces| ==> low <= pieces[i].number < high
  }

  function Without(pieces: seq<Piece>, i: nat, j: nat): seq<Piece>
    requires i <= j <= |pieces|
  {
    pieces[..i] + pieces[j..]
  }

  predicate Delivers(l: Ledger, m: Ledger, i: nat) {
    i < |l.outstanding|
    && m == Ledger(l.issued, l.arrived + [l.outstanding[i]], Without(l.outstanding, i, i + 1))
  }

  predicate Loses(l: Ledger, m: Ledger, i: nat, j: nat) {
    i < j <= |l.outstanding| && m == Ledger(l.issued, l.arrived, Without(l.outstanding, i, j))
  }

  predicate Issues(l: Ledger, m: Ledger, more: seq<Piece>, low: nat, high: nat) {
    && Ascending(more) && Within(more, low, high) && low <= high
    && m == Ledger(l.issued + more, l.arrived, l.outstanding + more)
  }

  /** No message counts twice, and both lists are in the order of draining, below `bound`. */
  predicate Valid(l: Ledger, bound: nat) {
    && |l.arrived| + |l.outstanding| <= |l.issued|
    && Ascending(l.issued) && Ascending(l.outstanding)
    && Within(l.issued, 0, bound) && Within(l.arrived, 0, bound) && Within(l.outstanding, 0, bound)
  }

  /** An arrived message with a higher number than one that arrived after it or is still to come. */
  ghost predicate Overtaken(l: Ledger) {
    exists i, j {:trigger (l.arrived + l.outstanding)[i], (l.arrived + l.outstanding)[j]} ::
      0 <= i < |l.arrived| && i < j < |l.arrived + l.outstanding|
      && (l.arrived + l.outstanding)[i].number > (l.arrived + l.outstanding)[j].number
  }

  /** A message is gone, or has been overtaken: there is no way back to order. */
  ghost predicate Broken(l: Ledger) {
    |l.arrived| + |l.outstanding| < |l.issued| || Overtaken(l)
  }

  lemma {:induction false} OrderIsNotBroken(l: Ledger, bound: nat)
    requires Valid(l, bound) && InOrder(l)
    ensures !Broken(l)
  {
  }

  lemma {:induction false} WithoutAscends(pieces: seq<Piece>, i: nat, j: nat, bound: nat)
    requires i <= j <= |pieces| && Ascending(pieces) && Within(pieces, 0, bound)
    ensures Ascending(Without(pieces, i, j)) && Within(Without(pieces, i, j), 0, bound)
  {
  }

  lemma {:induction false} DeliveryIsValid(l: Ledger, m: Ledger, i: nat, bound: nat)
    requires Valid(l, bound) && Delivers(l, m, i)
    ensures Valid(m, bound)
  {
    WithoutAscends(l.outstanding, i, i + 1, bound);
  }

  lemma {:induction false} HeadMoves(a: seq<Piece>, b: seq<Piece>)
    requires b != []
    ensures a + [b[0]] + b[1..] == a + b
  {
    assert [b[0]] + b[1..] == b;
  }

  lemma {:induction false} FirstDeliveryIsInOrder(l: Ledger, m: Ledger)
    requires InOrder(l) && Delivers(l, m, 0)
    ensures InOrder(m)
  {
    HeadMoves(l.arrived, l.outstanding);
    assert Without(l.outstanding, 0, 1) == l.outstanding[1..];
  }

  lemma {:induction false} LossIsValid(l: Ledger, m: Ledger, i: nat, j: nat, bound: nat)
    requires Valid(l, bound) && Loses(l, m, i, j)
    ensures Valid(m, bound) && Broken(m)
  {
    WithoutAscends(l.outstanding, i, j, bound);
  }

  lemma {:induction false} IssueIsValid(l: Ledger, m: Ledger, more: seq<Piece>, low: nat, high: nat)
    requires Valid(l, low) && Issues(l, m, more, low, high)
    ensures Valid(m, high)
    ensures InOrder(l) ==> InOrder(m)
  {
    if InOrder(l) {
      assert l.arrived + (l.outstanding + more) == l.arrived + l.outstanding + more;
    }
  }

  /** Sending a message while an older one is still to be sent overtakes it. */
  lemma {:induction false} OvertakingBreaks(l: Ledger, m: Ledger, i: nat, bound: nat)
    requires Valid(l, bound) && Delivers(l, m, i) && i > 0
    ensures Broken(m)
  {
    var n := |l.arrived|;
    var all := m.arrived + m.outstanding;
    assert all[n] == l.outstanding[i];
    assert all[n + 1] == l.outstanding[0];
  }

  lemma {:induction false} BrokenWhenIssued(l: Ledger, m: Ledger, more: seq<Piece>, low: nat, high: nat)
    requires Broken(l) && Issues(l, m, more, low, high)
    ensures Broken(m)
  {
    var a, b := l.arrived + l.outstanding, m.arrived + m.outstanding;
    assert b == a + more;
    if Overtaken(l) {
      var i, j :| 0 <= i < |l.arrived| && i < j < |a| && a[i].number > a[j].number;
      assert b[i] == a[i] && b[j] == a[j];
    }
  }

  lemma {:induction false} BrokenWhenDelivered(l: Ledger, m: Ledger, k: nat)
    requires Broken(l) && Delivers(l, m, k)
    ensures Broken(m)
  {
    if Overtaken(l) {
      var a, b := l.arrived + l.outstanding, m.arrived + m.outstanding;
      var n := |l.arrived|;
      var i, j :| 0 <= i < n && i < j < |a| && a[i].number > a[j].number;
      assert b[i] == a[i];
      var moved := if j < n then j else if j - n < k then j + 1 else if j - n == k then n else j;
      assert b[moved] == a[j];
    }
  }

  lemma {:induction false} BrokenWhenLost(l: Ledger, m: Ledger, i: nat, j: nat)
    requires |l.arrived| + |l.outstanding| <= |l.issued| && Loses(l, m, i, j)
    ensures Broken(m)
  {
  }

  /** An await has taken `gone` off the list at `i`: delivered, or lost. */
  predicate Awaited(l: Ledger, m: Ledger, i: nat, gone: seq<Piece>, ok: bool) {
    if gone == [] then m == l
    else if ok then Delivers(l, m, i)
    else Loses(l, m, i, i + |gone|)
  }

  lemma {:induction false} Splice(a: seq<Piece>, x: seq<Piece>, y: seq<Piece>, c: seq<Piece>)
    ensures Without(a + (x + y) + c, |a|, |a| + |x|) == a + y + c
    ensures x != [] ==> (a + (x + y) + c)[|a|] == x[0]
  {
  }

  lemma {:induction false} AwaitOnLists(l: Ledger, m: Ledger, before: seq<Piece>, gone: seq<Piece>, rest: seq<Piece>,
                                        after: seq<Piece>, ok: bool)
    requires l.outstanding == before + (gone + rest) + after && m.outstanding == before + rest + after
    requires m.issued == l.issued && m.arrived == l.arrived + if ok then gone else []
    requires ok ==> |gone| <= 1
    ensures Awaited(l, m, |before|, gone, ok)
  {
    Splice(before, gone, rest, after);
    if gone == [] {
      assert gone + rest == rest;
    } else if ok {
      assert gone == [gone[0]];
    }
  }

  lemma {:induction false} AwaitKeepsValid(l: Ledger, m: Ledger, i: nat, gone: seq<Piece>, ok: bool, bound: nat)
    requires Valid(l, bound) && Awaited(l, m, i, gone, ok)
    ensures Valid(m, bound)
  {
    if gone != [] {
      if ok {
        DeliveryIsValid(l, m, i, bound);
      } else {
        LossIsValid(l, m, i, i + |gone|, bound);
      }
    }
  }

  lemma {:induction false} AwaitedLossBreaks(l: Ledger, m: Ledger, i: nat, gone: seq<Piece>)
    requires |l.arrived| + |l.outstanding| <= |l.issued|
    requires gone != [] && Awaited(l, m, i, gone, false)
    ensures Broken(m)
  {
    BrokenWhenLost(l, m, i, i + |gone|);
  }

  lemma {:induction false} AwaitKeepsBroken(l: Ledger, m: Ledger, i: nat, gone: seq<Piece>, ok: bool)
    requires |l.arrived| + |l.outstanding| <= |l.issued| && Broken(l) && Awaited(l, m, i, gone, ok)
    ensures Broken(m)
  {
    if gone != [] {
      if ok {
        BrokenWhenDelivered(l, m, i);
      } else {
        BrokenWhenLost(l, m, i, i + |gone|);
      }
    }
  }

  // ---------------------------------------------------------------- what a step does to the books

  lemma {:induction false} OutstandingAround(posts: seq<Post>, k: nat, q: Post, task: string)
    requires k < |posts|
    ensures Outstanding(posts[k := q], task)
            == Outstanding(posts[..k], task) + Mine(q.left, task) + Outstanding(posts[k + 1..], task)
  {
    assert posts[k := q] == posts[..k] + [q] + posts[k + 1..];
    CollectOfConcat(LeftFor(task), posts[..k] + [q], posts[k + 1..]);
    CollectMore(LeftFor(task), posts[..k], q);
  }

  /** How many of the task's messages older coroutines have yet to send. */
  function Ahead(w: World, k: nat, task: string): nat
    requires k <= |w.posts|
  {
    |Outstanding(w.posts[..k], task)|
  }

  /** An await of a coroutine fails with messages of the task at stake. */
  predicate Fails(w: World, e: Event, task: string) {
    e.PostStep? && e.k < |w.posts| && !e.ok && Mine(AtStake(w.posts[e.k]), task) != []
  }

  /** A message of the task is sent while an older coroutine still has some to send. */
  predicate Overtakes(w: World, e: Event, task: string) {
    && e.PostStep? && e.k < |w.posts| && e.ok && w.posts[e.k].located
    && Mine(AtStake(w.posts[e.k]), task) != [] && Ahead(w, e.k, task) > 0
  }

  predicate Harms(w: World, e: Event, task: string) {
    Fails(w, e, task) || Overtakes(w, e, task)
  }

  lemma {:induction false} MineOfHead(left: seq<Piece>, task: string)
    requires left != []
    ensures Mine(left, task) == Mine([left[0]], task) + Mine(left[1..], task)
    ensures Mine([left[0]], task) == if left[0].task == task then [left[0]] else []
  {
    assert left == [left[0]] + left[1..];
    CollectOfConcat(ForTask(task), [left[0]], left[1..]);
    CollectOne(ForTask(task), left[0]);
  }

  /** A coroutine's await touches only the head of what it has left, or all of it. */
  lemma {:induction false} ResumedLeft(q: Post, ok: bool, task: string)
    ensures Mine(q.left, task)
            == (if !q.located && ok then [] else Mine(AtStake(q), task)) + Mine(Resumed(q, ok).left, task)
    ensures q.located ==> |Mine(AtStake(q), task)| <= 1
  {
    if q.located && q.left != [] {
      MineOfHead(q.left, task);
    }
    assert Mine(q.left, task) + [] == Mine(q.left, task) && [] + Mine(q.left, task) == Mine(q.left, task);
  }

  lemma {:induction false} ResumeArrives(w: World, k: nat, ok: bool, task: string)
    requires k < |w.posts|
    ensures Mine(Resume(w, k, ok).thread, task)
            == Mine(w.thread, task) + if w.posts[k].located && ok then Mine(AtStake(w.posts[k]), task) else []
  {
    CollectOfConcat(ForTask(task), w.thread, AtStake(w.posts[k]));
    assert w.thread + [] == w.thread && Mine(w.thread, task) + [] == Mine(w.thread, task);
  }

  /** What a coroutine's await takes off its list, delivered or lost. */
  function Gone(q: Post, ok: bool, task: string): seq<Piece> {
    if !q.located && ok then [] else Mine(AtStake(q), task)
  }

  lemma {:induction false} ResumeOutstanding(w: World, k: nat, ok: bool, task: string, rest: seq<Piece>)
    requires k < |w.posts| && rest == Mine(Resumed(w.posts[k], ok).left, task)
    ensures var before, after := Outstanding(w.posts[..k], task), Outstanding(w.posts[k + 1..], task);
            && Outstanding(w.posts, task) == before + (Gone(w.posts[k], ok, task) + rest) + after
            && Outstanding(Resume(w, k, ok).posts, task) == before + rest + after
  {
    var q := w.posts[k];
    assert w.posts[k := q] == w.posts;
    OutstandingAround(w.posts, k, q, task);
    OutstandingAround(w.posts, k, Resumed(q, ok), task);
    ResumedLeft(q, ok, task);
  }

  lemma {:induction false} ResumeBooks(w: World, k: nat, ok: bool, task: string)
    requires k < |w.posts|
    ensures Awaited(Books(w, task), Books(Resume(w, k, ok), task), Ahead(w, k, task),
                    Gone(w.posts[k], ok, task), ok)
  {
    var q := w.posts[k];
    var rest := Mine(Resumed(q, ok).left, task);
    ResumeOutstanding(w, k, ok, task, rest);
    ResumedLeft(q, ok, task);
    ResumeArrives(w, k, ok, task);
    assert Gone(q, ok, task) == Mine(AtStake(q), task) || Gone(q, ok, task) == [];
    AwaitOnLists(Books(w, task), Books(Resume(w, k, ok), task), Outstanding(w.posts[..k], task),
                 Gone(q, ok, task), rest, Outstanding(w.posts[k + 1..], task), ok);
  }

  lemma {:induction false} PiecesAreMine(n: nat, owner: string, texts: seq<string>, task: string)
    ensures Mine(NumberedPieces(n, owner, texts), task) == if owner == task then NumberedPieces(n, owner, texts) else []
  {
    var pieces := NumberedPieces(n, owner, texts);
    if texts != [] {
      var front := texts[..|texts| - 1];
      PiecesAreMine(n, owner, front, task);
      assert pieces == NumberedPieces(n, owner, front) + [pieces[|pieces| - 1]];
      CollectMore(ForTask(task), NumberedPieces(n, owner, front), pieces[|pieces| - 1]);
    }
  }

  lemma {:induction false} NothingIssued(l: Ledger, n: nat)
    ensures Issues(l, l, [], n, n)
  {
    assert l.issued + [] == l.issued && l.outstanding + [] == l.outstanding;
  }

  lemma {:induction false} BatchBooks(w: World, owner: string, guild: string, texts: seq<string>, task: string)
    returns (more: seq<Piece>)
    ensures var pieces := NumberedPieces(|w.issued|, owner, texts);
            var v := w.(posts := w.posts + [Post(guild, false, pieces)], issued := w.issued + pieces);
            Issues(Books(w, task), Books(v, task), more, |w.issued|, |w.issued| + |texts|)
  {
    var pieces := NumberedPieces(|w.issued|, owner, texts);
    PiecesAreMine(|w.issued|, owner, texts, task);
    CollectOfConcat(ForTask(task), w.issued, pieces);
    CollectMore(LeftFor(task), w.posts, Post(guild, false, pieces));
    more := Mine(pieces, task);
  }

  lemma {:induction false} BegunBooks(w: World, x: B.Item, task: string) returns (more: seq<Piece>)
    ensures Issues(Books(w, task), Books(Begun(w, x), task), more, |w.issued|, |Begun(w, x).issued|)
  {
    match x
    case Closed(_) =>
      more := [];
      NothingIssued(Books(w, task), |w.issued|);
    case Batched(owner, guild, entries, start) =>
      more := BatchBooks(w, owner, guild, BatchTexts(entries, start), task);
  }

  lemma {:induction false} IssuesTwice(l: Ledger, m: Ledger, n: Ledger, a: seq<Piece>, b: seq<Piece>, low: nat,
                                       mid: nat, high: nat)
    requires Issues(l, m, a, low, mid) && Issues(m, n, b, mid, high)
    ensures Issues(l, n, a + b, low, high)
  {
    assert l.issued + a + b == l.issued + (a + b);
    assert l.outstanding + a + b == l.outstanding + (a + b);
  }

  lemma {:induction false} BegunAllBooks(w: World, items: seq<B.Item>, task: string) returns (more: seq<Piece>)
    ensures Issues(Books(w, task), Books(BegunAll(w, items), task), more, |w.issued|, |BegunAll(w, items).issued|)
  {
    if items == [] {
      more := [];
      NothingIssued(Books(w, task), |w.issued|);
    } else {
      var front, x := items[..|items| - 1], items[|items| - 1];
      var v := BegunAll(w, front);
      var a := BegunAllBooks(w, front, task);
      var b := BegunBooks(v, x, task);
      IssuesTwice(Books(w, task), Books(v, task), Books(Begun(v, x), task), a, b,
                  |w.issued|, |v.issued|, |Begun(v, x).issued|);
      more := a + b;
    }
  }

  lemma {:induction false} StreamBooks(w: World, e: Event, task: string) returns (more: seq<Piece>)
    requires e.Stream?
    ensures Issues(Books(w, task), Books(Step(w, e), task), more, |w.issued|, |Step(w, e).issued|)
  {
    var after := B.Step(w.hub, e.event);
    more := BegunAllBooks(w.(hub := after), Drains(w.hub, after), task);
    assert Books(w.(hub := after), task) == Books(w, task);
  }

  // ---------------------------------------------------------------- one step

  /** A step of one task's ledger, whichever it is. */
  ghost predicate Entered(l: Ledger, m: Ledger, low: nat, high: nat) {
    || (exists more :: Issues(l, m, more, low, high))
    || (low == high && exists i: nat, gone, ok :: Awaited(l, m, i, gone, ok))
  }

  lemma {:induction false} StepEnters(w: World, e: Event, task: string)
    ensures Entered(Books(w, task), Books(Step(w, e), task), |w.issued|, |Step(w, e).issued|)
  {
    if e.Stream? {
      var more := StreamBooks(w, e, task);
    } else if e.k < |w.posts| {
      ResumeBooks(w, e.k, e.ok, task);
    } else {
      assert Awaited(Books(w, task), Books(w, task), 0, [], true);
    }
  }

  lemma {:induction false} EntryKeepsValid(l: Ledger, m: Ledger, low: nat, high: nat)
    requires Valid(l, low) && Entered(l, m, low, high)
    ensures Valid(m, high)
    ensures Broken(l) ==> Broken(m)
  {
    if more :| Issues(l, m, more, low, high) {
      IssueIsValid(l, m, more, low, high);
      if Broken(l) {
        BrokenWhenIssued(l, m, more, low, high);
      }
    } else {
      var i: nat, gone, ok :| Awaited(l, m, i, gone, ok);
      AwaitKeepsValid(l, m, i, gone, ok, low);
      if Broken(l) {
        AwaitKeepsBroken(l, m, i, gone, ok);
      }
    }
  }

  lemma {:induction false} StepKeepsValid(w: World, e: Event, task: string)
    requires Valid(Books(w, task), |w.issued|)
    ensures Valid(Books(Step(w, e), task), |Step(w, e).issued|)
    ensures Broken(Books(w, task)) ==> Broken(Books(Step(w, e), task))
  {
    StepEnters(w, e, task);
    EntryKeepsValid(Books(w, task), Books(Step(w, e), task), |w.issued|, |Step(w, e).issued|);
  }

  lemma {:induction false} HarmlessKeepsOrder(w: World, e: Event, task: string)
    requires Valid(Books(w, task), |w.issued|) && InOrder(Books(w, task)) && !Harms(w, e, task)
    ensures InOrder(Books(Step(w, e), task))
  {
    var l, m := Books(w, task), Books(Step(w, e), task);
    if e.Stream? {
      var more := StreamBooks(w, e, task);
      IssueIsValid(l, m, more, |w.issued|, |Step(w, e).issued|);
    } else if e.k < |w.posts| {
      ResumeBooks(w, e.k, e.ok, task);
      if m != l {
        FirstDeliveryIsInOrder(l, m);
      }
    }
  }

  lemma {:induction false} FailureBreaks(w: World, e: Event, task: string, l: Ledger, m: Ledger)
    requires l == Books(w, task) && m == Books(Step(w, e), task)
    requires |l.arrived| + |l.outstanding| <= |l.issued| && Fails(w, e, task)
    ensures Broken(m)
  {
    var gone := Gone(w.posts[e.k], e.ok, task);
    ResumeBooks(w, e.k, e.ok, task);
    AwaitedLossBreaks(l, m, Ahead(w, e.k, task), gone);
  }

  lemma {:induction false} OvertakingHarms(w: World, e: Event, task: string)
    requires Valid(Books(w, task), |w.issued|) && Overtakes(w, e, task)
    ensures Broken(Books(Step(w, e), task))
  {
    ResumeBooks(w, e.k, e.ok, task);
    OvertakingBreaks(Books(w, task), Books(Step(w, e), task), Ahead(w, e.k, task), |w.issued|);
  }

  // ---------------------------------------------------------------- every run

  predicate Unharmed(events: seq<Event>, n: nat, task: string)
    requires n <= |events|
  {
    n == 0 || (Unharmed(events, n - 1, task) && !Harms(At(events, n - 1), events[n - 1], task))
  }

  /** An unharmed ledger is in order, and a harmed one is broken. */
  ghost predicate Sound(l: Ledger, bound: nat, unharmed: bool) {
    Valid(l, bound) && if unharmed then InOrder(l) else Broken(l)
  }

  lemma {:induction false} StepIsSound(w: World, e: Event, v: World, task: string, unharmed: bool)
    requires v == Step(w, e) && Sound(Books(w, task), |w.issued|, unharmed)
    ensures Sound(Books(v, task), |v.issued|, unharmed && !Harms(w, e, task))
  {
    StepKeepsValid(w, e, task);
    if Fails(w, e, task) {
      FailureBreaks(w, e, task, Books(w, task), Books(v, task));
    } else if Overtakes(w, e, task) {
      OvertakingHarms(w, e, task);
    } else if unharmed {
      HarmlessKeepsOrder(w, e, task);
    }
  }

  /** What holds at the start and is kept by every step, with the harm done so far, holds throughout. */
  lemma {:induction false} EveryRunKeeps(kept: (World, bool) -> bool, events: seq<Event>, n: nat, task: string)
    requires n <= |events|
    requires kept(At([], 0), true)
    requires forall w, e, u {:trigger kept(w, u), Step(w, e)} ::
               kept(w, u) ==> kept(Step(w, e), u && !Harms(w, e, task))
    ensures kept(At(events, n), Unharmed(events, n, task))
  {
    if n > 0 {
      EveryRunKeeps(kept, events, n - 1, task);
      var w, e := At(events, n - 1), events[n - 1];
      assert At(events, n) == Step(w, e);
    }
  }

  lemma {:induction false} BooksAreSound(events: seq<Event>, n: nat, task: string)
    requires n <= |events|
    ensures Sound(Books(At(events, n), task), |At(events, n).issued|, Unharmed(events, n, task))
  {
    var kept := (w: World, u: bool) => Sound(Books(w, task), |w.issued|, u);
    forall w, e, u | kept(w, u) ensures kept(Step(w, e), u && !Harms(w, e, task)) {
      StepIsSound(w, e, Step(w, e), task, u);
    }
    EveryRunKeeps(kept, events, n, task);
  }

  /**
   Over any run, the messages of a task that have arrived, followed by those still
   to be sent, are all the messages cut from its batches, in the order of
   draining, if and only if no post of it failed and none was sent while an older
   coroutine of the task still had messages to send.
   */
  lemma {:induction false} OrderIffUnharmed(events: seq<Event>, n: nat, task: string)
    requires n <= |events|
    ensures InOrder(Books(At(events, n), task)) <==> Unharmed(events, n, task)
  {
    BooksAreSound(events, n, task);
    if InOrder(Books(At(events, n), task)) {
      OrderIsNotBroken(Books(At(events, n), task), |At(events, n).issued|);
    }
  }
}
