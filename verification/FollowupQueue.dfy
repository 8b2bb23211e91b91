/**
 Follow-ups queued behind a busy task: over any interleaving of the task steps,
 each one leaves the queue once, in the order in which it was queued.
 */
module FollowupQueue {
  import opened Options
  import opened LockService
  import opened TaskLifecycle
  import opened TaskMachine

  /** The step ends the task, which empties its queue. */
  predicate Ends(st: State, e: Event, id: string) {
    match e
    case Update(guild, taskId, report, _, _) =>
      taskId == id && id != "" && report.Some? && Terminal(report.value) && CanFinalize(st.db, guild, id)
    case FinalizeCall(guild, taskId, _, _) => taskId == id && CanFinalize(st.db, guild, id)
    case _ => false
  }

  /** The step hands the task's queue to the Foreman. */
  predicate HandsOver(e: Event, id: string) {
    e.HandOver? && e.taskId == id && id != ""
  }

  /** What leaves the queue of task `id` at a step. */
  function Leaving(st: State, e: Event, id: string): seq<string> {
    if Ends(st, e, id) || HandsOver(e, id) then Queued(st.db.events, id) else []
  }

  /** What joins it: the instructions of a follow-up that was not granted the lock. */
  function Joining(e: Event, id: string): seq<string> {
    if e.QueueFollowup? && e.taskId == id then [e.payload] else []
  }

  function Left(st: State, events: seq<Event>, id: string, n: nat): seq<string>
    requires n <= |events|
  {
    if n == 0 then [] else Left(st, events, id, n - 1) + Leaving(At(st, events, n - 1), events[n - 1], id)
  }

  function Joined(events: seq<Event>, id: string, n: nat): seq<string>
    requires n <= |events|
  {
    if n == 0 then [] else Joined(events, id, n - 1) + Joining(events[n - 1], id)
  }

  // ---------------------------------------------------------------- the queue under each edit

  lemma {:induction false} QueuedSnoc(events: seq<TaskEvent>, e: TaskEvent, id: string)
    ensures Queued(events + [e], id) == Queued(events, id) + if WaitsFor(e, id) then [e.payload] else []
  {
    if events == [] {
      assert [] + [e] == [e] && [e][1..] == [];
    } else {
      assert (events + [e])[1..] == events[1..] + [e];
      QueuedSnoc(events[1..], e, id);
    }
  }

  lemma {:induction false} EndedQueue(events: seq<TaskEvent>, ended: string, id: string)
    ensures Queued(WithoutEvents(events, ended), id) == if ended == id then [] else Queued(events, id)
  {
    if events != [] {
      EndedQueue(events[1..], ended, id);
    }
  }

  lemma {:induction false} HandedQueue(events: seq<TaskEvent>, handed: string, id: string)
    ensures Queued(WithoutQueued(events, handed), id) == if handed == id then [] else Queued(events, id)
  {
    if events != [] {
      HandedQueue(events[1..], handed, id);
    }
  }

  lemma {:induction false} FinalizeEvents(db: Db, guild: int, taskId: string, outcome: TaskState, now: int, id: string)
    ensures Queued(Finalize(db, guild, taskId, outcome, now).events, id)
            == if taskId == id && CanFinalize(db, guild, taskId) then [] else Queued(db.events, id)
  {
    EndedQueue(db.events, taskId, id);
  }

  lemma {:induction false} UpdateEvents(st: State, e: Event, id: string)
    requires e.Update?
    ensures Leaving(st, e, id) + Queued(Step(st, e).db.events, id) == Queued(st.db.events, id)
  {
    if e.taskId != "" && e.report.Some? && Terminal(e.report.value) {
      var written := WithColumns(st.db, e.taskId, e.columns);
      FinalizeEvents(written, e.guild, e.taskId, e.report.value, e.now, id);
      assert CanFinalize(written, e.guild, e.taskId) <==> CanFinalize(st.db, e.guild, e.taskId);
    }
  }

  /** One step: what leaves and what stays is what was there and what joins, in order. */
  lemma {:induction false} StepQueue(st: State, e: Event, id: string)
    ensures Leaving(st, e, id) + Queued(Step(st, e).db.events, id) == Queued(st.db.events, id) + Joining(e, id)
  {
    match e
    case Update(_, _, _, _, _) => UpdateEvents(st, e, id);
    case QueueFollowup(taskId, payload) =>
      QueuedSnoc(st.db.events, TaskEvent(taskId, "pending-followup", payload), id);
    case FinalizeCall(guild, taskId, outcome, now) => FinalizeEvents(st.db, guild, taskId, outcome, now, id);
    case HandOver(taskId) => HandedQueue(st.db.events, taskId, id);
    case _ =>
  }

  lemma {:induction false} Shift<T>(a: seq<T>, b: seq<T>, c: seq<T>, d: seq<T>, q: seq<T>, j: seq<T>, y: seq<T>)
    requires a + c == q + j && b + d == c + y
    ensures (a + b) + d == q + (j + y)
  {
    calc {
      (a + b) + d;
      a + (b + d);
      a + (c + y);
      (a + c) + y;
      (q + j) + y;
    }
  }

  lemma {:induction false} NextIsConserved(w: State, e: Event, left: seq<string>, start: seq<string>,
                                           joined: seq<string>, id: string)
    requires left + Queued(w.db.events, id) == start + joined
    ensures left + Leaving(w, e, id) + Queued(Step(w, e).db.events, id) == start + (joined + Joining(e, id))
  {
    StepQueue(w, e, id);
    Shift(left, Leaving(w, e, id), Queued(w.db.events, id), Queued(Step(w, e).db.events, id),
          start, joined, Joining(e, id));
  }

  /**
   Conservation: over any run, the follow-ups that have left a task's queue, by
   being handed to the Foreman or because the task ended, followed by those still
   in it, are those there at the start followed by those queued since: each once,
   in order.
   */
  lemma {:induction false} FollowupsAreConserved(st: State, events: seq<Event>, id: string, n: nat)
    requires n <= |events|
    ensures Left(st, events, id, n) + Queued(At(st, events, n).db.events, id)
            == Queued(st.db.events, id) + Joined(events, id, n)
  {
    if n == 0 {
      assert [] + Queued(st.db.events, id) == Queued(st.db.events, id) + [];
    } else {
      FollowupsAreConserved(st, events, id, n - 1);
      NextIsConserved(At(st, events, n - 1), events[n - 1], Left(st, events, id, n - 1),
                      Queued(st.db.events, id), Joined(events, id, n - 1), id);
    }
  }

  // ---------------------------------------------------------------- which follow-ups wait

  /** A follow-up in the queue, and the step that put it there. */
  datatype Waiting = Waiting(step: nat, payload: string)

  /** The step empties the task's queue. */
  predicate Empties(st: State, e: Event, id: string) {
    Ends(st, e, id) || HandsOver(e, id)
  }

  /** Whether step `i` of a run does. */
  function Emptying(st: State, events: seq<Event>, id: string): nat -> bool {
    (i: nat) => i < |events| && Empties(At(st, events, i), events[i], id)
  }

  /** The follow-ups queued by steps before `n`, and not emptied out since. */
  function Pending(events: seq<Event>, empties: nat -> bool, id: string, n: nat): seq<Waiting>
    requires n <= |events|
  {
    if n == 0 then []
    else NextPending(Pending(events, empties, id, n - 1), empties(n - 1), events[n - 1], id, n - 1)
  }

  function NextPending(pending: seq<Waiting>, emptied: bool, e: Event, id: string, step: nat): seq<Waiting> {
    (if emptied then [] else pending)
    + if e.QueueFollowup? && e.taskId == id then [Waiting(step, e.payload)] else []
  }

  /** What the run found in the queue, until it is emptied. */
  function Found(start: seq<string>, empties: nat -> bool, n: nat): seq<string> {
    if n == 0 then start else if empties(n - 1) then [] else Found(start, empties, n - 1)
  }

  function Payloads(pending: seq<Waiting>): seq<string> {
    if pending == [] then [] else Payloads(pending[..|pending| - 1]) + [pending[|pending| - 1].payload]
  }

  lemma {:induction false} PayloadsJoin(pending: seq<Waiting>, w: Waiting)
    ensures Payloads(pending + [w]) == Payloads(pending) + [w.payload]
  {
    assert (pending + [w])[..|pending|] == pending;
  }

  /** One step, once more: the queue is emptied or not, and then joined. */
  lemma {:induction false} StepEmptiesOrKeeps(w: State, e: Event, id: string)
    ensures Queued(Step(w, e).db.events, id)
            == (if Empties(w, e, id) then [] else Queued(w.db.events, id)) + Joining(e, id)
  {
    var before, after := Queued(w.db.events, id), Queued(Step(w, e).db.events, id);
    StepQueue(w, e, id);
    assert [] + after == after;
    if Empties(w, e, id) {
      SameLength(before, after);
    }
  }

  lemma {:induction false} SameLength(before: seq<string>, after: seq<string>)
    requires before + after == before + []
    ensures after == [] + []
  {
    assert |before + after| == |before|;
  }

  lemma {:induction false} NextWaiting(before: seq<string>, after: seq<string>, found: seq<string>,
                                       pending: seq<Waiting>, emptied: bool, e: Event, id: string, step: nat)
    requires before == found + Payloads(pending) && after == (if emptied then [] else before) + Joining(e, id)
    ensures after
            == (if emptied then [] else found) + Payloads(NextPending(pending, emptied, e, id, step))
  {
    var kept := if emptied then [] else pending;
    var left := if emptied then [] else found;
    assert kept + [] == kept && left + Payloads(kept) + [] == left + Payloads(kept);
    if e.QueueFollowup? && e.taskId == id {
      PayloadsJoin(kept, Waiting(step, e.payload));
      assert left + Payloads(kept) + [e.payload] == left + (Payloads(kept) + [e.payload]);
    }
  }

  /** Step `i` turns one queue into the next. */
  predicate Follows(e: Event, queue: nat -> seq<string>, empties: nat -> bool, id: string, i: nat) {
    queue(i + 1) == (if empties(i) then [] else queue(i)) + Joining(e, id)
  }

  lemma {:induction false} QueueFollows(events: seq<Event>, queue: nat -> seq<string>, empties: nat -> bool, id: string,
                                        n: nat)
    requires n <= |events|
    requires forall i: nat {:trigger Follows(events[i], queue, empties, id, i)} ::
               i < |events| ==> Follows(events[i], queue, empties, id, i)
    ensures queue(n) == Found(queue(0), empties, n) + Payloads(Pending(events, empties, id, n))
  {
    if n == 0 {
      assert queue(0) + [] == queue(0);
    } else {
      var e, found, pending := events[n - 1], Found(queue(0), empties, n - 1), Pending(events, empties, id, n - 1);
      QueueFollows(events, queue, empties, id, n - 1);
      assert Follows(e, queue, empties, id, n - 1);
      NextWaiting(queue(n - 1), queue(n), found, pending, empties(n - 1), e, id, n - 1);
    }
  }

  /** The task's queue before each step of a run. */
  function QueueBefore(st: State, events: seq<Event>, id: string): nat -> seq<string> {
    (i: nat) => if i <= |events| then Queued(At(st, events, i).db.events, id) else []
  }

  /**
   Over any run the queue of a task holds what was in it at the start, if no step
   has emptied it, followed by what was queued since it was last emptied, in order.
   */
  lemma {:induction false} QueueIsPending(st: State, events: seq<Event>, id: string, n: nat)
    requires n <= |events|
    ensures var empties := Emptying(st, events, id);
            Queued(At(st, events, n).db.events, id)
            == Found(Queued(st.db.events, id), empties, n) + Payloads(Pending(events, empties, id, n))
  {
    var queue, empties := QueueBefore(st, events, id), Emptying(st, events, id);
    forall i: nat | i < |events| ensures Follows(events[i], queue, empties, id, i) {
      StepEmptiesOrKeeps(At(st, events, i), events[i], id);
    }
    QueueFollows(events, queue, empties, id, n);
  }

  /** Some step after `j` and before `n` empties the queue. */
  predicate Between(empties: nat -> bool, j: int, n: nat)
    requires -1 <= j
  {
    exists i: nat :: j < i < n && empties(i)
  }

  predicate QueuesAt(events: seq<Event>, id: string, j: nat, payload: string) {
    j < |events| && events[j] == QueueFollowup(id, payload)
  }

  lemma {:induction false} PendingNext(pending: seq<Waiting>, emptied: bool, e: Event, id: string, step: nat,
                                       w: Waiting)
    ensures w in NextPending(pending, emptied, e, id, step)
            <==> (!emptied && w in pending) || (w.step == step && e == QueueFollowup(id, w.payload))
  {
  }

  lemma {:induction false} BetweenNext(empties: nat -> bool, j: nat, n: nat)
    requires n > 0
    ensures Between(empties, j, n) <==> Between(empties, j, n - 1) || (j < n - 1 && empties(n - 1))
  {
  }

  lemma {:induction false} NothingLater(empties: nat -> bool, j: nat)
    ensures !Between(empties, j, j + 1)
  {
  }

  /** A follow-up waits if and only if it has been queued and no step since has emptied the queue. */
  lemma {:induction false} WaitsUntilEmptied(events: seq<Event>, empties: nat -> bool, id: string, n: nat, w: Waiting)
    requires n <= |events|
    ensures w in Pending(events, empties, id, n)
            <==> w.step < n && QueuesAt(events, id, w.step, w.payload) && !Between(empties, w.step, n)
  {
    if n > 0 {
      WaitsUntilEmptied(events, empties, id, n - 1, w);
      PendingNext(Pending(events, empties, id, n - 1), empties(n - 1), events[n - 1], id, n - 1, w);
      BetweenNext(empties, w.step, n);
      NothingLater(empties, w.step);
    }
  }

  /** The queue is not empty if and only if something found at the start, or queued since, has not been emptied out. */
  lemma {:induction false} QueueIsNotEmpty(st: State, events: seq<Event>, id: string, n: nat)
    requires n <= |events|
    ensures var empties := Emptying(st, events, id);
            Queued(At(st, events, n).db.events, id) != []
            <==> (Queued(st.db.events, id) != [] && !Between(empties, -1, n))
                 || exists w: Waiting {:trigger QueuesAt(events, id, w.step, w.payload)} ::
                      w.step < n && QueuesAt(events, id, w.step, w.payload) && !Between(empties, w.step, n)
  {
    var empties := Emptying(st, events, id);
    QueueIsPending(st, events, id, n);
    FoundUntilEmptied(Queued(st.db.events, id), empties, n);
    var pending := Pending(events, empties, id, n);
    forall w: Waiting
      ensures w in pending
              <==> w.step < n && QueuesAt(events, id, w.step, w.payload) && !Between(empties, w.step, n)
    {
      WaitsUntilEmptied(events, empties, id, n, w);
    }
    if pending != [] {
      assert pending[0] in pending;
    }
  }

  lemma {:induction false} FoundUntilEmptied(start: seq<string>, empties: nat -> bool, n: nat)
    ensures Found(start, empties, n) == if Between(empties, -1, n) then [] else start
  {
    if n > 0 {
      FoundUntilEmptied(start, empties, n - 1);
    }
  }

  // ---------------------------------------------------------------- what becomes of a follow-up

  /** The Foreman is told what is queued: by a hand-over, or by the report of an error. */
  predicate Tells(e: Event, id: string) {
    HandsOver(e, id) || (e.Update? && e.taskId == id && id != "" && e.report == Some(Error))
  }

  function Ending(st: State, events: seq<Event>, id: string): nat -> bool {
    (i: nat) => i < |events| && Ends(At(st, events, i), events[i], id)
  }

  function HandingOver(events: seq<Event>, id: string): nat -> bool {
    (i: nat) => i < |events| && HandsOver(events[i], id)
  }

  lemma {:induction false} BetweenSplits(both: nat -> bool, one: nat -> bool, other: nat -> bool, j: nat, n: nat)
    requires forall i: nat :: both(i) <==> one(i) || other(i)
    ensures Between(both, j, n) <==> Between(one, j, n) || Between(other, j, n)
  {
  }

  /**
   Step `h` tells the Foreman what was found and what is pending, and a follow-up
   queued at step `j` is among it if and only if `j` came before `h` and the queue
   was not emptied in between. So if the next hand-over after the follow-up was
   refused is at `h`, it is handed over there if and only if it was queued before
   and the task did not end in between.
   */
  lemma {:induction false} FollowupIsTold(st: State, events: seq<Event>, id: string, j: nat, payload: string, h: nat)
    requires h < |events| && Tells(events[h], id) && QueuesAt(events, id, j, payload)
    ensures var empties := Emptying(st, events, id);
            var pending := Pending(events, empties, id, h);
            && Queued(At(st, events, h).db.events, id)
               == Found(Queued(st.db.events, id), empties, h) + Payloads(pending)
            && (Waiting(j, payload) in pending <==> j < h && !Between(empties, j, h))
            && (!Between(HandingOver(events, id), j, h)
                ==> (Waiting(j, payload) in pending <==> j < h && !Between(Ending(st, events, id), j, h)))
  {
    var empties := Emptying(st, events, id);
    QueueIsPending(st, events, id, h);
    WaitsUntilEmptied(events, empties, id, h, Waiting(j, payload));
    BetweenSplits(empties, Ending(st, events, id), HandingOver(events, id), j, h);
  }

  lemma {:induction false} FirstBetween(empties: nat -> bool, j: nat, n: nat) returns (i: nat)
    requires j < n
    ensures j < i <= n && !Between(empties, j, i) && (i < n ==> empties(i))
  {
    i := j + 1;
    while i < n && !empties(i)
      invariant j < i <= n && !Between(empties, j, i)
    {
      i := i + 1;
    }
  }

  /**
   Every follow-up queued at step `j` waits until one step `i` empties the queue,
   and never after it; it is still waiting at `n` if there is no such step.
   */
  lemma {:induction false} FollowupLeavesOnce(st: State, events: seq<Event>, id: string, j: nat, payload: string,
                                              n: nat)
    returns (i: nat)
    requires j < n <= |events| && QueuesAt(events, id, j, payload)
    ensures j < i <= n && (i < n ==> Emptying(st, events, id)(i))
    ensures forall k {:trigger Pending(events, Emptying(st, events, id), id, k)} :: j < k <= n ==>
              (Waiting(j, payload) in Pending(events, Emptying(st, events, id), id, k) <==> k <= i)
  {
    var empties := Emptying(st, events, id);
    i := FirstBetween(empties, j, n);
    forall k | j < k <= n ensures Waiting(j, payload) in Pending(events, empties, id, k) <==> k <= i {
      WaitsUntilEmptied(events, empties, id, k, Waiting(j, payload));
    }
  }

  /**
   A follow-up refused because the task was locked queues its instructions in a
   second transaction. If the current follow-up ends in between, its queue has
   been handed over already: the instructions wait though nobody holds the lock.
   */
  lemma {:induction false} LateFollowupWaits(st: State, id: string, owner: string, payload: string, now: int)
    requires id != "" && !Acquirable(st.db.locks, LockKey(id), now)
    ensures var events := [Claim(id, owner, now), FollowupDone(id, None, ""), HandOver(id), QueueFollowup(id, payload)];
            && At(st, events, 1) == st
            && Queued(At(st, events, 4).db.events, id) == [payload]
            && LockKey(id) !in At(st, events, 4).db.locks
  {
    var events := [Claim(id, owner, now), FollowupDone(id, None, ""), HandOver(id), QueueFollowup(id, payload)];
    assert At(st, events, 0) == st;
    var refused := At(st, events, 1);
    assert refused == Step(st, events[0]);
    var done := At(st, events, 2);
    assert done == Step(refused, events[1]);
    var handed := At(st, events, 3);
    assert handed == Step(done, events[2]);
    HandedQueue(done.db.events, id, id);
    QueuedSnoc(handed.db.events, TaskEvent(id, "pending-followup", payload), id);
  }
}
