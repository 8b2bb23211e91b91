/**
 Task lifecycle transitions (backend/task_lifecycle.py): the one way to end a
 task, and what trails it.
 */
module TaskLifecycle {
  import opened Options
  import opened LockService

  datatype TaskState =
    | Pending | Working | AwaitingReview | AwaitingForemanReview
    | Done | Failed | Cancelled | Error
    | OtherState(name: string)

  predicate Terminal(state: TaskState) {
    state.Done? || state.Failed? || state.Cancelled? || state.Error?
  }

  datatype Phase = IssuePhase | OtherPhase(name: string)

  datatype Task = Task(
    guild: int,
    workerId: Option<string>,
    state: TaskState,
    phase: Phase,
    parent: Option<string>,
    issueRepo: Option<string>,
    issueNumber: Option<int>,
    issueClosed: bool,
    branch: Option<string>,
    worktree: Option<string>,
    prUrl: Option<string>,
    deletedAt: Option<int>)

  type Tasks = map<string, Task>

  const MAX_DESCENDANT_CHAIN_DEPTH := 20

  // ---------------------------------------------------------------- descendants

  /** The tasks whose chain of parent links reaches the root in depth + 1 steps. */
  function AtDepth(tasks: Tasks, root: string, depth: nat): set<string> {
    if depth == 0 then set id | id in tasks && tasks[id].parent == Some(root)
    else
      var above := AtDepth(tasks, root, depth - 1);
      set id | id in tasks && tasks[id].parent.Some? && tasks[id].parent.value in above
  }

  /** The recursive query's rows at depths below `bound`. */
  function Chain(tasks: Tasks, root: string, bound: nat): set<string> {
    if bound == 0 then {} else Chain(tasks, root, bound - 1) + AtDepth(tasks, root, bound - 1)
  }

  /** find_descendant_tasks */
  function Descendants(tasks: Tasks, root: string): set<string> {
    Chain(tasks, root, MAX_DESCENDANT_CHAIN_DEPTH)
  }

  /** Walking up: the task reached after `k` parent links. */
  function Ancestor(tasks: Tasks, id: string, k: nat): Option<string>
    decreases k
  {
    if k == 0 then Some(id)
    else if id in tasks && tasks[id].parent.Some? then Ancestor(tasks, tasks[id].parent.value, k - 1)
    else None
  }

  lemma {:induction false} AtDepthIsAncestor(tasks: Tasks, root: string, depth: nat, id: string)
    ensures id in AtDepth(tasks, root, depth) <==> Ancestor(tasks, id, depth + 1) == Some(root)
  {
    if depth == 0 {
      if id in tasks && tasks[id].parent.Some? {
        assert Ancestor(tasks, tasks[id].parent.value, 0) == tasks[id].parent;
      }
    } else if id in tasks && tasks[id].parent.Some? {
      AtDepthIsAncestor(tasks, root, depth - 1, tasks[id].parent.value);
    }
  }

  /** Some chain of at most `bound` parent links leads up to the root. */
  ghost predicate IsWithin(tasks: Tasks, root: string, id: string, bound: nat) {
    exists k :: 1 <= k <= bound && Ancestor(tasks, id, k) == Some(root)
  }

  /** Some chain of parent links, however long, leads up to the root. */
  ghost predicate IsDescendant(tasks: Tasks, root: string, id: string) {
    exists k :: 1 <= k && Ancestor(tasks, id, k) == Some(root)
  }

  lemma {:induction false} ChainIsAncestor(tasks: Tasks, root: string, bound: nat, id: string)
    ensures id in Chain(tasks, root, bound) <==> IsWithin(tasks, root, id, bound)
  {
    if bound > 0 {
      ChainIsAncestor(tasks, root, bound - 1, id);
      AtDepthIsAncestor(tasks, root, bound - 1, id);
    }
  }

  /**
   The downward query returns exactly the tasks from which the root is 1 to 20
   parent links up, on cyclic data too.
   */
  lemma {:induction false} DescendantsAreAncestry(tasks: Tasks, root: string, id: string)
    ensures id in Descendants(tasks, root) <==> IsWithin(tasks, root, id, MAX_DESCENDANT_CHAIN_DEPTH)
  {
    ChainIsAncestor(tasks, root, MAX_DESCENDANT_CHAIN_DEPTH, id);
  }

  lemma {:induction false} AncestorCompose(tasks: Tasks, id: string, a: nat, b: nat)
    requires Ancestor(tasks, id, a).Some?
    ensures Ancestor(tasks, id, a + b) == Ancestor(tasks, Ancestor(tasks, id, a).value, b)
    decreases a
  {
    if a > 0 {
      AncestorCompose(tasks, tasks[id].parent.value, a - 1, b);
    }
  }

  /** The ids passed on the way up, the start included and the end not. */
  function PathIds(tasks: Tasks, id: string, k: nat): set<string>
    requires Ancestor(tasks, id, k).Some?
    ensures PathIds(tasks, id, k) <= tasks.Keys
    decreases k
  {
    if k == 0 then {} else {id} + PathIds(tasks, tasks[id].parent.value, k - 1)
  }

  lemma {:induction false} OnPath(tasks: Tasks, id: string, k: nat, x: string) returns (j: nat)
    requires Ancestor(tasks, id, k).Some? && x in PathIds(tasks, id, k)
    ensures j < k && Ancestor(tasks, id, j) == Some(x)
    decreases k
  {
    if x == id {
      j := 0;
    } else {
      var i := OnPath(tasks, tasks[id].parent.value, k - 1, x);
      j := i + 1;
    }
  }

  lemma {:induction false} LoopIsShortcut(tasks: Tasks, id: string, root: string, k: nat)
    requires k > 1 && Ancestor(tasks, id, k) == Some(root)
    requires id in PathIds(tasks, tasks[id].parent.value, k - 1)
    ensures exists j :: 1 <= j < k && Ancestor(tasks, id, j) == Some(root)
  {
    var up := tasks[id].parent.value;
    var j := OnPath(tasks, up, k - 1, id);
    AncestorCompose(tasks, up, j, k - 1 - j);
    assert Ancestor(tasks, id, k - 1 - j) == Some(root);
  }

  /** A shortest way up never passes a task twice. */
  lemma {:induction false} ShortestPathIsSimple(tasks: Tasks, id: string, root: string, k: nat)
    requires Ancestor(tasks, id, k) == Some(root)
    requires forall j :: 1 <= j < k ==> Ancestor(tasks, id, j) != Some(root)
    requires k > 0
    ensures |PathIds(tasks, id, k)| == k
    decreases k
  {
    var up := tasks[id].parent.value;
    if k > 1 {
      forall j | 1 <= j < k - 1 ensures Ancestor(tasks, up, j) != Some(root) {
        assert Ancestor(tasks, id, j + 1) == Ancestor(tasks, up, j);
      }
      ShortestPathIsSimple(tasks, up, root, k - 1);
      if id in PathIds(tasks, up, k - 1) {
        LoopIsShortcut(tasks, id, root, k);
        assert false;
      }
    } else {
      assert PathIds(tasks, up, 0) == {};
    }
  }

  lemma {:induction false} SubsetSize(a: set<string>, b: set<string>)
    requires a <= b
    ensures |a| <= |b|
  {
    if a != {} {
      var x :| x in a;
      SubsetSize(a - {x}, b - {x});
    }
  }

  ghost function AllDescendants(tasks: Tasks, root: string): set<string> {
    set id | id in tasks && IsDescendant(tasks, root, id)
  }

  /** The query returns every descendant if and only if each has a chain of at most 20 links to the root. */
  lemma {:induction false} FullClosure(tasks: Tasks, root: string)
    ensures Descendants(tasks, root) == AllDescendants(tasks, root)
            <==> forall id :: IsDescendant(tasks, root, id) ==> IsWithin(tasks, root, id, MAX_DESCENDANT_CHAIN_DEPTH)
  {
    forall id
      ensures id in Descendants(tasks, root) <==> IsWithin(tasks, root, id, MAX_DESCENDANT_CHAIN_DEPTH)
      ensures id in AllDescendants(tasks, root) <==> IsDescendant(tasks, root, id)
    {
      DescendantsAreAncestry(tasks, root, id);
    }
  }

  lemma {:induction false} PathIsBelowRoot(tasks: Tasks, id: string, root: string, k: nat)
    requires Ancestor(tasks, id, k) == Some(root)
    ensures PathIds(tasks, id, k) <= AllDescendants(tasks, root)
    decreases k
  {
    if k > 0 {
      PathIsBelowRoot(tasks, tasks[id].parent.value, root, k - 1);
      assert IsDescendant(tasks, root, id);
    }
  }

  /** A shortest chain passes only descendants of the root, each once. */
  lemma {:induction false} ShortestPath(tasks: Tasks, id: string, root: string, k: nat) returns (j: nat)
    requires k > 0 && Ancestor(tasks, id, k) == Some(root)
    ensures 1 <= j <= |AllDescendants(tasks, root)| && Ancestor(tasks, id, j) == Some(root)
    decreases k
  {
    if exists i :: 1 <= i < k && Ancestor(tasks, id, i) == Some(root) {
      var i :| 1 <= i < k && Ancestor(tasks, id, i) == Some(root);
      j := ShortestPath(tasks, id, root, i);
    } else {
      ShortestPathIsSimple(tasks, id, root, k);
      PathIsBelowRoot(tasks, id, root, k);
      SubsetSize(PathIds(tasks, id, k), AllDescendants(tasks, root));
      j := k;
    }
  }

  /** So a root with at most 20 descendants has them all found, whatever else the table holds. */
  lemma {:induction false} FewDescendantsAreFound(tasks: Tasks, root: string)
    requires |AllDescendants(tasks, root)| <= MAX_DESCENDANT_CHAIN_DEPTH
    ensures Descendants(tasks, root) == AllDescendants(tasks, root)
  {
    forall id | IsDescendant(tasks, root, id) ensures IsWithin(tasks, root, id, MAX_DESCENDANT_CHAIN_DEPTH) {
      var k :| 1 <= k && Ancestor(tasks, id, k) == Some(root);
      var j := ShortestPath(tasks, id, root, k);
    }
    FullClosure(tasks, root);
  }

  /** A chain of 21 tasks, each the parent of the next: the last one is not found. */
  lemma {:induction false} DeepTaskIsMissed(tasks: Tasks, chain: seq<string>, root: string)
    requires |chain| == MAX_DESCENDANT_CHAIN_DEPTH + 1
    requires forall i {:trigger chain[i]} :: 0 <= i < |chain| ==> chain[i] in tasks
    requires tasks[chain[0]].parent == Some(root)
    requires forall i {:trigger tasks[chain[i]]} :: 0 < i < |chain| ==> tasks[chain[i]].parent == Some(chain[i - 1])
    requires root !in chain
    ensures var last := chain[|chain| - 1];
            last in AllDescendants(tasks, root) && last !in Descendants(tasks, root)
  {
    var last := chain[|chain| - 1];
    forall k | 1 <= k <= |chain| ensures Ancestor(tasks, last, k) == Some(root) <==> k == |chain| {
      ChainAncestor(tasks, chain, root, |chain| - 1, k);
    }
    assert Ancestor(tasks, last, |chain|) == Some(root);
    assert last in tasks;
    DescendantsAreAncestry(tasks, root, last);
  }

  lemma {:induction false} ChainAncestor(tasks: Tasks, chain: seq<string>, root: string, i: nat, k: nat)
    requires i < |chain| && k <= i + 1
    requires forall i {:trigger chain[i]} :: 0 <= i < |chain| ==> chain[i] in tasks
    requires tasks[chain[0]].parent == Some(root)
    requires forall i {:trigger tasks[chain[i]]} :: 0 < i < |chain| ==> tasks[chain[i]].parent == Some(chain[i - 1])
    ensures Ancestor(tasks, chain[i], k) == Some(if k == i + 1 then root else chain[i - k])
    decreases i
  {
    if k > 0 {
      assert chain[i] in tasks;
      if i > 0 {
        assert tasks[chain[i]].parent == Some(chain[i - 1]);
        ChainAncestor(tasks, chain, root, i - 1, k - 1);
      }
    }
  }

  // ---------------------------------------------------------------- finalize_task

  datatype TaskEvent = TaskEvent(taskId: string, kind: string, payload: string)

  /** The rows a finalize can touch, and the broadcasts it makes. */
  datatype Db = Db(tasks: Tasks, locks: Table, events: seq<TaskEvent>, broadcasts: seq<Broadcast>)

  datatype Broadcast = Finalized(taskId: string) | Updated(taskId: string, state: TaskState, deletedAt: Option<int>)

  datatype Status = StatusFinalized | AlreadyTerminal | NotFound

  function LockKey(taskId: string): string {
    "task:" + taskId
  }

  /** finalize_soft_delete_at: a finished sub-task of an open issue stays live. */
  function SoftDeleteAt(outcome: TaskState, task: Task, now: int): Option<int> {
    if outcome.Done? && !task.phase.IssuePhase? && task.issueNumber.Some? && !task.issueClosed then None
    else Some(now)
  }

  /** A finished task gets its soft-delete stamp, once. */
  predicate Sweepable(task: Task) {
    Terminal(task.state) && task.deletedAt.None?
  }

  /** cascade_soft_delete_terminal_descendants */
  function Swept(tasks: Tasks, ids: set<string>, now: int): Tasks {
    map id | id in tasks ::
      if id in ids && Sweepable(tasks[id]) then tasks[id].(deletedAt := Some(now)) else tasks[id]
  }

  function WithoutEvents(events: seq<TaskEvent>, taskId: string): seq<TaskEvent> {
    if events == [] then []
    else if events[0].taskId == taskId then WithoutEvents(events[1..], taskId)
    else [events[0]] + WithoutEvents(events[1..], taskId)
  }

  /** The row a finalize reads, when the guild owns such a task. */
  function Read(db: Db, guild: int, taskId: string): Option<Task> {
    if taskId in db.tasks && db.tasks[taskId].guild == guild then Some(db.tasks[taskId]) else None
  }

  /** The guard of the conditional update. */
  predicate CanFinalize(db: Db, guild: int, taskId: string) {
    taskId in db.tasks && db.tasks[taskId].guild == guild && !Terminal(db.tasks[taskId].state)
  }

  /** The update and what is committed with it; `view` is the row as it was read. */
  function Write(db: Db, taskId: string, outcome: TaskState, view: Task, now: int): Db
    requires taskId in db.tasks
  {
    var deletedAt := SoftDeleteAt(outcome, view, now);
    var tasks := db.tasks[taskId := db.tasks[taskId].(state := outcome, deletedAt := deletedAt)];
    Db(if view.phase.IssuePhase? then Swept(tasks, Descendants(tasks, taskId), now) else tasks,
       Released(db.locks, LockKey(taskId), None),
       WithoutEvents(db.events, taskId),
       db.broadcasts)
  }

  function Announce(db: Db, taskId: string, outcome: TaskState, deletedAt: Option<int>): Db {
    db.(broadcasts := db.broadcasts + [Finalized(taskId), Updated(taskId, outcome, deletedAt)])
  }

  /** The whole call, run alone. */
  function Finalize(db: Db, guild: int, taskId: string, outcome: TaskState, now: int): Db {
    if !CanFinalize(db, guild, taskId) then db
    else
      Announce(Write(db, taskId, outcome, db.tasks[taskId], now),
               taskId, outcome, SoftDeleteAt(outcome, db.tasks[taskId], now))
  }

  // ---------------------------------------------------------------- closing an issue

  predicate Linked(task: Task, guild: int, repo: string, number: int) {
    task.guild == guild && task.issueRepo == Some(repo) && task.issueNumber == Some(number)
  }

  /** Synthetic rows owned by the issue itself that are still open. */
  function OpenRoots(tasks: Tasks, guild: int, repo: string, number: int): set<string> {
    set id | id in tasks && Linked(tasks[id], guild, repo, number)
          && tasks[id].phase.IssuePhase? && !Terminal(tasks[id].state)
  }

  function LinkedIds(tasks: Tasks, guild: int, repo: string, number: int): set<string> {
    set id | id in tasks && Linked(tasks[id], guild, repo, number)
  }

  predicate SweptByRoot(tasks: Tasks, roots: set<string>, id: string) {
    exists r :: r in roots && id in Descendants(tasks, r)
  }

  /** The linked finished tasks that no root's cascade reaches first. */
  function LeftToSweep(tasks: Tasks, guild: int, repo: string, number: int): set<string> {
    set id | id in LinkedIds(tasks, guild, repo, number) && id in tasks && Sweepable(tasks[id])
          && !SweptByRoot(tasks, OpenRoots(tasks, guild, repo, number), id)
  }

  /** The ids that finalize_closed_issue reports. */
  function Ended(tasks: Tasks, guild: int, repo: string, number: int): set<string> {
    OpenRoots(tasks, guild, repo, number) + LeftToSweep(tasks, guild, repo, number)
  }

  /** What becomes of one task when `roots` are finalized as done. */
  function AfterRoots(tasks: Tasks, roots: set<string>, id: string, now: int): Task
    requires id in tasks
  {
    if id in roots then tasks[id].(state := Done, deletedAt := Some(now))
    else if Sweepable(tasks[id]) && SweptByRoot(tasks, roots, id)
    then tasks[id].(deletedAt := Some(now))
    else tasks[id]
  }

  function RootsDone(tasks: Tasks, roots: set<string>, now: int): Tasks {
    map id | id in tasks :: AfterRoots(tasks, roots, id, now)
  }

  function KeysOf(ids: set<string>): set<string> {
    set id | id in ids :: LockKey(id)
  }

  function EventsOutside(events: seq<TaskEvent>, ids: set<string>): seq<TaskEvent> {
    if events == [] then []
    else if events[0].taskId in ids then EventsOutside(events[1..], ids)
    else [events[0]] + EventsOutside(events[1..], ids)
  }

  /** All of finalize_closed_issue on the task table, in closed form. */
  function IssueClosed(tasks: Tasks, guild: int, repo: string, number: int, now: int): Tasks {
    var done := RootsDone(tasks, OpenRoots(tasks, guild, repo, number), now);
    Swept(done, LinkedIds(done, guild, repo, number), now)
  }

  // ---------------------------------------------------------------- the code

  class Store {
    var tasks: Tasks
    var locks: Table
    var events: seq<TaskEvent>
    var broadcasts: seq<Broadcast>

    function Snapshot(): Db
      reads this
    {
      Db(tasks, locks, events, broadcasts)
    }

    constructor (db: Db)
      ensures Snapshot() == db
    {
      tasks, locks, events, broadcasts := db.tasks, db.locks, db.events, db.broadcasts;
    }

    method CascadeSoftDelete(ids: set<string>, now: int) returns (stamped: set<string>)
      modifies this`tasks
      ensures tasks == Swept(old(tasks), ids, now)
      ensures stamped == set id | id in ids && id in old(tasks) && Sweepable(old(tasks)[id])
    {
      stamped := set id | id in ids && id in tasks && Terminal(tasks[id].state) && tasks[id].deletedAt.None?;
      tasks := map id | id in tasks :: if id in stamped then tasks[id].(deletedAt := Some(now)) else tasks[id];
    }

    /** finalize_task */
    method FinalizeTask(guild: int, taskId: string, outcome: TaskState, now: int) returns (status: Status)
      modifies this
      ensures Snapshot() == Finalize(old(Snapshot()), guild, taskId, outcome, now)
      ensures status == if Read(old(Snapshot()), guild, taskId).None? then NotFound
                        else if CanFinalize(old(Snapshot()), guild, taskId) then StatusFinalized
                        else AlreadyTerminal
    {
      if taskId !in tasks || tasks[taskId].guild != guild {
        return NotFound;
      }
      var view := tasks[taskId];
      var deletedAt := SoftDeleteAt(outcome, view, now);
      if Terminal(tasks[taskId].state) {
        return AlreadyTerminal;
      }
      tasks := tasks[taskId := tasks[taskId].(state := outcome, deletedAt := deletedAt)];
      locks := Released(locks, LockKey(taskId), None);
      events := WithoutEvents(events, taskId);
      if view.phase.IssuePhase? {
        var stamped := CascadeSoftDelete(Descendants(tasks, taskId), now);
      }
      broadcasts := broadcasts + [Finalized(taskId), Updated(taskId, outcome, deletedAt)];
      return StatusFinalized;
    }

    /** finalize_closed_issue: open roots one by one, then a sweep over all linked tasks. */
    method FinalizeClosedIssue(guild: int, repo: string, number: int, now: int) returns (ended: set<string>)
      modifies this
      ensures tasks == IssueClosed(old(tasks), guild, repo, number, now)
      ensures ended == Ended(old(tasks), guild, repo, number)
      ensures locks == old(locks) - KeysOf(OpenRoots(old(tasks), guild, repo, number))
      ensures events == EventsOutside(old(events), OpenRoots(old(tasks), guild, repo, number))
      ensures old(broadcasts) <= broadcasts
      ensures multiset(broadcasts)
              == multiset(old(broadcasts)) + multiset(RootNotices(OpenRoots(old(tasks), guild, repo, number), now))
    {
      ended := OpenRoots(tasks, guild, repo, number);
      FinalizeRoots(guild, ended, now);
      StampedAre(old(tasks), guild, repo, number, now);
      var stamped := CascadeSoftDelete(LinkedIds(tasks, guild, repo, number), now);
      ended := ended + stamped;
    }

    /** Its loop: each root cascades to its own finished descendants. */
    method FinalizeRoots(guild: int, roots: set<string>, now: int)
      requires AreOpenRoots(tasks, guild, roots)
      modifies this
      ensures RootsFinalized(old(Snapshot()), Snapshot(), roots, now)
    {
      var remaining := roots;
      NoRootsDone(Snapshot(), roots, now);
      while remaining != {}
        invariant remaining <= roots
        invariant RootsFinalized(old(Snapshot()), Snapshot(), roots - remaining, now)
        decreases remaining
      {
        var root :| root in remaining;
        RootFinalized(old(Snapshot()), Snapshot(), guild, roots, remaining, root, now);
        var status := FinalizeTask(guild, root, Done, now);
        remaining := remaining - {root};
      }
      assert roots - {} == roots;
    }
  }

  /** The two broadcasts of each root that is done. */
  function RootNotices(roots: set<string>, now: int): set<Broadcast> {
    (set r | r in roots :: Finalized(r)) + (set r | r in roots :: Updated(r, Done, Some(now)))
  }

  lemma {:induction false} RootNoticesOneMore(done: set<string>, root: string, now: int)
    requires root !in done
    ensures var x, y := Finalized(root), Updated(root, Done, Some(now));
            RootNotices(done + {root}, now) == RootNotices(done, now) + {x, y}
            && x !in RootNotices(done, now) && y !in RootNotices(done, now)
  {
  }

  lemma {:induction false} SetTwoMore<T(!new)>(s: set<T>, x: T, y: T)
    requires x != y && x !in s && y !in s
    ensures multiset(s + {x, y}) == multiset(s) + multiset{x, y}
  {
  }

  lemma {:induction false} SeqTwoMore<T>(s: seq<T>, x: T, y: T)
    ensures multiset(s + [x, y]) == multiset(s) + multiset{x, y}
  {
    assert s + [x, y] == (s + [x]) + [y];
  }

  lemma {:induction false} NoticesOfOneMore(before: seq<Broadcast>, made: seq<Broadcast>, done: set<string>,
                                            root: string,
          now: int)
    requires root !in done
    requires multiset(made) == multiset(before) + multiset(RootNotices(done, now))
    ensures multiset(made + [Finalized(root), Updated(root, Done, Some(now))])
            == multiset(before) + multiset(RootNotices(done + {root}, now))
  {
    var x, y := Finalized(root), Updated(root, Done, Some(now));
    RootNoticesOneMore(done, root, now);
    SetTwoMore(RootNotices(done, now), x, y);
    SeqTwoMore(made, x, y);
  }

  /** The database once `roots` are done: their tasks, their locks, their queued events, two broadcasts each. */
  predicate RootsFinalized(before: Db, after: Db, roots: set<string>, now: int) {
    && after.tasks == RootsDone(before.tasks, roots, now)
    && after.locks == before.locks - KeysOf(roots)
    && after.events == EventsOutside(before.events, roots)
    && before.broadcasts <= after.broadcasts
    && multiset(after.broadcasts) == multiset(before.broadcasts) + multiset(RootNotices(roots, now))
  }

  lemma {:induction false} EventsOutsideNone(events: seq<TaskEvent>)
    ensures EventsOutside(events, {}) == events
  {
    if events != [] {
      EventsOutsideNone(events[1..]);
    }
  }

  lemma {:induction false} NoRootsDone(db: Db, roots: set<string>, now: int)
    ensures RootsFinalized(db, db, roots - roots, now)
  {
    assert roots - roots == {};
    EventsOutsideNone(db.events);
    assert KeysOf({}) == {};
    assert db.locks - {} == db.locks;
    assert RootsDone(db.tasks, {}, now) == db.tasks;
    assert RootNotices({}, now) == {};
  }

  lemma {:induction false} EventsOutsideOneMore(events: seq<TaskEvent>, done: set<string>, root: string)
    ensures WithoutEvents(EventsOutside(events, done), root) == EventsOutside(events, done + {root})
  {
    if events != [] {
      EventsOutsideOneMore(events[1..], done, root);
    }
  }

  /** What else finalizing a root does: its lock and its queued events go, and two broadcasts are made. */
  lemma {:induction false} FinalizeRootRest(db: Db, locks: Table, events: seq<TaskEvent>, guild: int,
          done: set<string>, root: string, now: int)
    requires CanFinalize(db, guild, root) && db.tasks[root].phase.IssuePhase?
    requires db.locks == locks - KeysOf(done) && db.events == EventsOutside(events, done)
    ensures var after := Finalize(db, guild, root, Done, now);
            after.locks == locks - KeysOf(done + {root}) && after.events == EventsOutside(events, done + {root})
            && after.broadcasts == db.broadcasts + [Finalized(root), Updated(root, Done, Some(now))]
  {
    EventsOutsideOneMore(events, done, root);
    assert KeysOf(done + {root}) == KeysOf(done) + {LockKey(root)};
    assert locks - KeysOf(done + {root}) == Released(db.locks, LockKey(root), None);
  }

  lemma {:induction false} RootFinalized(before: Db, db: Db, guild: int, roots: set<string>,
          remaining: set<string>, root: string, now: int)
    requires AreOpenRoots(before.tasks, guild, roots) && root in remaining && remaining <= roots
    requires RootsFinalized(before, db, roots - remaining, now)
    ensures RootsFinalized(before, Finalize(db, guild, root, Done, now), roots - (remaining - {root}), now)
  {
    var done := roots - remaining;
    assert roots - (remaining - {root}) == done + {root};
    assert AreOpenRoots(before.tasks, guild, done + {root});
    StillOpen(before, db, guild, done, root, now);
    OneMoreRoot(before.tasks, guild, done, root, now);
    FinalizeRootRest(db, before.locks, before.events, guild, done, root, now);
    NoticesOfOneMore(before.broadcasts, db.broadcasts, done, root, now);
  }

  lemma {:induction false} StillOpen(before: Db, db: Db, guild: int, done: set<string>, root: string, now: int)
    requires AreOpenRoots(before.tasks, guild, done + {root}) && root !in done
    requires db.tasks == RootsDone(before.tasks, done, now)
    ensures CanFinalize(db, guild, root) && db.tasks[root].phase.IssuePhase?
  {
    assert root in done + {root};
  }

  predicate AreOpenRoots(tasks: Tasks, guild: int, roots: set<string>) {
    forall r :: r in roots ==>
      r in tasks && tasks[r].guild == guild && tasks[r].phase.IssuePhase? && !Terminal(tasks[r].state)
  }

  lemma {:induction false} SameParentsSameDepth(a: Tasks, b: Tasks, root: string, depth: nat)
    requires a.Keys == b.Keys && forall id :: id in a ==> a[id].parent == b[id].parent
    ensures AtDepth(a, root, depth) == AtDepth(b, root, depth)
  {
    if depth > 0 {
      SameParentsSameDepth(a, b, root, depth - 1);
    }
  }

  /** The query only looks at parent links. */
  lemma {:induction false} SameParentsSameChain(a: Tasks, b: Tasks, root: string, bound: nat)
    requires a.Keys == b.Keys && forall id :: id in a ==> a[id].parent == b[id].parent
    ensures Chain(a, root, bound) == Chain(b, root, bound)
  {
    if bound > 0 {
      SameParentsSameDepth(a, b, root, bound - 1);
      SameParentsSameChain(a, b, root, bound - 1);
    }
  }

  lemma {:induction false} FinalizeRootTasks(db: Db, guild: int, root: string, now: int)
    requires AreOpenRoots(db.tasks, guild, {root})
    ensures var marked := db.tasks[root := db.tasks[root].(state := Done, deletedAt := Some(now))];
            Finalize(db, guild, root, Done, now).tasks == Swept(marked, Descendants(db.tasks, root), now)
  {
    assert root in {root};
    var marked := db.tasks[root := db.tasks[root].(state := Done, deletedAt := Some(now))];
    SameParentsSameChain(db.tasks, marked, root, MAX_DESCENDANT_CHAIN_DEPTH);
  }

  lemma {:induction false} RootsKeepParents(tasks: Tasks, done: set<string>, root: string, now: int)
    ensures Descendants(RootsDone(tasks, done, now), root) == Descendants(tasks, root)
  {
    SameParentsSameChain(tasks, RootsDone(tasks, done, now), root, MAX_DESCENDANT_CHAIN_DEPTH);
  }

  /** Finalizing another open root after `done` others: the order does not matter. */
  lemma {:induction false} OneMoreRoot(tasks: Tasks, guild: int, done: set<string>, root: string, now: int)
    requires AreOpenRoots(tasks, guild, done + {root}) && root !in done
    ensures forall db: Db :: db.tasks == RootsDone(tasks, done, now) ==>
              Finalize(db, guild, root, Done, now).tasks == RootsDone(tasks, done + {root}, now)
  {
    assert root in done + {root};
    var current := RootsDone(tasks, done, now);
    RootsKeepParents(tasks, done, root, now);
    OneMoreSwept(tasks, done, root, now);
    forall db: Db | db.tasks == current
      ensures Finalize(db, guild, root, Done, now).tasks == RootsDone(tasks, done + {root}, now)
    {
      FinalizeRootTasks(db, guild, root, now);
    }
  }

  lemma {:induction false} OneMoreSwept(tasks: Tasks, done: set<string>, root: string, now: int)
    requires root in tasks && root !in done && !Terminal(tasks[root].state)
    ensures var current := RootsDone(tasks, done, now);
            var marked := current[root := current[root].(state := Done, deletedAt := Some(now))];
            Swept(marked, Descendants(tasks, root), now) == RootsDone(tasks, done + {root}, now)
  {
    var current := RootsDone(tasks, done, now);
    var marked := current[root := current[root].(state := Done, deletedAt := Some(now))];
    var after := Swept(marked, Descendants(tasks, root), now);
    forall id | id in tasks ensures after[id] == AfterRoots(tasks, done + {root}, id, now) {
      assert SweptByRoot(tasks, done + {root}, id) <==> SweptByRoot(tasks, done, id) || id in Descendants(tasks, root);
    }
  }

  lemma {:induction false} StampedAre(tasks: Tasks, guild: int, repo: string, number: int, now: int)
    ensures var roots := OpenRoots(tasks, guild, repo, number);
            var done := RootsDone(tasks, roots, now);
            AreOpenRoots(tasks, guild, roots) &&
            LeftToSweep(tasks, guild, repo, number)
              == set id | id in LinkedIds(done, guild, repo, number) && id in done && Sweepable(done[id])
  {
  }

  // ---------------------------------------------------------------- read off the rows

  /** The four states that end a task. */
  predicate HasEnded(t: Task) {
    t.state in {Done, Failed, Cancelled, Error}
  }

  /** A finished task without a stamp gets one. */
  function Stamped(t: Task, now: int): Task {
    if HasEnded(t) && t.deletedAt == None then t.(deletedAt := Some(now)) else t
  }

  /**
   What becomes of task `id` when `taskId` is to be finalized: the task itself gets
   the outcome, and a stamp unless it is done while its issue is open and it is
   not the issue's own row; an issue's own row takes its finished descendants along.
   */
  ghost function RowAfterFinalize(tasks: Tasks, guild: int, taskId: string, outcome: TaskState, now: int,
                                  id: string): Task
    requires id in tasks
  {
    var t := tasks[id];
    if taskId !in tasks || tasks[taskId].guild != guild || HasEnded(tasks[taskId]) then t
    else if id == taskId then
      var stays := outcome == Done && t.phase != IssuePhase && t.issueNumber != None && !t.issueClosed;
      t.(state := outcome, deletedAt := if stays then None else Some(now))
    else if tasks[taskId].phase == IssuePhase && IsWithin(tasks, taskId, id, 20) then Stamped(t, now)
    else t
  }

  lemma {:induction false} SameParentsSameDescendants(a: Tasks, b: Tasks, root: string, id: string)
    requires a.Keys == b.Keys && forall id :: id in a ==> a[id].parent == b[id].parent
    ensures id in Descendants(a, root) <==> IsWithin(b, root, id, 20)
  {
    SameParentsSameChain(a, b, root, MAX_DESCENDANT_CHAIN_DEPTH);
    DescendantsAreAncestry(b, root, id);
  }

  /** A finalize, row by row: also the lock, the queued events and the two broadcasts. */
  lemma {:induction false} FinalizeReadsOff(db: Db, guild: int, taskId: string, outcome: TaskState, now: int,
                                            id: string)
    requires id in db.tasks
    ensures var after := Finalize(db, guild, taskId, outcome, now);
            id in after.tasks && after.tasks[id] == RowAfterFinalize(db.tasks, guild, taskId, outcome, now, id)
  {
    if CanFinalize(db, guild, taskId) {
      var view := db.tasks[taskId];
      var deletedAt := SoftDeleteAt(outcome, view, now);
      var tasks := db.tasks[taskId := view.(state := outcome, deletedAt := deletedAt)];
      SameParentsSameDescendants(tasks, db.tasks, taskId, id);
    }
  }

  /** What else a finalize does, or does not. */
  lemma {:induction false} FinalizeFreesAndTells(db: Db, guild: int, taskId: string, outcome: TaskState, now: int)
    ensures var after := Finalize(db, guild, taskId, outcome, now);
            if taskId !in db.tasks || db.tasks[taskId].guild != guild || HasEnded(db.tasks[taskId]) then after == db
            else
              && after.locks == db.locks - {LockKey(taskId)}
              && (forall e :: e in after.events <==> e in db.events && e.taskId != taskId)
              && after.broadcasts == db.broadcasts + [Finalized(taskId),
                   Updated(taskId, outcome, RowAfterFinalize(db.tasks, guild, taskId, outcome, now, taskId).deletedAt)]
  {
    OtherEventsStay(db.events, taskId);
  }

  lemma {:induction false} OtherEventsStay(events: seq<TaskEvent>, taskId: string)
    ensures forall e :: e in WithoutEvents(events, taskId) <==> e in events && e.taskId != taskId
  {
    if events != [] {
      OtherEventsStay(events[1..], taskId);
      assert forall e :: e in events <==> e == events[0] || e in events[1..];
    }
  }

  /** A row of the issue: in its guild, with its repository and its number. */
  predicate OfIssue(t: Task, guild: int, repo: string, number: int) {
    t.guild == guild && t.issueRepo == Some(repo) && t.issueNumber == Some(number)
  }

  /** The issue's own row, still open. */
  predicate IsOpenRoot(t: Task, guild: int, repo: string, number: int) {
    OfIssue(t, guild, repo, number) && t.phase == IssuePhase && !HasEnded(t)
  }

  /** Below an open row of the issue. */
  ghost predicate IsBelowRoot(tasks: Tasks, guild: int, repo: string, number: int, id: string) {
    exists r :: r in tasks && IsOpenRoot(tasks[r], guild, repo, number) && IsWithin(tasks, r, id, 20)
  }

  lemma {:induction false} SweptMeansBelow(tasks: Tasks, guild: int, repo: string, number: int, id: string)
    ensures SweptByRoot(tasks, OpenRoots(tasks, guild, repo, number), id)
            <==> IsBelowRoot(tasks, guild, repo, number, id)
  {
    forall r | r in tasks
      ensures r in OpenRoots(tasks, guild, repo, number) <==> IsOpenRoot(tasks[r], guild, repo, number)
      ensures id in Descendants(tasks, r) <==> IsWithin(tasks, r, id, 20)
    {
      DescendantsAreAncestry(tasks, r, id);
    }
  }

  /**
   Closing an issue, row by row: its own open row is done and stamped, a finished
   row of it or below that one is stamped, and every other row stays; reported
   are the former, and of the latter those of the issue that no cascade reached.
   */
  lemma {:induction false} ClosingReadsOff(tasks: Tasks, guild: int, repo: string, number: int, now: int, id: string)
    requires id in tasks
    ensures var t, below := tasks[id], IsBelowRoot(tasks, guild, repo, number, id);
            && id in IssueClosed(tasks, guild, repo, number, now)
            && IssueClosed(tasks, guild, repo, number, now)[id]
               == (if IsOpenRoot(t, guild, repo, number) then t.(state := Done, deletedAt := Some(now))
                   else if OfIssue(t, guild, repo, number) || below then Stamped(t, now)
                   else t)
            && (id in Ended(tasks, guild, repo, number)
                <==> IsOpenRoot(t, guild, repo, number)
                     || (OfIssue(t, guild, repo, number) && HasEnded(t) && t.deletedAt == None && !below))
  {
    SweptMeansBelow(tasks, guild, repo, number, id);
    var done := RootsDone(tasks, OpenRoots(tasks, guild, repo, number), now);
    assert id in LinkedIds(done, guild, repo, number) <==> OfIssue(tasks[id], guild, repo, number);
  }

  /** In particular a row of another guild, repository or number is never reported, and hardly ever touched. */
  lemma {:induction false} OtherIssuesAreSpared(tasks: Tasks, guild: int, repo: string, number: int, now: int,
                                                id: string)
    requires id in tasks
    requires tasks[id].guild != guild || tasks[id].issueRepo != Some(repo) || tasks[id].issueNumber != Some(number)
    ensures id !in Ended(tasks, guild, repo, number)
    ensures var after := IssueClosed(tasks, guild, repo, number, now);
            id in after && after[id].state == tasks[id].state &&
            (after[id] != tasks[id] ==> IsBelowRoot(tasks, guild, repo, number, id))
  {
    ClosingReadsOff(tasks, guild, repo, number, now, id);
  }

  // ---------------------------------------------------------------- properties of closing an issue

  /** Nothing but the open roots changes state, and nothing is moved or relinked. */
  lemma {:induction false} OpenWorkIsNotForced(tasks: Tasks, guild: int, repo: string, number: int, now: int,
          id: string)
    requires id in tasks
    ensures var after := IssueClosed(tasks, guild, repo, number, now);
            id in after &&
            (id !in OpenRoots(tasks, guild, repo, number) ==> after[id].state == tasks[id].state) &&
            (!Terminal(tasks[id].state) && id !in OpenRoots(tasks, guild, repo, number) ==> after[id] == tasks[id]) &&
            after[id] == tasks[id].(state := after[id].state, deletedAt := after[id].deletedAt)
  {
  }

  /** Afterwards every finished linked task is soft-deleted and no root is open. */
  lemma {:induction false} LinkedTasksAreSwept(tasks: Tasks, guild: int, repo: string, number: int, now: int,
          id: string)
    requires id in tasks && Linked(tasks[id], guild, repo, number)
    ensures var t := IssueClosed(tasks, guild, repo, number, now)[id];
            (Terminal(t.state) ==> t.deletedAt.Some?) && (t.phase.IssuePhase? ==> Terminal(t.state))
  {
    var done := RootsDone(tasks, OpenRoots(tasks, guild, repo, number), now);
    assert Linked(done[id], guild, repo, number);
    assert id in LinkedIds(done, guild, repo, number);
  }

  /** A second call finds nothing to do and changes nothing. */
  lemma {:induction false} ClosingTwice(tasks: Tasks, guild: int, repo: string, number: int, now: int, later: int)
    ensures var after := IssueClosed(tasks, guild, repo, number, now);
            Ended(after, guild, repo, number) == {} && IssueClosed(after, guild, repo, number, later) == after
  {
    var after := IssueClosed(tasks, guild, repo, number, now);
    forall id | id in after && Linked(after[id], guild, repo, number)
      ensures !Sweepable(after[id]) && (after[id].phase.IssuePhase? ==> Terminal(after[id].state))
    {
      OpenWorkIsNotForced(tasks, guild, repo, number, now, id);
      LinkedTasksAreSwept(tasks, guild, repo, number, now, id);
    }
    assert OpenRoots(after, guild, repo, number) == {};
    assert RootsDone(after, {}, later) == after;
    assert Swept(after, LinkedIds(after, guild, repo, number), later) == after;
  }

  /** Soft-delete stamps are only ever added, and only to finished tasks. */
  lemma {:induction false} StampsAreKept(tasks: Tasks, guild: int, repo: string, number: int, now: int, id: string)
    requires id in tasks && tasks[id].deletedAt.Some? && id !in OpenRoots(tasks, guild, repo, number)
    ensures IssueClosed(tasks, guild, repo, number, now)[id] == tasks[id]
  {
  }
}
