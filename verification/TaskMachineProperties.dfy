/**
 What every interleaving of the task steps keeps: ended tasks stay ended, a task
 that stops working gives up its lock, and follow-ups are claimed one at a time.
 */
module TaskMachineProperties {
  import opened Options
  import opened LockService
  import opened TaskLifecycle
  import opened TaskMachine

  // ---------------------------------------------------------------- one finalize

  lemma {:induction false} FinalizeStates(db: Db, guild: int, taskId: string, outcome: TaskState, now: int, id: string)
    requires id in db.tasks
    ensures var after := Finalize(db, guild, taskId, outcome, now);
            id in after.tasks &&
            after.tasks[id].state
            == if id == taskId && CanFinalize(db, guild, taskId) then outcome else db.tasks[id].state
  {
  }

  /** Exactly the finalized task's lock goes. */
  lemma {:induction false} FinalizeLocks(db: Db, guild: int, taskId: string, outcome: TaskState, now: int, id: string)
    ensures var after := Finalize(db, guild, taskId, outcome, now);
            if id == taskId && CanFinalize(db, guild, taskId) then LockKey(id) !in after.locks
            else (LockKey(id) in after.locks <==> LockKey(id) in db.locks) &&
                 (LockKey(id) in db.locks ==> after.locks[LockKey(id)] == db.locks[LockKey(id)])
  {
    LockKeysDiffer(taskId, id);
  }

  // ---------------------------------------------------------------- one step, one task

  /** The agent's report of idling or failing abandons the task: the worker's, running, and the agent's current one. */
  predicate Abandons(st: State, guild: int, agentId: string, agentState: string, id: string)
    requires id in st.db.tasks
  {
    && agentState in ["idle", "offline", "error", "timeout"]
    && agentId != "" && id != "" && agentId in st.agents
    && st.agents[agentId].guild == guild && st.agents[agentId].currentTask == Some(id)
    && st.agents[agentId].workerId != None && st.agents[agentId].workerId != Some("")
    && st.db.tasks[id].workerId == st.agents[agentId].workerId && st.db.tasks[id].state == Working
  }

  /** The worker's refusal counts: the task is its own and has not got past working. */
  predicate Refuses(t: Task, guild: int, workerId: string) {
    t.guild == guild && workerId != "" && t.workerId == Some(workerId) && t.state in {Pending, Working}
  }

  /** Working, under a lock older than the patience, with no busy agent on it. */
  predicate Stalled(st: State, id: string, now: int, patience: int)
    requires id in st.db.tasks
  {
    && st.db.tasks[id].state == Working
    && LockKey(id) in st.db.locks && st.db.locks[LockKey(id)].acquiredAt + patience < now
    && forall a :: a in st.agents && st.agents[a].currentTask == Some(id)
                   ==> st.agents[a].state !in ["working", "thinking", "busy"]
  }

  /** Review by a human if that was reported, or a pull request and no review state; by the Foreman otherwise. */
  function AfterRun(reported: Option<TaskState>, prUrl: string): TaskState {
    if reported == Some(AwaitingReview) || (reported != Some(AwaitingForemanReview) && prUrl != "")
    then AwaitingReview
    else AwaitingForemanReview
  }

  /** What a step does to the state of task `id`. */
  function StateAfter(st: State, e: Event, id: string): TaskState
    requires id in st.db.tasks
  {
    var task := st.db.tasks[id];
    match e
    case AgentReport(guild, agentId, agentState, _, _) =>
      if Abandons(st, guild, agentId, agentState, id) then AwaitingReview else task.state
    case Rejected(guild, taskId, workerId) =>
      if taskId == id && id != "" && Refuses(task, guild, workerId) then Pending else task.state
    case Update(guild, taskId, report, _, _) =>
      if taskId != id || id == "" || report.None? then task.state
      else if report.value !in {Done, Failed, Cancelled, Error} then report.value
      else if task.guild == guild && !HasEnded(task) then report.value
      else task.state
    case Complete(taskId, reported, prUrl) =>
      if taskId == id && id != "" && task.state == Working then AfterRun(reported, prUrl) else task.state
    case FollowupDone(taskId, reported, prUrl) =>
      if taskId == id && id != "" && !HasEnded(task) then AfterRun(reported, prUrl) else task.state
    case Watchdog(now, patience) => if Stalled(st, id, now, patience) then AwaitingReview else task.state
    case FinalizeCall(guild, taskId, outcome, _) =>
      if taskId == id && task.guild == guild && !HasEnded(task) then outcome else task.state
    case Start(taskId, _, _) => if taskId == id then Working else task.state
    case Redirect(guild, taskId) =>
      if taskId == id && task.guild == guild && !HasEnded(task) then Working else task.state
    case _ => task.state
  }

  lemma {:induction false} StalledIsOrphaned(st: State, id: string, now: int, patience: int)
    requires id in st.db.tasks
    ensures Stalled(st, id, now, patience) <==> Orphaned(st.db, st.agents, id, now - patience)
  {
  }

  lemma {:induction false} UpdateStates(st: State, e: Event, id: string)
    requires id in st.db.tasks && e.Update?
    ensures id in Step(st, e).db.tasks
    ensures Step(st, e).db.tasks[id].state == StateAfter(st, e, id)
  {
    if e.taskId != "" {
      var written := WithColumns(st.db, e.taskId, e.columns);
      if e.report.Some? && Terminal(e.report.value) {
        FinalizeStates(written, e.guild, e.taskId, e.report.value, e.now, id);
      }
    }
  }

  lemma {:induction false} WatchdogStates(st: State, e: Event, id: string)
    requires id in st.db.tasks && e.Watchdog?
    ensures id in Step(st, e).db.tasks
    ensures Step(st, e).db.tasks[id].state == StateAfter(st, e, id)
  {
    var cutoff := e.now - e.patience;
    StalledIsOrphaned(st, id, e.now, e.patience);
    assert id in OrphanedIds(st.db, st.agents, cutoff) <==> Orphaned(st.db, st.agents, id, cutoff);
  }

  lemma {:induction false} AgentStates(st: State, e: Event, id: string)
    requires id in st.db.tasks && e.AgentReport?
    ensures id in Step(st, e).db.tasks
    ensures Step(st, e).db.tasks[id].state == StateAfter(st, e, id)
  {
  }

  /** A worker's run is over. */
  lemma {:induction false} RunStates(st: State, e: Event, id: string)
    requires id in st.db.tasks && (e.Complete? || e.FollowupDone?)
    ensures id in Step(st, e).db.tasks
    ensures Step(st, e).db.tasks[id].state == StateAfter(st, e, id)
  {
  }

  lemma {:induction false} StepStates(st: State, e: Event, id: string)
    requires id in st.db.tasks
    ensures id in Step(st, e).db.tasks
    ensures Step(st, e).db.tasks[id].state == StateAfter(st, e, id)
  {
    match e
    case Update(_, _, _, _, _) => UpdateStates(st, e, id);
    case Watchdog(_, _) => WatchdogStates(st, e, id);
    case FinalizeCall(guild, taskId, outcome, now) => FinalizeStates(st.db, guild, taskId, outcome, now, id);
    case AgentReport(_, _, _, _, _) => AgentStates(st, e, id);
    case Complete(_, _, _) => RunStates(st, e, id);
    case FollowupDone(_, _, _) => RunStates(st, e, id);
    case _ =>
  }

  // ---------------------------------------------------------------- ended tasks

  /** A worker's non-terminal report, or a dispatch: the two writes without a guard. */
  predicate Reopens(e: Event, id: string) {
    || (e.Update? && e.taskId == id && id != "" && e.report.Some? && !Terminal(e.report.value))
    || (e.Start? && e.taskId == id)
  }

  /** An ended task changes state if and only if one of those two writes hits it. */
  lemma {:induction false} EndedTaskMoves(st: State, e: Event, id: string)
    requires id in st.db.tasks && Terminal(st.db.tasks[id].state)
    ensures id in Step(st, e).db.tasks
    ensures Step(st, e).db.tasks[id].state != st.db.tasks[id].state <==> Reopens(e, id)
  {
    StepStates(st, e, id);
  }

  /** Over any run without such a write, the first end is the last. */
  lemma {:induction false} EndedTasksStayEnded(st: State, events: seq<Event>, m: nat, n: nat, id: string)
    requires m <= n <= |events|
    requires id in At(st, events, m).db.tasks && Terminal(At(st, events, m).db.tasks[id].state)
    requires forall k :: m <= k < n ==> !Reopens(events[k], id)
    ensures id in At(st, events, n).db.tasks
    ensures At(st, events, n).db.tasks[id].state == At(st, events, m).db.tasks[id].state
    decreases n - m
  {
    if m < n {
      EndedTasksStayEnded(st, events, m, n - 1, id);
      EndedTaskMoves(At(st, events, n - 1), events[n - 1], id);
    }
  }

  // ---------------------------------------------------------------- locks

  /** The step gives up the lock row of task `id`, which is `lock`. */
  predicate GivesUp(st: State, e: Event, id: string, lock: Lock) {
    var there := id in st.db.tasks;
    match e
    case AgentReport(guild, agentId, agentState, _, _) => there && Abandons(st, guild, agentId, agentState, id)
    case Rejected(guild, taskId, workerId) =>
      taskId == id && id != "" && there && Refuses(st.db.tasks[id], guild, workerId)
    case Update(guild, taskId, report, _, _) =>
      taskId == id && id != "" && report.Some? && report.value in {Done, Failed, Cancelled, Error}
      && there && st.db.tasks[id].guild == guild && !HasEnded(st.db.tasks[id])
    case Complete(taskId, _, _) => taskId == id && id != ""
    case FollowupDone(taskId, _, _) => taskId == id && id != ""
    case Watchdog(now, patience) => there && Stalled(st, id, now, patience)
    case FinalizeCall(guild, taskId, _, _) =>
      taskId == id && there && st.db.tasks[id].guild == guild && !HasEnded(st.db.tasks[id])
    case Claim(taskId, _, now) => taskId == id && lock.expiresAt != None && lock.expiresAt.value < now
    case OtherLock(op) => Frees(op, LockKey(id), lock)
    case _ => false
  }

  predicate Holds(db: Db, id: string, lock: Lock) {
    LockKey(id) in db.locks && db.locks[LockKey(id)] == lock
  }

  lemma {:induction false} KeysOfHas(ids: set<string>, id: string)
    ensures LockKey(id) in KeysOf(ids) <==> id in ids
  {
    forall other | other in ids && LockKey(other) == LockKey(id) ensures other == id {
      LockKeysDiffer(other, id);
    }
  }

  lemma {:induction false} WatchdogLocks(st: State, e: Event, id: string, lock: Lock)
    requires e.Watchdog? && Holds(st.db, id, lock)
    ensures if GivesUp(st, e, id, lock) then LockKey(id) !in Step(st, e).db.locks else Holds(Step(st, e).db, id, lock)
  {
    if id in st.db.tasks {
      StalledIsOrphaned(st, id, e.now, e.patience);
    }
    KeysOfHas(OrphanedIds(st.db, st.agents, e.now - e.patience), id);
  }

  lemma {:induction false} UpdateLocks(st: State, e: Event, id: string, lock: Lock)
    requires e.Update? && Holds(st.db, id, lock)
    ensures if GivesUp(st, e, id, lock) then LockKey(id) !in Step(st, e).db.locks else Holds(Step(st, e).db, id, lock)
  {
    if e.taskId != "" {
      var written := WithColumns(st.db, e.taskId, e.columns);
      assert CanFinalize(written, e.guild, e.taskId) <==> CanFinalize(st.db, e.guild, e.taskId);
      if e.report.Some? && Terminal(e.report.value) {
        FinalizeLocks(written, e.guild, e.taskId, e.report.value, e.now, id);
      }
    }
  }

  /** Steps other than taking a lock: the row goes if the step gives it up, and stays as it is otherwise. */
  lemma {:induction false} StepLocks(st: State, e: Event, id: string, lock: Lock)
    requires Holds(st.db, id, lock) && !e.Claim? && !e.OtherLock?
    ensures if GivesUp(st, e, id, lock) then LockKey(id) !in Step(st, e).db.locks else Holds(Step(st, e).db, id, lock)
  {
    if e.Watchdog? {
      WatchdogLocks(st, e, id, lock);
    } else if e.Update? {
      UpdateLocks(st, e, id, lock);
    } else if e.FinalizeCall? {
      FinalizeLocks(st.db, e.guild, e.taskId, e.outcome, e.now, id);
    } else if e.AgentReport? && e.agentId in st.agents && st.agents[e.agentId].currentTask.Some? {
      LockKeysDiffer(st.agents[e.agentId].currentTask.value, id);
    } else if e.Rejected? || e.Complete? || e.FollowupDone? {
      LockKeysDiffer(e.taskId, id);
    }
  }

  lemma {:induction false} LockIsKept(st: State, e: Event, id: string, lock: Lock)
    requires Holds(st.db, id, lock) && !GivesUp(st, e, id, lock)
    ensures Holds(Step(st, e).db, id, lock)
  {
    if e.Claim? {
      LockKeysDiffer(e.taskId, id);
    } else if e.OtherLock? {
    } else {
      StepLocks(st, e, id, lock);
    }
  }

  lemma {:induction false} NoLockAppears(st: State, e: Event, id: string)
    requires LockKey(id) !in st.db.locks && !e.Claim? && !e.OtherLock?
    ensures LockKey(id) !in Step(st, e).db.locks
  {
    if e.Update? && e.taskId != "" && e.report.Some? && Terminal(e.report.value) {
      var written := WithColumns(st.db, e.taskId, e.columns);
      FinalizeLocks(written, e.guild, e.taskId, e.report.value, e.now, id);
    } else if e.FinalizeCall? {
      FinalizeLocks(st.db, e.guild, e.taskId, e.outcome, e.now, id);
    }
  }

  /**
   A step that takes a task out of `working` leaves its lock free, unless it is
   a worker's report of a state that is neither working nor final: then the lock
   stays exactly when it was held.
   */
  lemma {:induction false} LeavingWorkFreesTheLock(st: State, e: Event, id: string)
    requires id in st.db.tasks && st.db.tasks[id].state.Working?
    requires !StateAfter(st, e, id).Working?
    ensures LockKey(id) in Step(st, e).db.locks
            <==> LockKey(id) in st.db.locks && e.Update? && !Terminal(e.report.value)
  {
    if LockKey(id) in st.db.locks {
      StepLocks(st, e, id, st.db.locks[LockKey(id)]);
    } else {
      NoLockAppears(st, e, id);
    }
  }

  predicate WorksAt(st: State, events: seq<Event>, n: nat, id: string)
    requires n <= |events|
  {
    id in At(st, events, n).db.tasks && At(st, events, n).db.tasks[id].state.Working?
  }

  /**
   Over any run in which workers report no non-terminal state for it, a task
   that was working and no longer is had its lock free right after the step that
   ended its work.
   */
  lemma {:induction false} WorkEndsUnlocked(st: State, events: seq<Event>, m: nat, n: nat, id: string) returns (k: nat)
    requires m <= n <= |events| && WorksAt(st, events, m, id) && !WorksAt(st, events, n, id)
    requires forall i :: m <= i < n ==>
               !(events[i].Update? && events[i].taskId == id
                  && events[i].report.Some? && !Terminal(events[i].report.value))
    ensures m <= k < n && WorksAt(st, events, k, id) && !WorksAt(st, events, k + 1, id)
    ensures LockKey(id) !in At(st, events, k + 1).db.locks
    decreases n - m
  {
    if WorksAt(st, events, n - 1, id) {
      k := n - 1;
      StepStates(At(st, events, k), events[k], id);
      LeavingWorkFreesTheLock(At(st, events, k), events[k], id);
    } else {
      k := WorkEndsUnlocked(st, events, m, n - 1, id);
    }
  }

  // ---------------------------------------------------------------- claims

  predicate Granted(st: State, events: seq<Event>, n: nat, id: string)
    requires n < |events|
  {
    events[n].Claim? && events[n].taskId == id
    && Acquirable(At(st, events, n).db.locks, LockKey(id), events[n].now)
  }

  lemma {:induction false} HeldWhileKept(st: State, events: seq<Event>, m: nat, n: nat, id: string, lock: Lock)
    requires m <= n <= |events| && Holds(At(st, events, m).db, id, lock)
    requires forall k :: m <= k < n ==> !GivesUp(At(st, events, k), events[k], id, lock)
    ensures Holds(At(st, events, n).db, id, lock)
    decreases n - m
  {
    if m < n {
      HeldWhileKept(st, events, m, n - 1, id, lock);
      LockIsKept(At(st, events, n - 1), events[n - 1], id, lock);
    }
  }

  /**
   One follow-up at a time: between two granted claims of one task, some step
   gave the first claim's lock up.
   */
  lemma {:induction false} ClaimsAreSeparated(st: State, events: seq<Event>, i: nat, j: nat, id: string)
          returns (m: nat)
    requires i < j < |events| && Granted(st, events, i, id) && Granted(st, events, j, id)
    ensures var lock := Lock(events[i].owner, events[i].now, Some(events[i].now + DEFAULT_TTL_SECONDS));
            i < m <= j && GivesUp(At(st, events, m), events[m], id, lock)
  {
    var lock := Lock(events[i].owner, events[i].now, Some(events[i].now + DEFAULT_TTL_SECONDS));
    assert Holds(At(st, events, i + 1).db, id, lock);
    if forall k :: i < k < j ==> !GivesUp(At(st, events, k), events[k], id, lock) {
      HeldWhileKept(st, events, i + 1, j, id, lock);
      m := j;
    } else {
      m :| i < m < j && GivesUp(At(st, events, m), events[m], id, lock);
    }
  }
}
