/**
 The task-state steps of the websocket handlers (backend/ws_handlers.py), the
 follow-up and redirect tools (backend/foreman/tools.py) and the stale-task
 watchdog (backend/main.py). Each step is one committed transaction.
 */
module TaskMachine {
  import opened Options
  import opened LockService
  import opened TaskLifecycle

  datatype Agent = Agent(guild: int, workerId: Option<string>, state: string,
                         activity: Option<string>, currentTask: Option<string>)

  type Agents = map<string, Agent>

  datatype State = State(db: Db, agents: Agents)

  /** A message field: left out, or sent with a value that may be null. */
  datatype Field<T> = Omitted | Sent(value: Option<T>)

  /** The columns of a task that a worker's report can set besides its state. */
  datatype Columns = Columns(branch: Field<string>, worktree: Field<string>, link: Field<string>)

  datatype Event =
    | AgentReport(guild: int, agentId: string, agentState: string, activity: Option<string>, current: Field<string>)
    | Rejected(guild: int, taskId: string, workerId: string)
    | Update(guild: int, taskId: string, report: Option<TaskState>, columns: Columns, now: int)
    | Complete(taskId: string, reported: Option<TaskState>, prUrl: string)
    | FollowupDone(taskId: string, reported: Option<TaskState>, prUrl: string)
    | HandOver(taskId: string)
    | Watchdog(now: int, patience: int)
    | FinalizeCall(guild: int, taskId: string, outcome: TaskState, now: int)
    | Claim(taskId: string, owner: string, now: int)
    | QueueFollowup(taskId: string, payload: string)
    | Start(taskId: string, worker: string, wasTerminal: bool)
    | Redirect(guild: int, taskId: string)
    | OtherLock(op: Op)
    | OtherAgents(agents: Agents)

  const RELEASING_STATES := {"idle", "offline", "error", "timeout"}
  const BUSY_STATES := {"working", "thinking", "busy"}

  // ---------------------------------------------------------------- specification of the steps

  function SetState(tasks: Tasks, id: string, state: TaskState): Tasks {
    if id in tasks then tasks[id := tasks[id].(state := state)] else tasks
  }

  function SetLink(tasks: Tasks, id: string, url: Option<string>): Tasks {
    if id in tasks then tasks[id := tasks[id].(prUrl := url)] else tasks
  }

  function NewValue(sent: Field<string>, stored: Option<string>): Option<string> {
    if sent.Sent? then sent.value else stored
  }

  predicate AnySent(c: Columns) {
    c.branch.Sent? || c.worktree.Sent? || c.link.Sent?
  }

  function SetColumns(task: Task, c: Columns): Task {
    task.(branch := NewValue(c.branch, task.branch),
          worktree := NewValue(c.worktree, task.worktree),
          prUrl := NewValue(c.link, task.prUrl))
  }

  function WithColumns(db: Db, id: string, c: Columns): Db {
    if AnySent(c) && id in db.tasks then db.(tasks := db.tasks[id := SetColumns(db.tasks[id], c)]) else db
  }

  function WithoutLock(db: Db, id: string): Db {
    db.(locks := Released(db.locks, LockKey(id), None))
  }

  function NewCurrent(agent: Agent, agentState: string, current: Field<string>): Option<string> {
    if current.Sent? then current.value
    else if agentState == "idle" || agentState == "offline" then None
    else agent.currentTask
  }

  function NewActivity(agent: Agent, agentState: string, activity: Option<string>): Option<string> {
    if activity.Some? then activity
    else if agentState == "idle" || agentState == "offline" then None
    else agent.activity
  }

  /** The task an agent drops by reporting a state: its current one, as stored before the report. */
  predicate Drops(st: State, guild: int, agentId: string, agentState: string, id: string) {
    && agentState in RELEASING_STATES && agentId != ""
    && agentId in st.agents && st.agents[agentId].guild == guild
    && id != "" && st.agents[agentId].currentTask == Some(id)
    && st.agents[agentId].workerId.Some? && st.agents[agentId].workerId.value != ""
    && id in st.db.tasks && st.db.tasks[id].state.Working?
    && st.db.tasks[id].workerId == st.agents[agentId].workerId
  }

  /** The state a worker's run leaves the task in. */
  function NextState(reported: Option<TaskState>, prUrl: string): TaskState {
    if reported == Some(AwaitingReview) || reported == Some(AwaitingForemanReview) then reported.value
    else if prUrl != "" then AwaitingReview
    else AwaitingForemanReview
  }

  predicate CanReject(db: Db, guild: int, taskId: string, workerId: string) {
    && taskId != "" && workerId != ""
    && taskId in db.tasks && db.tasks[taskId].guild == guild
    && db.tasks[taskId].workerId == Some(workerId)
    && (db.tasks[taskId].state.Pending? || db.tasks[taskId].state.Working?)
  }

  predicate SomeoneRuns(agents: Agents, id: string) {
    exists a :: a in agents && agents[a].currentTask == Some(id) && agents[a].state in BUSY_STATES
  }

  /** Marked working under an old lock, with no live agent on it. */
  predicate Orphaned(db: Db, agents: Agents, id: string, cutoff: int) {
    && id in db.tasks && db.tasks[id].state.Working?
    && LockKey(id) in db.locks && db.locks[LockKey(id)].acquiredAt < cutoff
    && !SomeoneRuns(agents, id)
  }

  function OrphanedIds(db: Db, agents: Agents, cutoff: int): set<string> {
    set id | id in db.tasks && Orphaned(db, agents, id, cutoff)
  }

  function ParkedTasks(tasks: Tasks, ids: set<string>): Tasks {
    map id | id in tasks :: if id in ids then tasks[id].(state := AwaitingReview) else tasks[id]
  }

  /** Orphaned tasks go back to review, and their locks go. */
  function Parked(db: Db, ids: set<string>): Db {
    db.(tasks := ParkedTasks(db.tasks, ids), locks := db.locks - KeysOf(ids))
  }

  function Watched(st: State, now: int, patience: int): Db {
    Parked(st.db, OrphanedIds(st.db, st.agents, now - patience))
  }

  function Updated(db: Db, guild: int, taskId: string, report: Option<TaskState>, columns: Columns, now: int): Db {
    if taskId == "" then db
    else
      var written := WithColumns(db, taskId, columns);
      if report.None? then written
      else if Terminal(report.value) then Finalize(written, guild, taskId, report.value, now)
      else written.(tasks := SetState(written.tasks, taskId, report.value))
  }

  function Completed(db: Db, taskId: string, reported: Option<TaskState>, prUrl: string): Db {
    if taskId == "" then db
    else
      var tasks := if prUrl != "" then SetLink(db.tasks, taskId, Some(prUrl)) else db.tasks;
      var moved := if taskId in tasks && tasks[taskId].state.Working?
                   then SetState(tasks, taskId, NextState(reported, prUrl)) else tasks;
      WithoutLock(db.(tasks := moved), taskId)
  }

  function FollowedUp(db: Db, taskId: string, reported: Option<TaskState>, prUrl: string): Db {
    if taskId == "" then db
    else
      var tasks := if prUrl != "" then SetLink(db.tasks, taskId, Some(prUrl)) else db.tasks;
      var moved := if taskId in tasks && !Terminal(tasks[taskId].state)
                   then SetState(tasks, taskId, NextState(reported, prUrl)) else tasks;
      WithoutLock(db.(tasks := moved), taskId)
  }

  /** A follow-up that waits for the task. */
  predicate WaitsFor(e: TaskEvent, taskId: string) {
    e.taskId == taskId && e.kind == "pending-followup"
  }

  /** The follow-ups queued for a task, oldest first. */
  function Queued(events: seq<TaskEvent>, taskId: string): seq<string> {
    if events == [] then []
    else if WaitsFor(events[0], taskId) then [events[0].payload] + Queued(events[1..], taskId)
    else Queued(events[1..], taskId)
  }

  function WithoutQueued(events: seq<TaskEvent>, taskId: string): seq<TaskEvent> {
    if events == [] then []
    else if WaitsFor(events[0], taskId) then WithoutQueued(events[1..], taskId)
    else [events[0]] + WithoutQueued(events[1..], taskId)
  }

  /** A follow-up tries to take the task's lock. */
  function Claimed(locks: map<string, Lock>, taskId: string, owner: string, now: int): map<string, Lock> {
    Acquired(locks, LockKey(taskId), owner, DEFAULT_TTL_SECONDS, now)
  }

  /** It then dispatches the task to a worker, reopening it if it had ended. */
  function Started(tasks: Tasks, taskId: string, worker: string, wasTerminal: bool): Tasks {
    if taskId in tasks then
      tasks[taskId := tasks[taskId].(state := Working, phase := OtherPhase("followup"), workerId := Some(worker),
                                     deletedAt := if wasTerminal then None else tasks[taskId].deletedAt)]
    else tasks
  }

  function RejectedDb(db: Db, guild: int, taskId: string, workerId: string): Db {
    if CanReject(db, guild, taskId, workerId)
    then WithoutLock(db.(tasks := db.tasks[taskId := db.tasks[taskId].(workerId := None, state := Pending)]), taskId)
    else db
  }

  function ReportedDb(st: State, guild: int, agentId: string, agentState: string): Db {
    if agentId in st.agents && st.agents[agentId].currentTask.Some?
       && Drops(st, guild, agentId, agentState, st.agents[agentId].currentTask.value)
    then
      var id := st.agents[agentId].currentTask.value;
      WithoutLock(st.db.(tasks := SetState(st.db.tasks, id, AwaitingReview)), id)
    else st.db
  }

  function ReportedAgents(agents: Agents, guild: int, agentId: string, agentState: string,
          activity: Option<string>, current: Field<string>): Agents {
    if agentId in agents && agents[agentId].guild == guild then
      var agent := agents[agentId];
      agents[agentId := agent.(state := agentState,
                               activity := NewActivity(agent, agentState, activity),
                               currentTask := NewCurrent(agent, agentState, current))]
    else agents
  }

  function StepDb(st: State, e: Event): Db {
    match e
    case AgentReport(guild, agentId, agentState, _, _) => ReportedDb(st, guild, agentId, agentState)
    case Rejected(guild, taskId, workerId) => RejectedDb(st.db, guild, taskId, workerId)
    case Update(guild, taskId, report, columns, now) => Updated(st.db, guild, taskId, report, columns, now)
    case Complete(taskId, reported, prUrl) => Completed(st.db, taskId, reported, prUrl)
    case FollowupDone(taskId, reported, prUrl) => FollowedUp(st.db, taskId, reported, prUrl)
    case HandOver(taskId) =>
      if taskId == "" then st.db else st.db.(events := WithoutQueued(st.db.events, taskId))
    case Watchdog(now, patience) => Watched(st, now, patience)
    case FinalizeCall(guild, taskId, outcome, now) => Finalize(st.db, guild, taskId, outcome, now)
    case Claim(taskId, owner, now) => st.db.(locks := Claimed(st.db.locks, taskId, owner, now))
    case QueueFollowup(taskId, payload) =>
      st.db.(events := st.db.events + [TaskEvent(taskId, "pending-followup", payload)])
    case Start(taskId, worker, wasTerminal) => st.db.(tasks := Started(st.db.tasks, taskId, worker, wasTerminal))
    case Redirect(guild, taskId) =>
      if CanFinalize(st.db, guild, taskId) then st.db.(tasks := SetState(st.db.tasks, taskId, Working)) else st.db
    case OtherLock(op) => st.db.(locks := Apply(st.db.locks, op))
    case OtherAgents(_) => st.db
  }

  function Step(st: State, e: Event): State {
    State(StepDb(st, e),
          match e
          case AgentReport(guild, agentId, agentState, activity, current) =>
            ReportedAgents(st.agents, guild, agentId, agentState, activity, current)
          case OtherAgents(agents) => agents
          case _ => st.agents)
  }

  /** The state before event `n` of a run. */
  function At(st: State, events: seq<Event>, n: nat): State
    requires n <= |events|
  {
    if n == 0 then st else Step(At(st, events, n - 1), events[n - 1])
  }

  // ---------------------------------------------------------------- the handlers

  class Handlers {
    const store: Store
    var agents: Agents

    function Snapshot(): State
      reads this, store
    {
      State(store.Snapshot(), agents)
    }

    constructor (store: Store, agents: Agents)
      ensures this.store == store && this.agents == agents
    {
      this.store, this.agents := store, agents;
    }

    /** The update of the agent's row in handle_agent_state. */
    method UpdateAgent(guild: int, agentId: string, agentState: string, activity: Option<string>,
                       current: Field<string>)
      modifies this`agents
      ensures agents == ReportedAgents(old(agents), guild, agentId, agentState, activity, current)
    {
      if agentId in agents && agents[agentId].guild == guild {
        var agent := agents[agentId].(state := agentState);
        if activity.Some? {
          agent := agent.(activity := activity);
        } else if agentState in {"idle", "offline"} {
          agent := agent.(activity := None);
        }
        if current.Sent? {
          agent := agent.(currentTask := current.value);
        } else if agentState in {"idle", "offline"} {
          agent := agent.(currentTask := None);
        }
        agents := agents[agentId := agent];
      }
    }

    /** handle_agent_state */
    method HandleAgentState(guild: int, agentId: string, agentState: string, activity: Option<string>,
                            current: Field<string>)
      modifies this`agents, store
      ensures Snapshot() == Step(old(Snapshot()), AgentReport(guild, agentId, agentState, activity, current))
    {
      var taskToRelease: Option<string> := None;
      var workerForRelease: Option<string> := None;
      if agentState in RELEASING_STATES && agentId != "" {
        if agentId in agents && agents[agentId].guild == guild {
          taskToRelease, workerForRelease := agents[agentId].currentTask, agents[agentId].workerId;
        }
      }
      UpdateAgent(guild, agentId, agentState, activity, current);
      if taskToRelease.Some? && taskToRelease.value != "" && workerForRelease.Some? && workerForRelease.value != "" {
        var id := taskToRelease.value;
        if id in store.tasks && store.tasks[id].state == Working && store.tasks[id].workerId == workerForRelease {
          store.tasks := store.tasks[id := store.tasks[id].(state := AwaitingReview)];
          store.locks := Released(store.locks, LockKey(id), None);
        }
      }
    }

    /** handle_task_rejected */
    method HandleTaskRejected(guild: int, taskId: string, workerId: string)
      modifies store
      ensures Snapshot() == Step(old(Snapshot()), Rejected(guild, taskId, workerId))
    {
      if taskId == "" || workerId == "" {
        return;
      }
      if !(taskId in store.tasks && store.tasks[taskId].guild == guild
           && store.tasks[taskId].workerId == Some(workerId)
           && store.tasks[taskId].state in {Pending, Working}) {
        return;
      }
      store.tasks := store.tasks[taskId := store.tasks[taskId].(workerId := None, state := Pending)];
      store.locks := Released(store.locks, LockKey(taskId), None);
    }

    /**
     handle_task_update: only a terminal report goes through finalize_task. The
     follow-ups that an error report hands to the Foreman are read before that.
     */
    method HandleTaskUpdate(guild: int, taskId: string, report: Option<TaskState>, columns: Columns, now: int)
      returns (queued: seq<string>)
      modifies store
      ensures Snapshot() == Step(old(Snapshot()), Update(guild, taskId, report, columns, now))
      ensures queued == if taskId != "" && report == Some(Error) then Queued(old(store.events), taskId) else []
    {
      queued := [];
      if taskId == "" {
        return;
      }
      if report == Some(Error) {
        queued := Queued(store.events, taskId);
      }
      PersistReport(taskId, report, columns);
      if report.Some? && Terminal(report.value) {
        var status := store.FinalizeTask(guild, taskId, report.value, now);
      }
    }

    /** Its one update of the row: every field sent, but for a terminal state. */
    method PersistReport(taskId: string, report: Option<TaskState>, columns: Columns)
      modifies store`tasks
      ensures var written := WithColumns(old(store.Snapshot()), taskId, columns);
              store.tasks == if report.Some? && !Terminal(report.value)
                             then SetState(written.tasks, taskId, report.value) else written.tasks
    {
      var terminal := report.Some? && Terminal(report.value);
      var persisted := AnySent(columns) || (report.Some? && !terminal);
      if persisted && taskId in store.tasks {
        var task := store.tasks[taskId];
        if report.Some? && !terminal {
          task := task.(state := report.value);
        }
        if columns.branch.Sent? {
          task := task.(branch := columns.branch.value);
        }
        if columns.worktree.Sent? {
          task := task.(worktree := columns.worktree.value);
        }
        if columns.link.Sent? {
          task := task.(prUrl := columns.link.value);
        }
        store.tasks := store.tasks[taskId := task];
      }
    }

    /** handle_task_complete, up to its commit */
    method HandleTaskComplete(taskId: string, reported: Option<TaskState>, prUrl: string)
      modifies store
      ensures Snapshot() == Step(old(Snapshot()), Complete(taskId, reported, prUrl))
    {
      if taskId != "" {
        if prUrl != "" && taskId in store.tasks {
          store.tasks := store.tasks[taskId := store.tasks[taskId].(prUrl := Some(prUrl))];
        }
        if taskId in store.tasks && store.tasks[taskId].state == Working {
          store.tasks := store.tasks[taskId := store.tasks[taskId].(state := NextState(reported, prUrl))];
        }
        store.locks := Released(store.locks, LockKey(taskId), None);
      }
    }

    /** handle_task_followup_done, up to its first commit */
    method HandleTaskFollowupDone(taskId: string, reported: Option<TaskState>, prUrl: string)
      modifies store
      ensures Snapshot() == Step(old(Snapshot()), FollowupDone(taskId, reported, prUrl))
    {
      if taskId != "" {
        if prUrl != "" && taskId in store.tasks {
          store.tasks := store.tasks[taskId := store.tasks[taskId].(prUrl := Some(prUrl))];
        }
        if taskId in store.tasks && !Terminal(store.tasks[taskId].state) {
          store.tasks := store.tasks[taskId := store.tasks[taskId].(state := NextState(reported, prUrl))];
        }
        store.locks := Released(store.locks, LockKey(taskId), None);
      }
    }

    /** Its second transaction: the queued follow-ups leave the queue for the Foreman. */
    method HandOverFollowups(taskId: string) returns (queued: seq<string>)
      modifies store
      ensures Snapshot() == Step(old(Snapshot()), HandOver(taskId))
      ensures queued == if taskId != "" then Queued(old(store.events), taskId) else []
    {
      queued := [];
      if taskId == "" {
        return;
      }
      queued := Queued(store.events, taskId);
      store.events := WithoutQueued(store.events, taskId);
    }

    /** The lock clean-up of _sweep_stale_workers_once, a transaction of its own. */
    method SweepExpiredLocks(now: int)
      modifies store
      ensures Snapshot() == Step(old(Snapshot()), OtherLock(CleanupOp(now)))
    {
      store.locks := Cleaned(store.locks, now);
    }

    /** Its stale-task watchdog. */
    method SweepStaleTasks(now: int, patience: int)
      modifies store
      ensures Snapshot() == Step(old(Snapshot()), Watchdog(now, patience))
    {
      var orphaned := OrphanedIds(store.Snapshot(), agents, now - patience);
      ghost var before := store.Snapshot();
      ParkedNone(before);
      var remaining := orphaned;
      while remaining != {}
        invariant remaining <= orphaned <= before.tasks.Keys
        invariant forall id :: id in orphaned ==> before.tasks[id].state.Working?
        invariant store.Snapshot() == Parked(before, orphaned - remaining)
        decreases remaining
      {
        var id :| id in remaining;
        ParkOneMore(before, orphaned - remaining, id);
        if id in store.tasks && store.tasks[id].state == Working {
          store.tasks := store.tasks[id := store.tasks[id].(state := AwaitingReview)];
        }
        store.locks := Released(store.locks, LockKey(id), None);
        assert orphaned - (remaining - {id}) == orphaned - remaining + {id};
        remaining := remaining - {id};
      }
      assert orphaned - {} == orphaned;
    }

    /** The follow-up tool, up to its lock commit. */
    method ClaimFollowup(taskId: string, owner: string, now: int) returns (granted: bool)
      modifies store
      ensures Snapshot() == Step(old(Snapshot()), Claim(taskId, owner, now))
      ensures granted <==> Acquirable(old(store.locks), LockKey(taskId), now)
    {
      granted := Acquirable(store.locks, LockKey(taskId), now);
      store.locks := Acquired(store.locks, LockKey(taskId), owner, DEFAULT_TTL_SECONDS, now);
    }

    /** Its second transaction, when the lock was not granted. */
    method QueueForLater(taskId: string, payload: string)
      modifies store
      ensures Snapshot() == Step(old(Snapshot()), QueueFollowup(taskId, payload))
    {
      store.events := store.events + [TaskEvent(taskId, "pending-followup", payload)];
    }
  }

  lemma {:induction false} ParkedNone(db: Db)
    ensures Parked(db, {}) == db
  {
    assert ParkedTasks(db.tasks, {}) == db.tasks;
    assert KeysOf({}) == {};
    assert db.locks - {} == db.locks;
  }

  lemma {:induction false} LockKeysDiffer(a: string, b: string)
    ensures LockKey(a) == LockKey(b) <==> a == b
  {
    assert LockKey(a)[5..] == a && LockKey(b)[5..] == b;
  }

  lemma {:induction false} ParkOneMore(db: Db, done: set<string>, id: string)
    requires id in db.tasks && id !in done
    ensures var part := Parked(db, done);
            id in part.tasks && part.tasks[id] == db.tasks[id] &&
            Parked(db, done + {id})
              == part.(tasks := part.tasks[id := part.tasks[id].(state := AwaitingReview)],
                       locks := Released(part.locks, LockKey(id), None))
  {
    var part := Parked(db, done);
    assert ParkedTasks(db.tasks, done + {id}) == part.tasks[id := part.tasks[id].(state := AwaitingReview)];
    assert KeysOf(done + {id}) == KeysOf(done) + {LockKey(id)};
    assert db.locks - KeysOf(done + {id}) == Released(part.locks, LockKey(id), None);
  }
}
