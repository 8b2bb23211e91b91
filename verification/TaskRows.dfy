/**
 What each task step does to one row, column by column: the row of a task, of an
 agent, of a task's lock.
 */
module TaskRows {
  import opened Options
  import opened Sequences
  import opened LockService
  import opened TaskLifecycle
  import opened TaskMachine
  import opened TaskMachineProperties

  // ---------------------------------------------------------------- a task's row

  /** A worker's report of its columns: what it sent is stored, null or not, and the rest stays. */
  function Reported(t: Task, c: Columns): Task {
    t.(branch := if c.branch == Omitted then t.branch else c.branch.value,
       worktree := if c.worktree == Omitted then t.worktree else c.worktree.value,
       prUrl := if c.link == Omitted then t.prUrl else c.link.value)
  }

  /** The run of a worker is over: its link is kept, and the task moves on if it may. */
  function RunOver(t: Task, moves: bool, reported: Option<TaskState>, prUrl: string): Task {
    t.(prUrl := if prUrl == "" then t.prUrl else Some(prUrl),
       state := if moves then AfterRun(reported, prUrl) else t.state)
  }

  /** The row of task `id` after a step. */
  ghost function RowAfter(st: State, e: Event, id: string): Task
    requires id in st.db.tasks
  {
    var t := st.db.tasks[id];
    match e
    case AgentReport(guild, agentId, agentState, _, _) =>
      if Abandons(st, guild, agentId, agentState, id) then t.(state := AwaitingReview) else t
    case Rejected(guild, taskId, workerId) =>
      if taskId == id && id != "" && Refuses(t, guild, workerId) then t.(state := Pending, workerId := None) else t
    case Update(guild, taskId, report, columns, now) =>
      var written := if taskId == id && id != "" then Reported(t, columns) else t;
      if taskId == "" || report == None then written
      else if report.value !in {Done, Failed, Cancelled, Error} then
        if taskId == id then written.(state := report.value) else written
      else
        var after := RowAfterFinalize(st.db.tasks, guild, taskId, report.value, now, id);
        written.(state := after.state, deletedAt := after.deletedAt)
    case Complete(taskId, reported, prUrl) =>
      if taskId == id && id != "" then RunOver(t, t.state == Working, reported, prUrl) else t
    case FollowupDone(taskId, reported, prUrl) =>
      if taskId == id && id != "" then RunOver(t, !HasEnded(t), reported, prUrl) else t
    case Watchdog(now, patience) =>
      if Stalled(st, id, now, patience) then t.(state := AwaitingReview) else t
    case FinalizeCall(guild, taskId, outcome, now) => RowAfterFinalize(st.db.tasks, guild, taskId, outcome, now, id)
    case Start(taskId, worker, wasTerminal) =>
      if taskId == id
      then t.(state := Working, phase := OtherPhase("followup"), workerId := Some(worker),
              deletedAt := if wasTerminal then None else t.deletedAt)
      else t
    case Redirect(guild, taskId) =>
      if taskId == id && t.guild == guild && !HasEnded(t) then t.(state := Working) else t
    case _ => t
  }

  lemma {:induction false} SameRootsSameEnd(a: Tasks, b: Tasks, guild: int, taskId: string, outcome: TaskState,
                                            now: int, id: string)
    requires id in a && a.Keys == b.Keys
    requires forall x :: x in a ==>
               b[x] == a[x].(branch := b[x].branch, worktree := b[x].worktree, prUrl := b[x].prUrl)
    ensures var after := RowAfterFinalize(a, guild, taskId, outcome, now, id);
            RowAfterFinalize(b, guild, taskId, outcome, now, id)
            == b[id].(state := after.state, deletedAt := after.deletedAt)
  {
    forall k: nat ensures Ancestor(a, id, k) == Ancestor(b, id, k) {
      SameAncestors(a, b, id, k);
    }
    assert IsWithin(a, taskId, id, 20) <==> IsWithin(b, taskId, id, 20);
  }

  lemma {:induction false} SameAncestors(a: Tasks, b: Tasks, id: string, k: nat)
    requires a.Keys == b.Keys && forall x :: x in a ==> b[x].parent == a[x].parent
    ensures Ancestor(a, id, k) == Ancestor(b, id, k)
    decreases k
  {
    if k > 0 && id in a && a[id].parent.Some? {
      SameAncestors(a, b, a[id].parent.value, k - 1);
    }
  }

  lemma {:induction false} UpdateRows(st: State, e: Event, id: string)
    requires id in st.db.tasks && e.Update?
    ensures id in Step(st, e).db.tasks && Step(st, e).db.tasks[id] == RowAfter(st, e, id)
  {
    var written := WithColumns(st.db, e.taskId, e.columns);
    if e.taskId != "" && e.report.Some? && Terminal(e.report.value) {
      SameRootsSameEnd(st.db.tasks, written.tasks, e.guild, e.taskId, e.report.value, e.now, id);
      FinalizeReadsOff(written, e.guild, e.taskId, e.report.value, e.now, id);
    }
  }

  lemma {:induction false} WatchdogRows(st: State, e: Event, id: string)
    requires id in st.db.tasks && e.Watchdog?
    ensures id in Step(st, e).db.tasks && Step(st, e).db.tasks[id] == RowAfter(st, e, id)
  {
    StalledIsOrphaned(st, id, e.now, e.patience);
    assert id in OrphanedIds(st.db, st.agents, e.now - e.patience) <==> Stalled(st, id, e.now, e.patience);
  }

  lemma {:induction false} AgentRows(st: State, e: Event, id: string)
    requires id in st.db.tasks && e.AgentReport?
    ensures id in Step(st, e).db.tasks && Step(st, e).db.tasks[id] == RowAfter(st, e, id)
  {
  }

  lemma {:induction false} RunRows(st: State, e: Event, id: string)
    requires id in st.db.tasks && (e.Complete? || e.FollowupDone?)
    ensures id in Step(st, e).db.tasks && Step(st, e).db.tasks[id] == RowAfter(st, e, id)
  {
  }

  /** Every step changes of every task's row exactly what is said above, and no step adds or removes a task. */
  lemma {:induction false} StepRows(st: State, e: Event, id: string)
    ensures id in Step(st, e).db.tasks <==> id in st.db.tasks
    ensures id in st.db.tasks ==> Step(st, e).db.tasks[id] == RowAfter(st, e, id)
  {
    if id in st.db.tasks {
      match e
      case Update(_, _, _, _, _) => UpdateRows(st, e, id);
      case Watchdog(_, _) => WatchdogRows(st, e, id);
      case FinalizeCall(guild, taskId, outcome, now) => FinalizeReadsOff(st.db, guild, taskId, outcome, now, id);
      case AgentReport(_, _, _, _, _) => AgentRows(st, e, id);
      case Complete(_, _, _) => RunRows(st, e, id);
      case FollowupDone(_, _, _) => RunRows(st, e, id);
      case _ =>
    }
  }

  // ---------------------------------------------------------------- an agent's row

  /**
   Only an agent's own report, from its guild, changes its row: the state is
   stored, an activity if sent, a task if sent; and an idle or offline agent
   loses both unless it sent one.
   */
  lemma {:induction false} AgentReadsOff(st: State, e: Event, a: string)
    requires !e.OtherAgents?
    ensures a in Step(st, e).agents <==> a in st.agents
    ensures a in st.agents ==>
              var before, after := st.agents[a], Step(st, e).agents[a];
              if e.AgentReport? && e.agentId == a && before.guild == e.guild then
                var rests := e.agentState in {"idle", "offline"};
                && after.guild == before.guild && after.workerId == before.workerId && after.state == e.agentState
                && after.activity == (if e.activity != None then e.activity
                                      else if rests then None else before.activity)
                && after.currentTask == (if e.current != Omitted then e.current.value
                                         else if rests then None else before.currentTask)
              else after == before
  {
  }

  // ---------------------------------------------------------------- a claim

  /** A claim leaves a lock in force as it is, and else the task's lock is the claimer's for half an hour. */
  lemma {:induction false} ClaimReadsOff(st: State, e: Event)
    requires e.Claim?
    ensures var locks, key := st.db.locks, "task:" + e.taskId;
            var held := key in locks && (locks[key].expiresAt == None || locks[key].expiresAt.value >= e.now);
            Step(st, e) == if held then st
                           else st.(db := st.db.(locks := locks[key := Lock(e.owner, e.now, Some(e.now + 1800))]))
  {
  }

  // ---------------------------------------------------------------- the queued events

  function PayloadFor(id: string): TaskEvent -> seq<string> {
    (e: TaskEvent) => if e.taskId == id && e.kind == "pending-followup" then [e.payload] else []
  }

  function UnlessFollowup(id: string): TaskEvent -> seq<TaskEvent> {
    (e: TaskEvent) => if e.taskId == id && e.kind == "pending-followup" then [] else [e]
  }

  lemma {:induction false} QueueReads(events: seq<TaskEvent>, id: string)
    ensures Queued(events, id) == Collect(PayloadFor(id), events)
    ensures WithoutQueued(events, id) == Collect(UnlessFollowup(id), events)
  {
    if events != [] {
      QueueReads(events[1..], id);
      CollectFirst(PayloadFor(id), events);
      CollectFirst(UnlessFollowup(id), events);
    }
  }

  /** A hand-over takes the task's pending follow-ups out of the events and nothing else; a refused one adds its own. */
  lemma {:induction false} EventsReadOff(st: State, id: string, payload: string)
    requires id != ""
    ensures Step(st, HandOver(id)) == st.(db := st.db.(events := Collect(UnlessFollowup(id), st.db.events)))
    ensures Step(st, QueueFollowup(id, payload))
            == st.(db := st.db.(events := st.db.events + [TaskEvent(id, "pending-followup", payload)]))
    ensures Queued(st.db.events, id) == Collect(PayloadFor(id), st.db.events)
  {
    QueueReads(st.db.events, id);
  }
}
