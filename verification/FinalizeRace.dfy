/**
 Concurrent calls of finalize_task (backend/task_lifecycle.py), each split into
 its read, its conditional update and its broadcasts, interleaved with one
 another and with the other task steps.
 */
module FinalizeRace {
  import opened Options
  import opened TaskLifecycle
  import M = TaskMachine
  import P = TaskMachineProperties

  datatype Call = Call(guild: int, taskId: string, outcome: TaskState, now: int)

  datatype Phase = NotStarted | HasRead(view: Task) | Committed(deletedAt: Option<int>) | Returned(status: Status)

  datatype Race = Race(st: M.State, phases: seq<Phase>)

  datatype Move = Advance(caller: nat) | Elsewhere(event: M.Event)

  function Advanced(calls: seq<Call>, r: Race, i: nat): Race
    requires |r.phases| == |calls| && i < |calls|
  {
    var call := calls[i];
    match r.phases[i]
    case NotStarted =>
      var row := Read(r.st.db, call.guild, call.taskId);
      r.(phases := r.phases[i := if row.None? then Returned(NotFound) else HasRead(row.value)])
    case HasRead(view) =>
      if CanFinalize(r.st.db, call.guild, call.taskId)
      then Race(r.st.(db := Write(r.st.db, call.taskId, call.outcome, view, call.now)),
                r.phases[i := Committed(SoftDeleteAt(call.outcome, view, call.now))])
      else r.(phases := r.phases[i := Returned(AlreadyTerminal)])
    case Committed(deletedAt) =>
      Race(r.st.(db := Announce(r.st.db, call.taskId, call.outcome, deletedAt)),
           r.phases[i := Returned(StatusFinalized)])
    case Returned(_) => r
  }

  function Moved(calls: seq<Call>, r: Race, m: Move): Race
    requires |r.phases| == |calls|
    ensures |Moved(calls, r, m).phases| == |calls|
  {
    match m
    case Advance(i) => if i < |calls| then Advanced(calls, r, i) else r
    case Elsewhere(e) => r.(st := M.Step(r.st, e))
  }

  function Begun(calls: seq<Call>, st: M.State): Race {
    Race(st, seq(|calls|, _ => NotStarted))
  }

  function At(calls: seq<Call>, st: M.State, moves: seq<Move>, n: nat): (r: Race)
    requires n <= |moves|
    ensures |r.phases| == |calls|
  {
    if n == 0 then Begun(calls, st)
    else Moved(calls, At(calls, st, moves, n - 1), moves[n - 1])
  }

  /** Another step that neither ends nor reopens the task. */
  predicate Neutral(e: M.Event, id: string) {
    && !P.Reopens(e, id)
    && !(e.FinalizeCall? && e.taskId == id)
    && !(e.Update? && e.taskId == id && e.report.Some?)
  }

  predicate AllNeutral(moves: seq<Move>, id: string) {
    forall k :: 0 <= k < |moves| && moves[k].Elsewhere? ==> Neutral(moves[k].event, id)
  }

  // ---------------------------------------------------------------- the invariant

  predicate Concerns(calls: seq<Call>, i: nat, guild: int, id: string) {
    i < |calls| && calls[i].taskId == id && calls[i].guild == guild
  }

  predicate Won(phase: Phase) {
    phase.Committed? || phase == Returned(StatusFinalized)
  }

  predicate Winner(calls: seq<Call>, r: Race, i: nat, guild: int, id: string)
    requires |r.phases| == |calls|
  {
    Concerns(calls, i, guild, id) && Won(r.phases[i])
  }

  predicate Announced(calls: seq<Call>, r: Race, i: nat, guild: int, id: string)
    requires |r.phases| == |calls|
  {
    Concerns(calls, i, guild, id) && r.phases[i] == Returned(StatusFinalized)
  }

  function Notices(broadcasts: seq<Broadcast>, id: string): nat {
    if broadcasts == [] then 0
    else Notices(broadcasts[..|broadcasts| - 1], id) + if broadcasts[|broadcasts| - 1] == Finalized(id) then 1 else 0
  }

  predicate AllTerminal(calls: seq<Call>) {
    forall i :: 0 <= i < |calls| ==> Terminal(calls[i].outcome)
  }

  /** The task is there, and ended exactly when some caller has won, with its outcome. */
  ghost predicate OneWinner(calls: seq<Call>, r: Race, guild: int, id: string)
    requires |r.phases| == |calls|
  {
    && id in r.st.db.tasks && r.st.db.tasks[id].guild == guild
    && (forall i: nat :: Winner(calls, r, i, guild, id) ==> r.st.db.tasks[id].state == calls[i].outcome)
    && (forall i: nat, j: nat :: Winner(calls, r, i, guild, id) && Winner(calls, r, j, guild, id) ==> i == j)
    && (Terminal(r.st.db.tasks[id].state) ==> exists i: nat :: Winner(calls, r, i, guild, id))
  }

  /** Callers that lost did so because the task had ended. */
  ghost predicate LosersAreLate(calls: seq<Call>, r: Race, guild: int, id: string)
    requires |r.phases| == |calls|
  {
    && id in r.st.db.tasks
    && forall i: nat :: Concerns(calls, i, guild, id) && r.phases[i].Returned? ==>
         r.phases[i].status != NotFound && Terminal(r.st.db.tasks[id].state)
  }

  // ---------------------------------------------------------------- steps of others

  /** A neutral step leaves a task ended or not ended, as it was. */
  lemma {:induction false} NeutralKeepsEnd(st: M.State, e: M.Event, id: string)
    requires id in st.db.tasks && Neutral(e, id)
    ensures id in M.Step(st, e).db.tasks
    ensures Terminal(M.Step(st, e).db.tasks[id].state) <==> Terminal(st.db.tasks[id].state)
    ensures Terminal(st.db.tasks[id].state) ==> M.Step(st, e).db.tasks[id].state == st.db.tasks[id].state
  {
    P.StepStates(st, e, id);
  }

  lemma {:induction false} StepKeepsGuild(st: M.State, e: M.Event, id: string)
    requires id in st.db.tasks
    ensures id in M.Step(st, e).db.tasks && M.Step(st, e).db.tasks[id].guild == st.db.tasks[id].guild
  {
    match e
    case Update(_, _, _, _, _) => UpdateKeepsGuild(st.db, e, id);
    case FinalizeCall(guild, taskId, outcome, now) => FinalizeKeepsGuild(st.db, guild, taskId, outcome, now, id);
    case Watchdog(_, _) =>
    case AgentReport(_, _, _, _, _) =>
    case _ =>
  }

  lemma {:induction false} UpdateKeepsGuild(db: Db, e: M.Event, id: string)
    requires e.Update? && id in db.tasks
    ensures var after := M.Updated(db, e.guild, e.taskId, e.report, e.columns, e.now);
            id in after.tasks && after.tasks[id].guild == db.tasks[id].guild
  {
    if e.taskId != "" && e.report.Some? && Terminal(e.report.value) {
      var written := M.WithColumns(db, e.taskId, e.columns);
      FinalizeKeepsGuild(written, e.guild, e.taskId, e.report.value, e.now, id);
    }
  }

  lemma {:induction false} FinalizeKeepsGuild(db: Db, guild: int, taskId: string, outcome: TaskState, now: int,
          id: string)
    requires id in db.tasks
    ensures var after := Finalize(db, guild, taskId, outcome, now);
            id in after.tasks && after.tasks[id].guild == db.tasks[id].guild
  {
  }

  /** A winning update touches no other task's state, and no task's guild. */
  lemma {:induction false} WriteStates(db: Db, taskId: string, outcome: TaskState, view: Task, now: int, id: string)
    requires taskId in db.tasks && id in db.tasks
    ensures var after := Write(db, taskId, outcome, view, now);
            id in after.tasks && after.tasks[id].guild == db.tasks[id].guild &&
            after.tasks[id].state == if id == taskId then outcome else db.tasks[id].state
  {
  }

  lemma {:induction false} AdvanceStates(calls: seq<Call>, r: Race, i: nat, id: string)
    requires |r.phases| == |calls| && i < |calls| && id in r.st.db.tasks
    ensures var after := Advanced(calls, r, i);
            id in after.st.db.tasks && after.st.db.tasks[id].guild == r.st.db.tasks[id].guild &&
            after.st.db.tasks[id].state ==
            if id == calls[i].taskId && r.phases[i].HasRead? && CanFinalize(r.st.db, calls[i].guild, id)
            then calls[i].outcome else r.st.db.tasks[id].state
  {
    var call := calls[i];
    if r.phases[i].HasRead? && CanFinalize(r.st.db, call.guild, call.taskId) {
      WriteStates(r.st.db, call.taskId, call.outcome, r.phases[i].view, call.now, id);
    }
  }

  lemma {:induction false} AdvancePhases(calls: seq<Call>, r: Race, i: nat, j: nat, guild: int, id: string)
    requires |r.phases| == |calls| && i < |calls| && id in r.st.db.tasks && r.st.db.tasks[id].guild == guild
    ensures var after := Advanced(calls, r, i);
            |after.phases| == |calls| &&
            (Winner(calls, after, j, guild, id) <==>
              (Winner(calls, r, j, guild, id)
               || (j == i && Concerns(calls, i, guild, id) && r.phases[i].HasRead? && CanFinalize(r.st.db, guild, id))))
  {
  }

  // ---------------------------------------------------------------- one move

  lemma {:induction false} AdvanceKeepsWinner(calls: seq<Call>, r: Race, i: nat, guild: int, id: string)
    requires |r.phases| == |calls| && i < |calls| && AllTerminal(calls) && OneWinner(calls, r, guild, id)
    ensures OneWinner(calls, Advanced(calls, r, i), guild, id)
  {
    var after := Advanced(calls, r, i);
    AdvanceStates(calls, r, i, id);
    forall j: nat
      ensures Winner(calls, after, j, guild, id) <==>
        (Winner(calls, r, j, guild, id)
         || (j == i && Concerns(calls, i, guild, id) && r.phases[i].HasRead? && CanFinalize(r.st.db, guild, id)))
    {
      AdvancePhases(calls, r, i, j, guild, id);
    }
    if Concerns(calls, i, guild, id) && r.phases[i].HasRead? && CanFinalize(r.st.db, guild, id) {
      assert Winner(calls, after, i, guild, id);
    } else if Terminal(after.st.db.tasks[id].state) {
      var w: nat :| Winner(calls, r, w, guild, id);
      assert Winner(calls, after, w, guild, id);
    }
  }

  lemma {:induction false} ElsewhereKeepsWinner(calls: seq<Call>, r: Race, e: M.Event, guild: int, id: string)
    requires |r.phases| == |calls| && AllTerminal(calls) && OneWinner(calls, r, guild, id) && Neutral(e, id)
    ensures OneWinner(calls, r.(st := M.Step(r.st, e)), guild, id)
  {
    var after := r.(st := M.Step(r.st, e));
    NeutralKeepsEnd(r.st, e, id);
    StepKeepsGuild(r.st, e, id);
    forall j: nat ensures Winner(calls, after, j, guild, id) <==> Winner(calls, r, j, guild, id) {
    }
    if Terminal(after.st.db.tasks[id].state) {
      var w: nat :| Winner(calls, r, w, guild, id);
      assert Winner(calls, after, w, guild, id);
    }
  }

  lemma {:induction false} MoveKeepsWinner(calls: seq<Call>, r: Race, m: Move, guild: int, id: string)
    requires |r.phases| == |calls| && AllTerminal(calls) && OneWinner(calls, r, guild, id)
    requires m.Elsewhere? ==> Neutral(m.event, id)
    ensures OneWinner(calls, Moved(calls, r, m), guild, id)
  {
    if m.Elsewhere? {
      ElsewhereKeepsWinner(calls, r, m.event, guild, id);
    } else if m.caller < |calls| {
      AdvanceKeepsWinner(calls, r, m.caller, guild, id);
    }
  }

  lemma {:induction false} EndedIsKept(calls: seq<Call>, r: Race, m: Move, id: string)
    requires |r.phases| == |calls| && AllTerminal(calls) && id in r.st.db.tasks
    requires m.Elsewhere? ==> Neutral(m.event, id)
    ensures var after := Moved(calls, r, m);
            id in after.st.db.tasks &&
            (Terminal(r.st.db.tasks[id].state) ==> after.st.db.tasks[id].state == r.st.db.tasks[id].state)
  {
    if m.Elsewhere? {
      NeutralKeepsEnd(r.st, m.event, id);
    } else if m.caller < |calls| {
      AdvanceStates(calls, r, m.caller, id);
    }
  }

  lemma {:induction false} MoveKeepsLosers(calls: seq<Call>, r: Race, m: Move, guild: int, id: string)
    requires |r.phases| == |calls| && AllTerminal(calls)
    requires OneWinner(calls, r, guild, id) && LosersAreLate(calls, r, guild, id)
    requires m.Elsewhere? ==> Neutral(m.event, id)
    ensures LosersAreLate(calls, Moved(calls, r, m), guild, id)
  {
    var after := Moved(calls, r, m);
    EndedIsKept(calls, r, m, id);
    forall i: nat | Concerns(calls, i, guild, id) && after.phases[i].Returned?
      ensures after.phases[i].status != NotFound && Terminal(after.st.db.tasks[id].state)
    {
      if !r.phases[i].Returned? {
        assert m == Advance(i);
        ReturnsWhenEnded(calls, r, i, guild, id);
      }
    }
  }

  lemma {:induction false} ReturnsWhenEnded(calls: seq<Call>, r: Race, i: nat, guild: int, id: string)
    requires |r.phases| == |calls| && AllTerminal(calls) && OneWinner(calls, r, guild, id)
    requires Concerns(calls, i, guild, id)
    requires !r.phases[i].Returned? && Advanced(calls, r, i).phases[i].Returned?
    ensures Advanced(calls, r, i).phases[i].status != NotFound && Terminal(r.st.db.tasks[id].state)
  {
    if r.phases[i].Committed? {
      assert Winner(calls, r, i, guild, id);
    }
  }

  // ---------------------------------------------------------------- every run

  lemma {:induction false} RaceInvariant(calls: seq<Call>, st: M.State, moves: seq<Move>, n: nat, guild: int,
          id: string)
    requires AllTerminal(calls) && AllNeutral(moves, id) && n <= |moves|
    requires CanFinalize(st.db, guild, id)
    ensures OneWinner(calls, At(calls, st, moves, n), guild, id)
    ensures LosersAreLate(calls, At(calls, st, moves, n), guild, id)
  {
    if n > 0 {
      RaceInvariant(calls, st, moves, n - 1, guild, id);
      var before := At(calls, st, moves, n - 1);
      MoveKeepsWinner(calls, before, moves[n - 1], guild, id);
      MoveKeepsLosers(calls, before, moves[n - 1], guild, id);
    } else {
      var r := At(calls, st, moves, 0);
      assert forall i: nat :: !Winner(calls, r, i, guild, id);
    }
  }

  /**
   The first finalizer wins: however the callers of one open task interleave
   with each other and with steps that neither end nor reopen it, once they have
   all returned exactly one of them got `finalized`, the others were told the
   task had already ended, and the task ended with the winner's outcome.
   */
  lemma {:induction false} FirstFinalizerWins(calls: seq<Call>, st: M.State, moves: seq<Move>, guild: int,
          id: string) returns (w: nat)
    requires AllTerminal(calls) && AllNeutral(moves, id) && CanFinalize(st.db, guild, id)
    requires exists i: nat :: Concerns(calls, i, guild, id)
    requires forall i: nat :: Concerns(calls, i, guild, id) ==> At(calls, st, moves, |moves|).phases[i].Returned?
    ensures var r := At(calls, st, moves, |moves|);
            Announced(calls, r, w, guild, id)
            && id in r.st.db.tasks && r.st.db.tasks[id].state == calls[w].outcome
            && forall i: nat :: Concerns(calls, i, guild, id) && i != w ==> r.phases[i] == Returned(AlreadyTerminal)
  {
    var r := At(calls, st, moves, |moves|);
    RaceInvariant(calls, st, moves, |moves|, guild, id);
    var i: nat :| Concerns(calls, i, guild, id);
    w :| Winner(calls, r, w, guild, id);
    forall j: nat | Concerns(calls, j, guild, id) && j != w
      ensures r.phases[j] == Returned(AlreadyTerminal)
    {
      assert !Winner(calls, r, j, guild, id);
    }
  }

  lemma {:induction false} WinnerIsKept(calls: seq<Call>, st: M.State, moves: seq<Move>, m: nat, n: nat, i: nat)
    requires m <= n <= |moves| && i < |calls| && Won(At(calls, st, moves, m).phases[i])
    ensures Won(At(calls, st, moves, n).phases[i])
    decreases n - m
  {
    if m < n {
      WinnerIsKept(calls, st, moves, m, n - 1, i);
    }
  }

  /** The move changes the task rows, the locks, the queued events or the broadcasts. */
  predicate Writes(calls: seq<Call>, st: M.State, moves: seq<Move>, n: nat, i: nat)
    requires n < |moves|
  {
    moves[n] == Advance(i) && At(calls, st, moves, n + 1).st.db != At(calls, st, moves, n).st.db
  }

  /**
   Only the winner writes: two callers of one task never both change the
   database or broadcast, so the lock is released, the queued follow-ups purged
   and the end announced by a single call.
   */
  lemma {:induction false} OnlyTheWinnerWrites(calls: seq<Call>, st: M.State, moves: seq<Move>, m: nat, n: nat,
          i: nat, j: nat, guild: int, id: string)
    requires AllTerminal(calls) && AllNeutral(moves, id) && CanFinalize(st.db, guild, id)
    requires Concerns(calls, i, guild, id) && Concerns(calls, j, guild, id)
    requires m <= n < |moves| && Writes(calls, st, moves, m, i) && Writes(calls, st, moves, n, j)
    ensures i == j
  {
    WriterWins(calls, st, moves, m, i);
    WriterWins(calls, st, moves, n, j);
    WinnerIsKept(calls, st, moves, m + 1, n + 1, i);
    WinnersAgree(calls, st, moves, n + 1, i, j, guild, id);
  }

  lemma {:induction false} WriterWins(calls: seq<Call>, st: M.State, moves: seq<Move>, n: nat, i: nat)
    requires n < |moves| && i < |calls| && Writes(calls, st, moves, n, i)
    ensures Won(At(calls, st, moves, n + 1).phases[i])
  {
    AdvanceWrites(calls, At(calls, st, moves, n), i);
  }

  lemma {:induction false} AdvanceWrites(calls: seq<Call>, r: Race, i: nat)
    requires |r.phases| == |calls| && i < |calls|
    requires Advanced(calls, r, i).st.db != r.st.db
    ensures Won(Advanced(calls, r, i).phases[i])
  {
  }

  lemma {:induction false} WinnersAgree(calls: seq<Call>, st: M.State, moves: seq<Move>, n: nat, i: nat, j: nat,
          guild: int, id: string)
    requires AllTerminal(calls) && AllNeutral(moves, id) && CanFinalize(st.db, guild, id) && n <= |moves|
    requires Concerns(calls, i, guild, id) && Concerns(calls, j, guild, id)
    requires Won(At(calls, st, moves, n).phases[i]) && Won(At(calls, st, moves, n).phases[j])
    ensures i == j
  {
    var r := At(calls, st, moves, n);
    RaceInvariant(calls, st, moves, n, guild, id);
    assert Winner(calls, r, i, guild, id) && Winner(calls, r, j, guild, id);
  }

  // ---------------------------------------------------------------- announcements

  lemma {:induction false} NoticesOfPair(b: seq<Broadcast>, x: Broadcast, y: Broadcast, id: string)
    ensures Notices(b + [x, y], id)
            == Notices(b, id) + (if x == Finalized(id) then 1 else 0) + (if y == Finalized(id) then 1 else 0)
  {
    var one := b + [x];
    assert (b + [x, y])[..|b| + 1] == one && one[..|b|] == b;
  }

  /** Callers from another guild never get as far as the update. */
  predicate StrangersFail(calls: seq<Call>, r: Race, guild: int, id: string)
    requires |r.phases| == |calls|
  {
    forall i :: 0 <= i < |calls| && calls[i].taskId == id && calls[i].guild != guild ==> !Won(r.phases[i])
  }

  lemma {:induction false} MoveKeepsStrangers(calls: seq<Call>, r: Race, m: Move, guild: int, id: string)
    requires |r.phases| == |calls| && OneWinner(calls, r, guild, id) && StrangersFail(calls, r, guild, id)
    ensures StrangersFail(calls, Moved(calls, r, m), guild, id)
  {
  }

  lemma {:induction false} StrangersAlwaysFail(calls: seq<Call>, st: M.State, moves: seq<Move>, n: nat, guild: int,
                                               id: string)
    requires AllTerminal(calls) && AllNeutral(moves, id) && n <= |moves|
    requires CanFinalize(st.db, guild, id)
    ensures StrangersFail(calls, At(calls, st, moves, n), guild, id)
  {
    if n > 0 {
      StrangersAlwaysFail(calls, st, moves, n - 1, guild, id);
      RaceInvariant(calls, st, moves, n - 1, guild, id);
      MoveKeepsStrangers(calls, At(calls, st, moves, n - 1), moves[n - 1], guild, id);
    }
  }

  lemma {:induction false} FinalizeNotices(db: Db, guild: int, taskId: string, outcome: TaskState, now: int, id: string)
    requires taskId != id
    ensures Notices(Finalize(db, guild, taskId, outcome, now).broadcasts, id) == Notices(db.broadcasts, id)
  {
    if CanFinalize(db, guild, taskId) {
      NoticesOfPair(db.broadcasts, Finalized(taskId),
                    Updated(taskId, outcome, SoftDeleteAt(outcome, db.tasks[taskId], now)), id);
    }
  }

  lemma {:induction false} NeutralIsSilent(st: M.State, e: M.Event, id: string)
    requires Neutral(e, id)
    ensures Notices(M.Step(st, e).db.broadcasts, id) == Notices(st.db.broadcasts, id)
  {
    match e
    case Update(guild, taskId, report, columns, now) =>
      if taskId != "" && report.Some? && Terminal(report.value) {
        FinalizeNotices(M.WithColumns(st.db, taskId, columns), guild, taskId, report.value, now, id);
      }
    case FinalizeCall(guild, taskId, outcome, now) => FinalizeNotices(st.db, guild, taskId, outcome, now, id);
    case _ =>
  }

  /** The move is the broadcast of a caller that has won the task. */
  predicate Announces(calls: seq<Call>, r: Race, m: Move, guild: int, id: string)
    requires |r.phases| == |calls|
  {
    m.Advance? && Concerns(calls, m.caller, guild, id) && r.phases[m.caller].Committed?
  }

  lemma {:induction false} AdvanceNotices(calls: seq<Call>, r: Race, i: nat, guild: int, id: string)
    requires |r.phases| == |calls| && i < |calls| && StrangersFail(calls, r, guild, id)
    ensures Notices(Advanced(calls, r, i).st.db.broadcasts, id)
            == Notices(r.st.db.broadcasts, id) + if Announces(calls, r, Advance(i), guild, id) then 1 else 0
  {
    if r.phases[i].Committed? {
      NoticesOfPair(r.st.db.broadcasts, Finalized(calls[i].taskId),
                    Updated(calls[i].taskId, calls[i].outcome, r.phases[i].deletedAt), id);
    }
  }

  lemma {:induction false} MoveNotices(calls: seq<Call>, r: Race, m: Move, guild: int, id: string)
    requires |r.phases| == |calls| && StrangersFail(calls, r, guild, id)
    requires m.Elsewhere? ==> Neutral(m.event, id)
    ensures Notices(Moved(calls, r, m).st.db.broadcasts, id)
            == Notices(r.st.db.broadcasts, id) + if Announces(calls, r, m, guild, id) then 1 else 0
  {
    if m.Elsewhere? {
      NeutralIsSilent(r.st, m.event, id);
    } else if m.caller < |calls| {
      AdvanceNotices(calls, r, m.caller, guild, id);
    }
  }

  ghost predicate SomeoneAnnounced(calls: seq<Call>, r: Race, guild: int, id: string)
    requires |r.phases| == |calls|
  {
    exists i: nat :: Announced(calls, r, i, guild, id)
  }

  /** A broadcast is the first one, and makes its caller return `finalized`; nothing else does. */
  lemma {:induction false} MoveAnnounced(calls: seq<Call>, r: Race, m: Move, guild: int, id: string)
    requires |r.phases| == |calls| && OneWinner(calls, r, guild, id)
    ensures Announces(calls, r, m, guild, id) ==> !SomeoneAnnounced(calls, r, guild, id)
    ensures SomeoneAnnounced(calls, Moved(calls, r, m), guild, id)
            <==> SomeoneAnnounced(calls, r, guild, id) || Announces(calls, r, m, guild, id)
  {
    var after := Moved(calls, r, m);
    forall i: nat
      ensures Announced(calls, after, i, guild, id)
              <==> Announced(calls, r, i, guild, id) || (m == Advance(i) && Announces(calls, r, m, guild, id))
    {
    }
    if Announces(calls, r, m, guild, id) {
      assert Winner(calls, r, m.caller, guild, id);
      assert Announced(calls, after, m.caller, guild, id);
      forall i: nat ensures !Announced(calls, r, i, guild, id) {
        assert Announced(calls, r, i, guild, id) ==> Winner(calls, r, i, guild, id);
      }
    }
  }

  /**
   Over any run the end of the task is broadcast once if some caller has returned
   `finalized`, and not at all before that.
   */
  lemma {:induction false} EndIsBroadcastOnce(calls: seq<Call>, st: M.State, moves: seq<Move>, n: nat, guild: int,
                                              id: string)
    requires AllTerminal(calls) && AllNeutral(moves, id) && n <= |moves|
    requires CanFinalize(st.db, guild, id)
    ensures Notices(At(calls, st, moves, n).st.db.broadcasts, id) - Notices(st.db.broadcasts, id)
            == if SomeoneAnnounced(calls, At(calls, st, moves, n), guild, id) then 1 else 0
  {
    if n > 0 {
      var before := At(calls, st, moves, n - 1);
      EndIsBroadcastOnce(calls, st, moves, n - 1, guild, id);
      RaceInvariant(calls, st, moves, n - 1, guild, id);
      StrangersAlwaysFail(calls, st, moves, n - 1, guild, id);
      MoveNotices(calls, before, moves[n - 1], guild, id);
      MoveAnnounced(calls, before, moves[n - 1], guild, id);
    }
  }

  // ---------------------------------------------------------------- why outcomes must be terminal

  /**
   A caller with any other outcome leaves the guard open: of two callers run one
   after the other, the second wins as well exactly when the first's outcome is
   not terminal.
   */
  lemma {:induction false} OpenOutcomeLetsTwoWin(calls: seq<Call>, st: M.State, i: nat, j: nat, guild: int, id: string)
    requires Concerns(calls, i, guild, id) && Concerns(calls, j, guild, id) && i != j
    requires CanFinalize(st.db, guild, id)
    ensures var first := Advanced(calls, Advanced(calls, Begun(calls, st), i), i);
            var r := Advanced(calls, Advanced(calls, first, j), j);
            Winner(calls, r, i, guild, id)
            && (Winner(calls, r, j, guild, id) <==> !Terminal(calls[i].outcome))
  {
    var r1 := Advanced(calls, Begun(calls, st), i);
    assert r1.phases[i] == HasRead(st.db.tasks[id]) && r1.st == st;
    var r2 := Advanced(calls, r1, i);
    WriteStates(st.db, id, calls[i].outcome, st.db.tasks[id], calls[i].now, id);
    assert Won(r2.phases[i]) && r2.phases[j] == NotStarted;
    var r3 := Advanced(calls, r2, j);
    assert r3.phases[j].HasRead? && r3.st == r2.st && r3.phases[i] == r2.phases[i];
  }

  // ---------------------------------------------------------------- a caller alone

  /** A caller that nobody comes between reads, writes and announces what a finalize in one piece does. */
  lemma {:induction false} AloneIsFinalize(calls: seq<Call>, r: Race, i: nat)
    requires |r.phases| == |calls| && i < |calls| && r.phases[i] == NotStarted
    ensures var call, db := calls[i], r.st.db;
            var after := Advanced(calls, Advanced(calls, Advanced(calls, r, i), i), i);
            && after.st == r.st.(db := Finalize(db, call.guild, call.taskId, call.outcome, call.now))
            && after.phases[i]
               == Returned(if call.taskId !in db.tasks || db.tasks[call.taskId].guild != call.guild then NotFound
                           else if HasEnded(db.tasks[call.taskId]) then AlreadyTerminal
                           else StatusFinalized)
            && forall j :: 0 <= j < |calls| && j != i ==> after.phases[j] == r.phases[j]
  {
  }
}
