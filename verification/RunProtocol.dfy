/**
 run_foreman_ai (backend/foreman/runner.py): one Foreman run at a time per
 (guild, user). The protocol is a state machine whose steps are the stretches
 of code between two awaits, so that any interleaving of coroutines is a
 sequence of steps. Cancellation is not modelled.
 */
module RunProtocol {
  import opened Options
  import opened HumanQueue

  datatype Key = Key(guild: string, user: Option<string>)

  /** Where a suspended invocation waits. */
  datatype Phase =
    | Own(turn: Turn)                             // for the run of its own turn
    | Draining(turn: Turn, pending: seq<Turn>)    // for the run of a queued turn
    | Notifying(pending: seq<Turn>)               // for the notice of a failed queued turn

  datatype Proc = Proc(key: Key, phase: Phase)

  datatype Arrival = Arrival(key: Key, turn: Turn)

  /**
   `locks` has the keys whose flag is busy (with the invocation that claimed
   them, which the code never reads) and `queues` the turns that wait. The rest
   is history: what arrived, what was started in which order, and what became
   of the other arrivals.
   */
  datatype State = State(
    locks: map<Key, nat>,
    queues: map<Key, seq<Turn>>,
    procs: map<nat, Proc>,
    arrivals: seq<Arrival>,
    started: map<Key, seq<Turn>>,
    finished: set<nat>,
    overflowed: set<nat>,
    discarded: set<nat>)

  datatype Event =
    | Invoke(pid: nat, key: Key, source: Source, text: string)
    | RunEnds(pid: nat, failed: bool)
    | NoticeEnds(pid: nat)

  const Initial := State(map[], map[], map[], [], map[], {}, {}, {})

  // ---------------------------------------------------------------- specification

  function Listed(m: map<Key, seq<Turn>>, key: Key): seq<Turn> {
    if key in m then m[key] else []
  }

  function Start(s: State, pid: nat, key: Key, turn: Turn, phase: Phase): State {
    s.(procs := s.procs[pid := Proc(key, phase)],
       started := s.started[key := Listed(s.started, key) + [turn]])
  }

  /** The invocation returns: the flag is cleared and its entry removed. */
  function Release(s: State, pid: nat, key: Key): State {
    s.(locks := s.locks - {key}, procs := s.procs - {pid})
  }

  /** The drain loop from one of its loop heads to its next await. */
  function Drain(s: State, pid: nat, key: Key, pending: seq<Turn>): State {
    if pending != [] then Start(s, pid, key, pending[0], Draining(pending[0], pending[1..]))
    else
      var queue := Listed(s.queues, key);
      if queue == [] then Release(s.(queues := s.queues - {key}), pid, key)
      else Start(s.(queues := s.queues[key := []]), pid, key, queue[0], Draining(queue[0], queue[1..]))
  }

  function InvokeStep(s: State, pid: nat, key: Key, source: Source, text: string): State {
    var turn := Turn(|s.arrivals|, source, text);
    var s1 := s.(arrivals := s.arrivals + [Arrival(key, turn)]);
    if key !in s.locks then Start(s1.(locks := s1.locks[key := pid]), pid, key, turn, Own(turn))
    else if source.Automated? then s1.(discarded := s1.discarded + {turn.ticket})
    else
      var queue := Listed(s.queues, key);
      var s2 := s1.(queues := s1.queues[key := Enqueue(queue, turn, HUMAN_QUEUE_MAX)]);
      match Dropped(queue, turn, HUMAN_QUEUE_MAX)
      case None => s2
      case Some(d) => s2.(overflowed := s2.overflowed + {d.ticket})
  }

  function RunEndsStep(s: State, pid: nat, failed: bool): State
    requires pid in s.procs && !s.procs[pid].phase.Notifying?
  {
    var key, phase := s.procs[pid].key, s.procs[pid].phase;
    var s1 := s.(finished := s.finished + {phase.turn.ticket});
    match phase
    case Own(_) => Drain(s1, pid, key, [])
    case Draining(_, pending) =>
      if failed then s1.(procs := s1.procs[pid := Proc(key, Notifying(pending))])
      else Drain(s1, pid, key, pending)
    case Notifying(_) => s
  }

  /** An event that cannot happen in a state leaves it alone. */
  function Step(s: State, e: Event): State {
    match e
    case Invoke(pid, key, source, text) =>
      if pid in s.procs then s else InvokeStep(s, pid, key, source, text)
    case RunEnds(pid, failed) =>
      if pid in s.procs && !s.procs[pid].phase.Notifying? then RunEndsStep(s, pid, failed) else s
    case NoticeEnds(pid) =>
      if pid in s.procs && s.procs[pid].phase.Notifying?
      then Drain(s, pid, s.procs[pid].key, s.procs[pid].phase.pending)
      else s
  }

  /** Any interleaving of any number of invocations. */
  function After(events: seq<Event>): State {
    if events == [] then Initial else Step(After(events[..|events| - 1]), events[|events| - 1])
  }

  // ---------------------------------------------------------------- the code

  /** The module-level dictionaries of the runner, mutated step by step. */
  class Runner {
    var locks: map<Key, nat>
    var queues: map<Key, seq<Turn>>
    var procs: map<nat, Proc>
    ghost var arrivals: seq<Arrival>
    ghost var started: map<Key, seq<Turn>>
    ghost var finished: set<nat>
    ghost var overflowed: set<nat>
    ghost var discarded: set<nat>

    ghost function Snapshot(): State
      reads this
    {
      State(locks, queues, procs, arrivals, started, finished, overflowed, discarded)
    }

    constructor ()
      ensures Snapshot() == Initial
    {
      locks, queues, procs := map[], map[], map[];
      arrivals, started, finished, overflowed, discarded := [], map[], {}, {}, {};
    }

    /** run_foreman_ai up to its first await, or to its return when the key is busy. */
    method RunForemanAi(pid: nat, key: Key, source: Source, text: string, ticket: nat)
      requires pid !in procs && ticket == |arrivals|
      modifies this
      ensures Snapshot() == Step(old(Snapshot()), Invoke(pid, key, source, text))
    {
      var turn := Turn(ticket, source, text);
      arrivals := arrivals + [Arrival(key, turn)];
      if key in locks {
        if source.Human? || source.GitHub? {
          var queue := new Queue(HUMAN_QUEUE_MAX);
          queue.turns := if key in queues then queues[key] else [];
          var dropped := queue.EnqueueHumanTurn(turn);
          queues := queues[key := queue.turns];
          match dropped {
            case None =>
            case Some(d) => overflowed := overflowed + {d.ticket};
          }
        } else {
          discarded := discarded + {ticket};
        }
        return;
      }
      locks := locks[key := pid];
      StartRun(pid, key, turn, Own(turn));
    }

    /** The await of _run_foreman_ai returns or raises. */
    method RunReturns(pid: nat, failed: bool)
      requires pid in procs && !procs[pid].phase.Notifying?
      modifies this
      ensures Snapshot() == Step(old(Snapshot()), RunEnds(pid, failed))
    {
      var key, phase := procs[pid].key, procs[pid].phase;
      finished := finished + {phase.turn.ticket};
      if phase.Own? {
        DrainHumanQueue(pid, key, []);
      } else if failed {
        procs := procs[pid := Proc(key, Notifying(phase.pending))];
      } else {
        DrainHumanQueue(pid, key, phase.pending);
      }
    }

    /** The await of _notify_queued_turn_failure returns. */
    method NoticeReturns(pid: nat)
      requires pid in procs && procs[pid].phase.Notifying?
      modifies this
      ensures Snapshot() == Step(old(Snapshot()), NoticeEnds(pid))
    {
      DrainHumanQueue(pid, procs[pid].key, procs[pid].phase.pending);
    }

    /** _drain_human_queue: the next pending turn, or a fresh snapshot, or the end. */
    method DrainHumanQueue(pid: nat, key: Key, pending: seq<Turn>)
      modifies this
      ensures Snapshot() == Drain(old(Snapshot()), pid, key, pending)
    {
      var batch := pending;
      if batch == [] {
        if key !in queues || queues[key] == [] {
          queues := queues - {key};
          locks := locks - {key};
          procs := procs - {pid};
          return;
        }
        batch := queues[key];
        queues := queues[key := []];
      }
      StartRun(pid, key, batch[0], Draining(batch[0], batch[1..]));
    }

    method StartRun(pid: nat, key: Key, turn: Turn, phase: Phase)
      modifies this`procs, this`started
      ensures Snapshot() == Start(old(Snapshot()), pid, key, turn, phase)
    {
      procs := procs[pid := Proc(key, phase)];
      started := started[key := Listed(started, key) + [turn]];
    }
  }
}
