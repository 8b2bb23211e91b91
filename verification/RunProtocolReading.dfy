/**
 What each step of the run protocol does to its key, in terms of who runs, who
 waits and in which order.
 */
module RunProtocolReading {
  import opened Options
  import opened HumanQueue
  import opened RunProtocol

  /** Who waits for the key: the turns an invocation has still to drain, then the queue. */
  function Waiting(s: State, key: Key, pending: seq<Turn>): seq<Turn> {
    pending + if key in s.queues then s.queues[key] else []
  }

  /** Nothing of another invocation or another key is touched. */
  ghost predicate OthersStay(s: State, after: State, pid: nat, key: Key) {
    && (forall p :: p != pid ==>
          (p in after.procs <==> p in s.procs) && (p in s.procs ==> after.procs[p] == s.procs[p]))
    && (forall k :: k != key ==>
          (k in after.locks <==> k in s.locks) && (k in s.locks ==> after.locks[k] == s.locks[k])
          && (k in after.queues <==> k in s.queues) && (k in s.queues ==> after.queues[k] == s.queues[k])
          && Listed(after.started, k) == Listed(s.started, k))
  }

  /** The first in line starts, and the rest stay in line; without a line the key is given up. */
  ghost predicate NextStarts(s: State, after: State, pid: nat, key: Key, pending: seq<Turn>) {
    var line := Waiting(s, key, pending);
    && OthersStay(s, after, pid, key)
    && if line == [] then
         pid !in after.procs && key !in after.locks && Listed(after.started, key) == Listed(s.started, key)
       else
         && pid in after.procs && after.procs[pid].key == key
         && after.procs[pid].phase.Draining? && after.procs[pid].phase.turn == line[0]
         && Waiting(after, key, after.procs[pid].phase.pending) == line[1..]
         && Listed(after.started, key) == Listed(s.started, key) + [line[0]]
         && after.locks == s.locks
  }

  lemma {:induction false} HeadStarts(s: State, pid: nat, key: Key, line: seq<Turn>, queues: map<Key, seq<Turn>>)
    requires line != [] && forall k :: k != key ==>
               (k in queues <==> k in s.queues) && (k in s.queues ==> queues[k] == s.queues[k])
    ensures var after := Start(s.(queues := queues), pid, key, line[0], Draining(line[0], line[1..]));
            OthersStay(s, after, pid, key) && Listed(after.started, key) == Listed(s.started, key) + [line[0]]
  {
  }

  lemma {:induction false} PendingStarts(s: State, pid: nat, key: Key, pending: seq<Turn>)
    requires pending != []
    ensures NextStarts(s, Drain(s, pid, key, pending), pid, key, pending)
  {
    HeadStarts(s, pid, key, pending, s.queues);
    assert s.(queues := s.queues) == s;
    assert Waiting(s, key, pending)[1..] == pending[1..] + Listed(s.queues, key);
  }

  lemma {:induction false} QueueStarts(s: State, pid: nat, key: Key)
    requires Listed(s.queues, key) != []
    ensures NextStarts(s, Drain(s, pid, key, []), pid, key, [])
  {
    var queue := Listed(s.queues, key);
    HeadStarts(s, pid, key, queue, s.queues[key := []]);
    assert Waiting(s, key, []) == queue && queue[1..] + [] == queue[1..];
  }

  lemma {:induction false} KeyIsReleased(s: State, pid: nat, key: Key)
    requires Listed(s.queues, key) == []
    ensures NextStarts(s, Drain(s, pid, key, []), pid, key, [])
  {
    assert Waiting(s, key, []) == [];
  }

  lemma {:induction false} DrainReadsOff(s: State, pid: nat, key: Key, pending: seq<Turn>)
    ensures var after := Drain(s, pid, key, pending);
            NextStarts(s, after, pid, key, pending) && after.finished == s.finished
            && after.arrivals == s.arrivals && after.overflowed == s.overflowed && after.discarded == s.discarded
  {
    if pending != [] {
      PendingStarts(s, pid, key, pending);
    } else if Listed(s.queues, key) != [] {
      QueueStarts(s, pid, key);
    } else {
      KeyIsReleased(s, pid, key);
    }
  }

  /**
   The end of a run: its turn is finished. If it was a queued turn and it failed,
   its invocation goes on to the notice with the same line; otherwise the next in
   line starts.
   */
  lemma {:induction false} ReturnReadsOff(s: State, pid: nat, failed: bool)
    requires pid in s.procs && !s.procs[pid].phase.Notifying?
    ensures var p, after := s.procs[pid], Step(s, RunEnds(pid, failed));
            && after.finished == s.finished + {p.phase.turn.ticket}
            && if p.phase.Draining? && failed
               then after == s.(finished := after.finished,
                                procs := s.procs[pid := Proc(p.key, Notifying(p.phase.pending))])
               else NextStarts(s, after, pid, p.key, if p.phase.Draining? then p.phase.pending else [])
  {
    var p := s.procs[pid];
    var s1 := s.(finished := s.finished + {p.phase.turn.ticket});
    if !(p.phase.Draining? && failed) {
      DrainReadsOff(s1, pid, p.key, if p.phase.Draining? then p.phase.pending else []);
    }
  }

  /** After the notice the next in line starts. */
  lemma {:induction false} NoticeReadsOff(s: State, pid: nat)
    requires pid in s.procs && s.procs[pid].phase.Notifying?
    ensures var p, after := s.procs[pid], Step(s, NoticeEnds(pid));
            NextStarts(s, after, pid, p.key, p.phase.pending) && after.finished == s.finished
  {
    DrainReadsOff(s, pid, s.procs[pid].key, s.procs[pid].phase.pending);
  }

  /** An arrival on a free key starts at once. */
  lemma {:induction false} FreeKeyReadsOff(s: State, pid: nat, key: Key, source: Source, text: string)
    requires pid !in s.procs && key !in s.locks
    ensures var turn, after := Turn(|s.arrivals|, source, text), Step(s, Invoke(pid, key, source, text));
            && OthersStay(s, after, pid, key)
            && after.procs == s.procs[pid := Proc(key, Own(turn))] && after.locks == s.locks[key := pid]
            && Listed(after.started, key) == Listed(s.started, key) + [turn] && after.queues == s.queues
            && after.arrivals == s.arrivals + [Arrival(key, turn)] && after.finished == s.finished
            && after.overflowed == s.overflowed && after.discarded == s.discarded
  {
  }

  /**
   On a busy key an automated arrival is discarded, and another joins the queue.
   Fifty wait at most, so one has to go when the queue is full.
   */
  lemma {:induction false} BusyKeyReadsOff(s: State, pid: nat, key: Key, source: Source, text: string)
    requires pid !in s.procs && key in s.locks
    ensures var turn, after := Turn(|s.arrivals|, source, text), Step(s, Invoke(pid, key, source, text));
            var queue := if key in s.queues then s.queues[key] else [];
            if source == Automated then
              after == s.(arrivals := s.arrivals + [Arrival(key, turn)], discarded := s.discarded + {turn.ticket})
            else
              && key in after.queues
              && after == s.(arrivals := s.arrivals + [Arrival(key, turn)],
                             queues := s.queues[key := after.queues[key]], overflowed := after.overflowed)
              && if |queue| < 50 then after.queues[key] == queue + [turn] && after.overflowed == s.overflowed
                 else |after.queues[key]| == |queue|
                      && exists t :: t in queue + [turn] && after.overflowed == s.overflowed + {t.ticket}
  {
    var turn := Turn(|s.arrivals|, source, text);
    var queue := Listed(s.queues, key);
    if source != Automated && |queue| >= 50 {
      var i := EnqueueTakesOneOut(queue, turn, HUMAN_QUEUE_MAX);
      assert (queue + [turn])[i] in queue + [turn];
    }
  }
}
