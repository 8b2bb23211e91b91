/**
 Safety of the run protocol over every interleaving: one run per key, first
 come first served, and every arrival accounted for exactly once.
 */
module RunProtocolProperties {
  import opened Options
  import opened HumanQueue
  import opened RunProtocol

  // ---------------------------------------------------------------- what is owed to the arrivals

  /**
   The books of the protocol: what arrived, the line of each key (started,
   pending and queued turns), and the tickets of the turns that were lost.
   */
  datatype Ledger = Ledger(arrivals: seq<Arrival>, line: imap<Key, seq<Turn>>,
                           overflowed: set<nat>, discarded: set<nat>)

  ghost predicate Total(l: Ledger) {
    forall k :: k in l.line
  }

  /** Turns of a key are in line in the order they arrived. */
  ghost predicate InOrder(l: Ledger)
    requires Total(l)
  {
    forall k :: Ascending(l.line[k])
  }

  /** Each arrival has its own ticket, and turns are where their arrival says. */
  ghost predicate Genuine(l: Ledger)
    requires Total(l)
  {
    && (forall i :: 0 <= i < |l.arrivals| ==> l.arrivals[i].turn.ticket == i)
    && (forall k, t :: t in l.line[k] ==> IsArrival(l, k, t))
  }

  ghost predicate IsArrival(l: Ledger, k: Key, t: Turn) {
    t.ticket < |l.arrivals| && l.arrivals[t.ticket] == Arrival(k, t)
  }

  ghost predicate InLine(l: Ledger, i: nat)
    requires Total(l) && i < |l.arrivals|
  {
    l.arrivals[i].turn in l.line[l.arrivals[i].key]
  }

  /** Exactly one of: still in line, lost to overflow, discarded as automated. */
  ghost predicate AccountedOnce(l: Ledger, i: nat)
    requires Total(l) && i < |l.arrivals|
  {
    if InLine(l, i) then i !in l.overflowed && i !in l.discarded
    else i in l.overflowed <==> i !in l.discarded
  }

  ghost predicate Accounted(l: Ledger)
    requires Total(l)
  {
    && (forall i :: 0 <= i < |l.arrivals| ==> AccountedOnce(l, i))
    && (forall i :: i in l.overflowed ==> i < |l.arrivals|)
    && (forall i :: i in l.discarded ==> i < |l.arrivals| && l.arrivals[i].turn.source.Automated?)
  }

  ghost predicate Balanced(l: Ledger) {
    Total(l) && InOrder(l) && Genuine(l) && Accounted(l)
  }

  /** A new arrival joins the end of its line. */
  ghost function Join(l: Ledger, key: Key, turn: Turn): Ledger
    requires Total(l)
  {
    l.(arrivals := l.arrivals + [Arrival(key, turn)], line := l.line[key := l.line[key] + [turn]])
  }

  /** A turn leaves its line and is counted as overflow. */
  ghost function Lose(l: Ledger, key: Key, i: nat): Ledger
    requires Total(l) && i < |l.line[key]|
  {
    l.(line := l.line[key := l.line[key][..i] + l.line[key][i + 1..]],
       overflowed := l.overflowed + {l.line[key][i].ticket})
  }

  /** An automated arrival is counted and forgotten. */
  ghost function Discard(l: Ledger, key: Key, turn: Turn): Ledger {
    l.(arrivals := l.arrivals + [Arrival(key, turn)], discarded := l.discarded + {turn.ticket})
  }

  lemma {:induction false} JoinKeepsOrder(l: Ledger, key: Key, turn: Turn)
    requires Balanced(l) && turn.ticket == |l.arrivals|
    ensures Total(Join(l, key, turn)) && InOrder(Join(l, key, turn)) && Genuine(Join(l, key, turn))
  {
    var line := l.line[key];
    forall t | t in line ensures t.ticket < turn.ticket {
      assert IsArrival(l, key, t);
    }
    assert Ascending(line + [turn]);
    var l' := Join(l, key, turn);
    forall k, t | t in l'.line[k] ensures IsArrival(l', k, t) {
      if t in l.line[k] {
        assert IsArrival(l, k, t);
      }
    }
  }

  lemma {:induction false} JoinKeepsBalance(l: Ledger, key: Key, turn: Turn)
    requires Balanced(l) && turn.ticket == |l.arrivals|
    ensures Balanced(Join(l, key, turn))
  {
    JoinKeepsOrder(l, key, turn);
    var l' := Join(l, key, turn);
    forall i | 0 <= i < |l'.arrivals| ensures AccountedOnce(l', i) {
      if i < |l.arrivals| {
        assert AccountedOnce(l, i);
        assert l.arrivals[i].turn != turn;
        assert InLine(l', i) <==> InLine(l, i);
      }
    }
  }

  lemma {:induction false} TakeOut(line: seq<Turn>, i: nat)
    requires Ascending(line) && i < |line|
    ensures Ascending(line[..i] + line[i + 1..])
    ensures forall t :: t in line[..i] + line[i + 1..] <==> t in line && t != line[i]
  {
    var r := line[..i] + line[i + 1..];
    forall t | t in line && t != line[i] ensures t in r {
      var j :| 0 <= j < |line| && line[j] == t;
      assert if j < i then r[j] == t else r[j - 1] == t;
    }
    forall j | 0 <= j < |r| ensures r[j] in line && r[j] != line[i] {
      assert r[j] == if j < i then line[j] else line[j + 1];
    }
  }

  lemma {:induction false} LoseKeepsBalance(l: Ledger, key: Key, i: nat)
    requires Balanced(l) && i < |l.line[key]|
    ensures Balanced(Lose(l, key, i))
  {
    var l', lost := Lose(l, key, i), l.line[key][i];
    TakeOut(l.line[key], i);
    assert lost in l.line[key];
    assert IsArrival(l, key, lost) && InLine(l, lost.ticket);
    forall k, t | t in l'.line[k] ensures IsArrival(l', k, t) {
      assert t in l.line[k];
      assert IsArrival(l, k, t);
    }
    forall j | 0 <= j < |l'.arrivals| ensures AccountedOnce(l', j) {
      assert AccountedOnce(l, j);
      if j != lost.ticket {
        assert l.arrivals[j].turn != lost;
        assert InLine(l', j) <==> InLine(l, j);
      }
    }
  }

  lemma {:induction false} DiscardKeepsBalance(l: Ledger, key: Key, turn: Turn)
    requires Balanced(l) && turn.ticket == |l.arrivals| && turn.source.Automated?
    ensures Balanced(Discard(l, key, turn))
  {
    var l', n := Discard(l, key, turn), |l.arrivals|;
    forall k, t | t in l'.line[k] ensures IsArrival(l', k, t) && t.ticket < n {
      assert IsArrival(l, k, t);
    }
    forall i | 0 <= i < |l'.arrivals| ensures AccountedOnce(l', i) {
      if i < n {
        assert AccountedOnce(l, i);
        assert InLine(l', i) <==> InLine(l, i);
      } else {
        assert !InLine(l', n);
      }
    }
  }

  /** A busy key's queue takes in a turn, and lets one go when it is full. */
  ghost function Offer(l: Ledger, key: Key, front: seq<Turn>, queue: seq<Turn>, turn: Turn): Ledger
    requires Total(l)
  {
    Ledger(l.arrivals + [Arrival(key, turn)],
           l.line[key := front + Enqueue(queue, turn, HUMAN_QUEUE_MAX)],
           match Dropped(queue, turn, HUMAN_QUEUE_MAX)
           case None => l.overflowed
           case Some(d) => l.overflowed + {d.ticket},
           l.discarded)
  }

  lemma {:induction false} TakeOutOfTail(front: seq<Turn>, tail: seq<Turn>, i: nat)
    requires i < |tail|
    ensures (front + tail)[|front| + i] == tail[i]
    ensures (front + tail)[..|front| + i] + (front + tail)[|front| + i + 1..] == front + (tail[..i] + tail[i + 1..])
  {
  }

  lemma {:induction false} OfferIsLose(l: Ledger, key: Key, front: seq<Turn>, queue: seq<Turn>,
          turn: Turn) returns (i: nat)
    requires Total(l) && l.line[key] == front + queue && |queue| >= HUMAN_QUEUE_MAX
    ensures i < |Join(l, key, turn).line[key]|
    ensures Offer(l, key, front, queue, turn) == Lose(Join(l, key, turn), key, i)
  {
    var j := EnqueueTakesOneOut(queue, turn, HUMAN_QUEUE_MAX);
    TakeOutOfTail(front, queue + [turn], j);
    i := |front| + j;
    assert Join(l, key, turn).line[key] == front + (queue + [turn]);
  }

  lemma {:induction false} OfferKeepsBalance(l: Ledger, key: Key, front: seq<Turn>, queue: seq<Turn>, turn: Turn)
    requires Balanced(l) && turn.ticket == |l.arrivals| && l.line[key] == front + queue
    ensures Balanced(Offer(l, key, front, queue, turn))
  {
    JoinKeepsBalance(l, key, turn);
    if |queue| < HUMAN_QUEUE_MAX {
      assert front + queue + [turn] == front + (queue + [turn]);
      assert Offer(l, key, front, queue, turn) == Join(l, key, turn);
    } else {
      var i := OfferIsLose(l, key, front, queue, turn);
      LoseKeepsBalance(Join(l, key, turn), key, i);
    }
  }

  // ---------------------------------------------------------------- the invariant

  function PendingOf(phase: Phase): seq<Turn> {
    if phase.Own? then [] else phase.pending
  }

  /** The turns an owner has taken off the queue and not started yet. */
  function Pending(s: State, key: Key): seq<Turn> {
    if key in s.locks && s.locks[key] in s.procs then PendingOf(s.procs[s.locks[key]].phase) else []
  }

  /** All turns of a key that were not lost: started, pending, queued. */
  function Line(s: State, key: Key): seq<Turn> {
    Listed(s.started, key) + Pending(s, key) + Listed(s.queues, key)
  }

  ghost function Books(s: State): Ledger {
    Ledger(s.arrivals, imap k | true :: Line(s, k), s.overflowed, s.discarded)
  }

  /** The flag of a key is busy exactly while one invocation owns it. */
  ghost predicate OneOwner(s: State) {
    && (forall k :: k in s.locks ==> s.locks[k] in s.procs && s.procs[s.locks[k]].key == k)
    && (forall p :: p in s.procs ==> s.procs[p].key in s.locks && s.locks[s.procs[p].key] == p)
  }

  ghost predicate IdleHasNoQueue(s: State) {
    forall k :: k !in s.locks ==> Listed(s.queues, k) == []
  }

  ghost predicate Inv(s: State) {
    OneOwner(s) && IdleHasNoQueue(s) && Balanced(Books(s))
  }

  // ---------------------------------------------------------------- steps that only move turns along

  ghost predicate SameLines(s: State, s': State) {
    && (forall k :: Line(s', k) == Line(s, k))
    && s'.arrivals == s.arrivals && s'.overflowed == s.overflowed && s'.discarded == s.discarded
  }

  lemma {:induction false} SameLinesSameBooks(s: State, s': State)
    requires SameLines(s, s')
    ensures Books(s') == Books(s)
  {
  }

  /** The owner that is at a loop head, with its pending turns still to run. */
  ghost predicate AtLoopHead(s: State, pid: nat, key: Key, pending: seq<Turn>) {
    pid in s.procs && s.procs[pid].key == key && Pending(s, key) == pending
  }

  lemma {:induction false} LineOfStart(s: State, pid: nat, key: Key, turn: Turn, rest: seq<Turn>)
    requires OneOwner(s) && pid in s.procs && s.procs[pid].key == key
    ensures var s' := Start(s, pid, key, turn, Draining(turn, rest));
            && OneOwner(s')
            && Line(s', key) == Listed(s.started, key) + [turn] + rest + Listed(s.queues, key)
            && (forall k :: k != key ==> Line(s', k) == Line(s, k))
  {
    var s' := Start(s, pid, key, turn, Draining(turn, rest));
    forall k | k != key ensures Line(s', k) == Line(s, k) {
      assert k in s.locks ==> s.locks[k] != pid;
    }
  }

  lemma {:induction false} MoveHead(done: seq<Turn>, todo: seq<Turn>, later: seq<Turn>)
    requires todo != []
    ensures done + [todo[0]] + todo[1..] + later == done + todo + later
  {
  }

  lemma {:induction false} NextKeepsLines(s: State, pid: nat, key: Key, pending: seq<Turn>)
    requires OneOwner(s) && AtLoopHead(s, pid, key, pending) && pending != []
    ensures var s' := Start(s, pid, key, pending[0], Draining(pending[0], pending[1..]));
            SameLines(s, s') && OneOwner(s')
  {
    LineOfStart(s, pid, key, pending[0], pending[1..]);
    MoveHead(Listed(s.started, key), pending, Listed(s.queues, key));
  }

  lemma {:induction false} RefillKeepsLines(s: State, pid: nat, key: Key)
    requires OneOwner(s) && AtLoopHead(s, pid, key, []) && Listed(s.queues, key) != []
    ensures var queue := Listed(s.queues, key);
            var s' := Start(s.(queues := s.queues[key := []]), pid, key, queue[0], Draining(queue[0], queue[1..]));
            SameLines(s, s') && OneOwner(s')
  {
    var queue := Listed(s.queues, key);
    var s1 := s.(queues := s.queues[key := []]);
    LineOfStart(s1, pid, key, queue[0], queue[1..]);
    MoveHead(Listed(s.started, key), queue, []);
    assert Line(s, key) == Listed(s.started, key) + queue;
    forall k | k != key ensures Line(s1, k) == Line(s, k) {
    }
  }

  /** From one loop head to the next await no line changes. */
  lemma {:induction false} DrainKeepsLines(s: State, pid: nat, key: Key, pending: seq<Turn>)
    requires OneOwner(s) && AtLoopHead(s, pid, key, pending)
    requires IdleHasNoQueue(s)
    ensures var s' := Drain(s, pid, key, pending);
            SameLines(s, s') && OneOwner(s') && IdleHasNoQueue(s')
  {
    if pending != [] {
      NextKeepsLines(s, pid, key, pending);
    } else if Listed(s.queues, key) != [] {
      RefillKeepsLines(s, pid, key);
    } else {
      ReleaseKeepsLines(s, pid, key);
    }
  }

  lemma {:induction false} ReleaseKeepsLines(s: State, pid: nat, key: Key)
    requires OneOwner(s) && AtLoopHead(s, pid, key, []) && Listed(s.queues, key) == []
    requires IdleHasNoQueue(s)
    ensures var s' := Release(s.(queues := s.queues - {key}), pid, key);
            SameLines(s, s') && OneOwner(s') && IdleHasNoQueue(s')
  {
    var s' := Release(s.(queues := s.queues - {key}), pid, key);
    forall k ensures Line(s', k) == Line(s, k) {
      if k != key && k in s.locks {
        assert s.locks[k] != pid;
      }
    }
  }

  lemma {:induction false} DrainKeepsInv(s: State, pid: nat, key: Key, pending: seq<Turn>)
    requires Inv(s) && AtLoopHead(s, pid, key, pending)
    ensures Inv(Drain(s, pid, key, pending))
  {
    DrainKeepsLines(s, pid, key, pending);
    SameLinesSameBooks(s, Drain(s, pid, key, pending));
  }

  lemma {:induction false} ReturnKeepsInv(s: State, pid: nat, failed: bool)
    requires Inv(s) && pid in s.procs && !s.procs[pid].phase.Notifying?
    ensures Inv(RunEndsStep(s, pid, failed))
  {
    var key, phase := s.procs[pid].key, s.procs[pid].phase;
    var s1 := s.(finished := s.finished + {phase.turn.ticket});
    assert SameLines(s, s1);
    SameLinesSameBooks(s, s1);
    if phase.Draining? && failed {
      var s2 := s1.(procs := s1.procs[pid := Proc(key, Notifying(phase.pending))]);
      assert SameLines(s1, s2);
      SameLinesSameBooks(s1, s2);
    } else {
      DrainKeepsInv(s1, pid, key, PendingOf(phase));
    }
  }

  // ---------------------------------------------------------------- steps that add an arrival

  lemma {:induction false} BooksAre(s: State, l: Ledger)
    requires s.arrivals == l.arrivals && s.overflowed == l.overflowed && s.discarded == l.discarded
    requires forall k :: k in l.line && l.line[k] == Line(s, k)
    ensures Books(s) == l
  {
  }

  lemma {:induction false} ClaimBooks(s: State, pid: nat, key: Key, source: Source, text: string)
    requires OneOwner(s) && IdleHasNoQueue(s) && pid !in s.procs && key !in s.locks
    ensures Books(InvokeStep(s, pid, key, source, text)) == Join(Books(s), key, Turn(|s.arrivals|, source, text))
  {
    var turn := Turn(|s.arrivals|, source, text);
    var s' := InvokeStep(s, pid, key, source, text);
    forall k ensures Line(s', k) == if k == key then Line(s, key) + [turn] else Line(s, k) {
      if k == key {
        assert Line(s, key) == Listed(s.started, key);
        assert Line(s', key) == Listed(s.started, key) + [turn];
      } else {
        assert k in s.locks ==> s.locks[k] in s.procs;
      }
    }
    BooksAre(s', Join(Books(s), key, turn));
  }

  lemma {:induction false} ClaimOwner(s: State, pid: nat, key: Key, source: Source, text: string)
    requires OneOwner(s) && IdleHasNoQueue(s) && pid !in s.procs && key !in s.locks
    ensures var s' := InvokeStep(s, pid, key, source, text);
            OneOwner(s') && IdleHasNoQueue(s')
  {
    var s' := InvokeStep(s, pid, key, source, text);
    forall k | k in s'.locks ensures s'.locks[k] in s'.procs && s'.procs[s'.locks[k]].key == k {
      assert k != key ==> s.locks[k] in s.procs && s.locks[k] != pid;
    }
  }

  lemma {:induction false} ClaimKeepsInv(s: State, pid: nat, key: Key, source: Source, text: string)
    requires Inv(s) && pid !in s.procs && key !in s.locks
    ensures Inv(InvokeStep(s, pid, key, source, text))
  {
    ClaimBooks(s, pid, key, source, text);
    ClaimOwner(s, pid, key, source, text);
    JoinKeepsBalance(Books(s), key, Turn(|s.arrivals|, source, text));
  }

  lemma {:induction false} DiscardKeepsInv(s: State, pid: nat, key: Key, text: string)
    requires Inv(s) && key in s.locks
    ensures Inv(InvokeStep(s, pid, key, Automated, text))
  {
    var turn := Turn(|s.arrivals|, Automated, text);
    var s' := InvokeStep(s, pid, key, Automated, text);
    assert forall k :: Line(s', k) == Line(s, k);
    assert Books(s') == Discard(Books(s), key, turn);
    DiscardKeepsBalance(Books(s), key, turn);
  }

  /** The lines after a busy key's queue has taken in a turn. */
  lemma {:induction false} QueueLines(s: State, pid: nat, key: Key, source: Source, text: string)
    requires key in s.locks && !source.Automated?
    ensures var s' := InvokeStep(s, pid, key, source, text);
            var queue := Enqueue(Listed(s.queues, key), Turn(|s.arrivals|, source, text), HUMAN_QUEUE_MAX);
            && Line(s', key) == Listed(s.started, key) + Pending(s, key) + queue
            && (forall k :: k != key ==> Line(s', k) == Line(s, k))
            && s'.locks == s.locks && s'.procs == s.procs
            && (forall k :: k != key ==> Listed(s'.queues, k) == Listed(s.queues, k))
  {
  }

  lemma {:induction false} QueueKeepsInv(s: State, pid: nat, key: Key, source: Source, text: string)
    requires Inv(s) && key in s.locks && !source.Automated?
    ensures Inv(InvokeStep(s, pid, key, source, text))
  {
    var turn := Turn(|s.arrivals|, source, text);
    var queue, front := Listed(s.queues, key), Listed(s.started, key) + Pending(s, key);
    QueueLines(s, pid, key, source, text);
    OfferKeepsBalance(Books(s), key, front, queue, turn);
    BooksAre(InvokeStep(s, pid, key, source, text), Offer(Books(s), key, front, queue, turn));
  }

  lemma {:induction false} StepKeepsInv(s: State, e: Event)
    requires Inv(s)
    ensures Inv(Step(s, e))
  {
    match e
    case Invoke(pid, key, source, text) =>
      if pid !in s.procs {
        if key !in s.locks {
          ClaimKeepsInv(s, pid, key, source, text);
        } else if source.Automated? {
          DiscardKeepsInv(s, pid, key, text);
        } else {
          QueueKeepsInv(s, pid, key, source, text);
        }
      }
    case RunEnds(pid, failed) =>
      if pid in s.procs && !s.procs[pid].phase.Notifying? {
        ReturnKeepsInv(s, pid, failed);
      }
    case NoticeEnds(pid) =>
      if pid in s.procs && s.procs[pid].phase.Notifying? {
        DrainKeepsInv(s, pid, s.procs[pid].key, s.procs[pid].phase.pending);
      }
  }

  // ---------------------------------------------------------------- what has finished

  ghost predicate IsRunning(s: State, key: Key) {
    key in s.locks && s.locks[key] in s.procs && !s.procs[s.locks[key]].phase.Notifying?
  }

  /** The turn a busy key is running, which is the last one it started. */
  function Current(s: State, key: Key): Turn
    requires IsRunning(s, key)
  {
    s.procs[s.locks[key]].phase.turn
  }

  /** Everything a key started has finished, but for the turn it is running. */
  ghost predicate KeySettled(s: State, key: Key, running: bool) {
    var started := Listed(s.started, key);
    forall i :: 0 <= i < |started| ==>
      (started[i].ticket in s.finished <==> !(running && i == |started| - 1))
  }

  ghost predicate RunsItsLast(s: State, key: Key) {
    IsRunning(s, key) ==>
      Listed(s.started, key) != [] && Listed(s.started, key)[|Listed(s.started, key)| - 1] == Current(s, key)
  }

  ghost predicate OnlyStartedFinish(s: State) {
    forall n :: n in s.finished ==>
      n < |s.arrivals| && s.arrivals[n].turn in Listed(s.started, s.arrivals[n].key)
  }

  ghost predicate Settled(s: State) {
    && (forall k :: KeySettled(s, k, IsRunning(s, k)) && RunsItsLast(s, k))
    && OnlyStartedFinish(s)
  }

  /** At a loop head the owner's own turn has finished as well. */
  ghost predicate SettledAtHead(s: State, key: Key) {
    && (forall k :: k != key ==> KeySettled(s, k, IsRunning(s, k)) && RunsItsLast(s, k))
    && KeySettled(s, key, false)
    && OnlyStartedFinish(s)
  }

  lemma {:induction false} StartedAreGenuine(s: State, key: Key, t: Turn)
    requires Inv(s) && t in Line(s, key)
    ensures t.ticket < |s.arrivals| && s.arrivals[t.ticket] == Arrival(key, t)
  {
    assert t in Books(s).line[key];
    assert IsArrival(Books(s), key, t);
  }

  lemma {:induction false} AscendingApart(front: seq<Turn>, back: seq<Turn>, t: Turn)
    requires Ascending(front + back) && t in back
    ensures t !in front
  {
    var j :| 0 <= j < |back| && back[j] == t;
    assert (front + back)[|front| + j] == t;
    forall i | 0 <= i < |front| ensures front[i] != t {
      assert (front + back)[i] == front[i];
    }
  }

  lemma {:induction false} WaitingIsNotFinished(s: State, key: Key, t: Turn)
    requires Inv(s) && OnlyStartedFinish(s)
    requires t in Pending(s, key) + Listed(s.queues, key)
    ensures t.ticket !in s.finished
  {
    var started, rest := Listed(s.started, key), Pending(s, key) + Listed(s.queues, key);
    assert Books(s).line[key] == started + rest;
    AscendingApart(started, rest, t);
    StartedAreGenuine(s, key, t);
  }

  lemma {:induction false} SettledIgnoresQueues(s: State, key: Key, queues: map<Key, seq<Turn>>)
    requires SettledAtHead(s, key)
    ensures SettledAtHead(s.(queues := queues), key)
  {
    var s' := s.(queues := queues);
    forall k | k != key ensures KeySettled(s', k, IsRunning(s', k)) && RunsItsLast(s', k) {
      assert KeySettled(s, k, IsRunning(s, k)) && RunsItsLast(s, k);
    }
  }

  lemma {:induction false} StartSettles(s: State, pid: nat, key: Key, turn: Turn, phase: Phase)
    requires SettledAtHead(s, key) && turn.ticket !in s.finished
    requires !phase.Notifying? && phase.turn == turn
    requires key in s.locks && s.locks[key] == pid
    requires forall k :: k in s.locks && k != key ==> s.locks[k] != pid
    ensures Settled(Start(s, pid, key, turn, phase))
  {
    var s' := Start(s, pid, key, turn, phase);
    forall k ensures KeySettled(s', k, IsRunning(s', k)) && RunsItsLast(s', k) {
      if k != key {
        assert KeySettled(s, k, IsRunning(s, k)) && RunsItsLast(s, k);
        assert IsRunning(s', k) <==> IsRunning(s, k);
      }
    }
  }

  lemma {:induction false} ReleaseSettles(s: State, pid: nat, key: Key)
    requires SettledAtHead(s, key) && key in s.locks && s.locks[key] == pid
    requires forall k :: k in s.locks && k != key ==> s.locks[k] != pid
    ensures Settled(Release(s.(queues := s.queues - {key}), pid, key))
  {
    var s' := Release(s.(queues := s.queues - {key}), pid, key);
    forall k ensures KeySettled(s', k, IsRunning(s', k)) && RunsItsLast(s', k) {
      if k != key {
        assert KeySettled(s, k, IsRunning(s, k)) && RunsItsLast(s, k);
        assert IsRunning(s', k) <==> IsRunning(s, k);
      }
    }
  }

  lemma {:induction false} DrainSettles(s: State, pid: nat, key: Key, pending: seq<Turn>)
    requires Inv(s) && AtLoopHead(s, pid, key, pending) && SettledAtHead(s, key)
    ensures Settled(Drain(s, pid, key, pending))
  {
    var queue := Listed(s.queues, key);
    assert s.locks[key] == pid;
    if pending != [] {
      WaitingIsNotFinished(s, key, pending[0]);
      StartSettles(s, pid, key, pending[0], Draining(pending[0], pending[1..]));
    } else if queue != [] {
      WaitingIsNotFinished(s, key, queue[0]);
      SettledIgnoresQueues(s, key, s.queues[key := []]);
      StartSettles(s.(queues := s.queues[key := []]), pid, key, queue[0], Draining(queue[0], queue[1..]));
    } else {
      ReleaseSettles(s, pid, key);
    }
  }

  /** The run of the current turn ends: it is the only one that was unfinished. */
  lemma {:induction false} FinishSettles(s: State, key: Key)
    requires Inv(s) && Settled(s) && IsRunning(s, key)
    ensures SettledAtHead(s.(finished := s.finished + {Current(s, key).ticket}), key)
  {
    var turn := Current(s, key);
    var s1 := s.(finished := s.finished + {turn.ticket});
    assert RunsItsLast(s, key) && KeySettled(s, key, true);
    assert turn in Line(s, key);
    StartedAreGenuine(s, key, turn);
    forall k | k != key ensures KeySettled(s1, k, IsRunning(s1, k)) && RunsItsLast(s1, k) {
      assert KeySettled(s, k, IsRunning(s, k)) && RunsItsLast(s, k);
      var started := Listed(s.started, k);
      forall i | 0 <= i < |started| ensures started[i].ticket != turn.ticket {
        assert started[i] in Line(s, k);
        StartedAreGenuine(s, k, started[i]);
      }
    }
  }

  lemma {:induction false} ReturnSettles(s: State, pid: nat, failed: bool)
    requires Inv(s) && Settled(s) && pid in s.procs && !s.procs[pid].phase.Notifying?
    ensures Settled(RunEndsStep(s, pid, failed))
  {
    var key, phase := s.procs[pid].key, s.procs[pid].phase;
    assert s.locks[key] == pid;
    FinishSettles(s, key);
    var s1 := s.(finished := s.finished + {phase.turn.ticket});
    if phase.Draining? && failed {
      NoticeSettles(s1, pid, key, phase.pending);
    } else {
      assert SameLines(s, s1);
      SameLinesSameBooks(s, s1);
      DrainSettles(s1, pid, key, PendingOf(phase));
    }
  }

  lemma {:induction false} NoticeSettles(s: State, pid: nat, key: Key, pending: seq<Turn>)
    requires SettledAtHead(s, key) && key in s.locks && s.locks[key] == pid
    requires forall k :: k in s.locks && k != key ==> s.locks[k] != pid
    ensures Settled(s.(procs := s.procs[pid := Proc(key, Notifying(pending))]))
  {
    var s' := s.(procs := s.procs[pid := Proc(key, Notifying(pending))]);
    forall k ensures KeySettled(s', k, IsRunning(s', k)) && RunsItsLast(s', k) {
      if k != key {
        assert KeySettled(s, k, IsRunning(s, k)) && RunsItsLast(s, k);
        assert IsRunning(s', k) <==> IsRunning(s, k);
      }
    }
  }

  /** A fresh arrival's claim of an idle key, before its run is started. */
  function Claimed(s: State, pid: nat, key: Key, turn: Turn): State {
    s.(arrivals := s.arrivals + [Arrival(key, turn)], locks := s.locks[key := pid])
  }

  lemma {:induction false} ClaimKeepsOthers(s: State, pid: nat, key: Key, turn: Turn, k: Key)
    requires KeySettled(s, k, IsRunning(s, k)) && RunsItsLast(s, k) && k != key
    ensures KeySettled(Claimed(s, pid, key, turn), k, IsRunning(Claimed(s, pid, key, turn), k))
    ensures RunsItsLast(Claimed(s, pid, key, turn), k)
  {
  }

  lemma {:induction false} ClaimIsAtHead(s: State, pid: nat, key: Key, turn: Turn)
    requires Settled(s) && key !in s.locks
    ensures SettledAtHead(Claimed(s, pid, key, turn), key)
  {
    var s1 := Claimed(s, pid, key, turn);
    assert KeySettled(s, key, IsRunning(s, key));
    forall k | k != key ensures KeySettled(s1, k, IsRunning(s1, k)) && RunsItsLast(s1, k) {
      assert KeySettled(s, k, IsRunning(s, k)) && RunsItsLast(s, k);
      ClaimKeepsOthers(s, pid, key, turn, k);
    }
  }

  lemma {:induction false} ClaimIsTheOnlyOne(s: State, pid: nat, key: Key, turn: Turn)
    requires Inv(s) && pid !in s.procs
    ensures forall k :: k in Claimed(s, pid, key, turn).locks && k != key ==> Claimed(s, pid, key, turn).locks[k] != pid
  {
  }

  lemma {:induction false} ClaimSettles(s: State, pid: nat, key: Key, source: Source, text: string)
    requires Inv(s) && Settled(s) && pid !in s.procs && key !in s.locks
    ensures Settled(InvokeStep(s, pid, key, source, text))
  {
    var turn := Turn(|s.arrivals|, source, text);
    assert turn.ticket !in s.finished;
    ClaimIsAtHead(s, pid, key, turn);
    ClaimIsTheOnlyOne(s, pid, key, turn);
    StartSettles(Claimed(s, pid, key, turn), pid, key, turn, Own(turn));
  }

  /** What changes neither flags nor runs leaves what has finished as it is. */
  lemma {:induction false} SameRunsSettled(s: State, s': State)
    requires Settled(s)
    requires s'.locks == s.locks && s'.procs == s.procs && s'.started == s.started && s'.finished == s.finished
    requires s.arrivals <= s'.arrivals
    ensures Settled(s')
  {
    forall k ensures KeySettled(s', k, IsRunning(s', k)) && RunsItsLast(s', k) {
      assert KeySettled(s, k, IsRunning(s, k)) && RunsItsLast(s, k);
    }
  }

  lemma {:induction false} StepSettles(s: State, e: Event)
    requires Inv(s) && Settled(s)
    ensures Settled(Step(s, e))
  {
    match e
    case Invoke(pid, key, source, text) =>
      if pid !in s.procs {
        if key !in s.locks {
          ClaimSettles(s, pid, key, source, text);
        } else {
          SameRunsSettled(s, Step(s, e));
        }
      }
    case RunEnds(pid, failed) =>
      if pid in s.procs && !s.procs[pid].phase.Notifying? {
        ReturnSettles(s, pid, failed);
      }
    case NoticeEnds(pid) =>
      if pid in s.procs && s.procs[pid].phase.Notifying? {
        var key := s.procs[pid].key;
        assert KeySettled(s, key, IsRunning(s, key));
        DrainSettles(s, pid, key, s.procs[pid].phase.pending);
      }
  }

  // ---------------------------------------------------------------- main results

  lemma {:induction false} RunKeepsInvariant(events: seq<Event>)
    ensures Inv(After(events)) && Settled(After(events))
  {
    if events == [] {
      assert forall k :: Line(Initial, k) == [];
    } else {
      RunKeepsInvariant(events[..|events| - 1]);
      StepKeepsInv(After(events[..|events| - 1]), events[|events| - 1]);
      StepSettles(After(events[..|events| - 1]), events[|events| - 1]);
    }
  }

  /** In every interleaving at most one invocation of a key is under way. */
  lemma {:induction false} OneRunPerKey(events: seq<Event>, p: nat, q: nat)
    requires p in After(events).procs && q in After(events).procs
    requires After(events).procs[p].key == After(events).procs[q].key
    ensures p == q
  {
    RunKeepsInvariant(events);
  }

  /** Turns that wait are never stranded: a non-empty queue means a busy key. */
  lemma {:induction false} NoTurnIsStranded(events: seq<Event>, key: Key)
    requires Listed(After(events).queues, key) != []
    ensures key in After(events).locks && After(events).locks[key] in After(events).procs
  {
    RunKeepsInvariant(events);
  }

  lemma {:induction false} PrefixAscends(front: seq<Turn>, back: seq<Turn>)
    requires Ascending(front + back)
    ensures Ascending(front)
  {
    assert forall i :: 0 <= i < |front| ==> (front + back)[i] == front[i];
  }

  lemma {:induction false} StartedAscends(s: State, key: Key)
    requires Inv(s)
    ensures Ascending(Listed(s.started, key))
  {
    var rest := Pending(s, key) + Listed(s.queues, key);
    assert Books(s).line[key] == Listed(s.started, key) + rest;
    PrefixAscends(Listed(s.started, key), rest);
  }

  /** The runs of a key start in the order in which their turns arrived. */
  lemma {:induction false} FirstComeFirstServed(events: seq<Event>, key: Key)
    ensures Ascending(Listed(After(events).started, key))
  {
    RunKeepsInvariant(events);
    StartedAscends(After(events), key);
  }

  /** What can have become of an arrival. */
  datatype Fate = Finished | Running | Waiting | Overflowed | Discarded

  ghost predicate HasFate(s: State, a: Arrival, fate: Fate) {
    match fate
    case Finished => a.turn.ticket in s.finished
    case Running => IsRunning(s, a.key) && Current(s, a.key) == a.turn
    case Waiting => a.turn in Pending(s, a.key) + Listed(s.queues, a.key)
    case Overflowed => a.turn.ticket in s.overflowed
    case Discarded => a.turn.ticket in s.discarded
  }

  lemma {:induction false} WaitingIsNotStarted(s: State, key: Key, t: Turn)
    requires Inv(s) && t in Pending(s, key) + Listed(s.queues, key)
    ensures t !in Listed(s.started, key)
  {
    var started, rest := Listed(s.started, key), Pending(s, key) + Listed(s.queues, key);
    assert Books(s).line[key] == started + rest;
    AscendingApart(started, rest, t);
  }

  lemma {:induction false} StartedHasFate(s: State, key: Key, t: Turn)
    requires Inv(s) && Settled(s) && t in Listed(s.started, key)
    ensures HasFate(s, Arrival(key, t), Finished) <==> !HasFate(s, Arrival(key, t), Running)
  {
    var started := Listed(s.started, key);
    assert KeySettled(s, key, IsRunning(s, key)) && RunsItsLast(s, key);
    StartedAscends(s, key);
    var i :| 0 <= i < |started| && started[i] == t;
    if IsRunning(s, key) {
      assert i < |started| - 1 ==> started[i].ticket < started[|started| - 1].ticket;
    }
  }

  lemma {:induction false} UnstartedHasFate(s: State, key: Key, t: Turn)
    requires Inv(s) && Settled(s) && t !in Listed(s.started, key)
    requires t.ticket < |s.arrivals| && s.arrivals[t.ticket] == Arrival(key, t)
    ensures !HasFate(s, Arrival(key, t), Finished) && !HasFate(s, Arrival(key, t), Running)
  {
    assert RunsItsLast(s, key);
  }

  /**
   Every arrival is accounted for exactly once, in every interleaving: its run
   has finished or is under way, or it waits its turn, or it was pushed out of
   a full queue, or it was an automated snapshot of a busy key.
   */
  lemma {:induction false} EveryArrivalHasOneFate(events: seq<Event>, i: nat) returns (fate: Fate)
    requires i < |After(events).arrivals|
    ensures var s := After(events);
            HasFate(s, s.arrivals[i], fate) &&
            (forall f :: HasFate(s, s.arrivals[i], f) ==> f == fate) &&
            (fate.Discarded? ==> s.arrivals[i].turn.source.Automated?)
  {
    RunKeepsInvariant(events);
    var s := After(events);
    fate := FateOf(s, i);
  }

  lemma {:induction false} FateOf(s: State, i: nat) returns (fate: Fate)
    requires Inv(s) && Settled(s) && i < |s.arrivals|
    ensures HasFate(s, s.arrivals[i], fate)
    ensures forall f :: HasFate(s, s.arrivals[i], f) ==> f == fate
    ensures fate.Discarded? ==> s.arrivals[i].turn.source.Automated?
  {
    var a := s.arrivals[i];
    assert a.turn.ticket == i;
    assert AccountedOnce(Books(s), i);
    assert Books(s).line[a.key] == Listed(s.started, a.key) + (Pending(s, a.key) + Listed(s.queues, a.key));
    if a.turn in Listed(s.started, a.key) {
      StartedHasFate(s, a.key, a.turn);
      assert a.turn !in Pending(s, a.key) + Listed(s.queues, a.key) by {
        if a.turn in Pending(s, a.key) + Listed(s.queues, a.key) {
          WaitingIsNotStarted(s, a.key, a.turn);
        }
      }
      fate := if i in s.finished then Finished else Running;
    } else {
      UnstartedHasFate(s, a.key, a.turn);
      fate := if InLine(Books(s), i) then Waiting else if i in s.overflowed then Overflowed else Discarded;
    }
  }

  /** Once a key is idle, nothing that arrived for it is still owed a run. */
  lemma {:induction false} IdleMeansServed(events: seq<Event>, i: nat)
    requires i < |After(events).arrivals| && After(events).arrivals[i].key !in After(events).locks
    ensures var s := After(events);
            i in s.finished || i in s.overflowed || i in s.discarded
  {
    var fate := EveryArrivalHasOneFate(events, i);
    RunKeepsInvariant(events);
    var s := After(events);
    assert s.arrivals[i].turn.ticket == i;
  }
}
