/**
 The bounded queue of turns that arrive while the Foreman is busy
 (_enqueue_human_turn in backend/foreman/runner.py). At capacity the oldest
 GitHub batch makes room first, GitHub work never displaces human input, and an
 all-human queue drops its oldest turn.
 */
module HumanQueue {
  import opened Options

  const HUMAN_QUEUE_MAX := 50

  /** Where an invocation came from; only the first two kinds are ever queued. */
  datatype Source = Human | GitHub | Automated

  datatype Turn = Turn(ticket: nat, source: Source, text: string)

  // ---------------------------------------------------------------- specification

  function WithoutFirstGitHub(queue: seq<Turn>): seq<Turn> {
    if queue == [] then []
    else if queue[0].source.GitHub? then queue[1..]
    else [queue[0]] + WithoutFirstGitHub(queue[1..])
  }

  predicate HasGitHub(queue: seq<Turn>) {
    exists t :: t in queue && t.source.GitHub?
  }

  function Enqueue(queue: seq<Turn>, turn: Turn, max: nat): seq<Turn>
    requires max > 0
  {
    if |queue| < max then queue + [turn]
    else if HasGitHub(queue) then WithoutFirstGitHub(queue) + [turn]
    else if turn.source.GitHub? then queue
    else queue[1..] + [turn]
  }

  function FirstGitHub(queue: seq<Turn>): Turn
    requires HasGitHub(queue)
  {
    if queue[0].source.GitHub? then queue[0] else FirstGitHub(queue[1..])
  }

  /** The turn that has to go when `turn` arrives, possibly itself. */
  function Dropped(queue: seq<Turn>, turn: Turn, max: nat): Option<Turn>
    requires max > 0
  {
    if |queue| < max then None
    else if HasGitHub(queue) then Some(FirstGitHub(queue))
    else if turn.source.GitHub? then Some(turn)
    else Some(queue[0])
  }

  /** The queue after a whole sequence of arrivals. */
  function EnqueueAll(queue: seq<Turn>, arrivals: seq<Turn>, max: nat): seq<Turn>
    requires max > 0
  {
    if arrivals == [] then queue
    else Enqueue(EnqueueAll(queue, arrivals[..|arrivals| - 1], max), arrivals[|arrivals| - 1], max)
  }

  function Humans(turns: seq<Turn>): (n: nat)
    ensures n <= |turns|
  {
    if turns == [] then 0
    else Humans(turns[..|turns| - 1]) + (if turns[|turns| - 1].source.GitHub? then 0 else 1)
  }

  function GitHubs(turns: seq<Turn>): nat {
    |turns| - Humans(turns)
  }

  /** In arrival order, the last `h` turns of humans and the last `g` of GitHub. */
  function KeepLast(arrivals: seq<Turn>, h: nat, g: nat): seq<Turn> {
    if arrivals == [] then []
    else
      var rest, last := arrivals[..|arrivals| - 1], arrivals[|arrivals| - 1];
      if last.source.GitHub? then
        if g > 0 then KeepLast(rest, h, g - 1) + [last] else KeepLast(rest, h, 0)
      else
        if h > 0 then KeepLast(rest, h - 1, g) + [last] else KeepLast(rest, 0, g)
  }

  // ---------------------------------------------------------------- the code

  class Queue {
    var turns: seq<Turn>
    const max: nat

    constructor (max: nat)
      ensures turns == [] && this.max == max
    {
      turns := [];
      this.max := max;
    }

    /** _enqueue_human_turn; `dropped` is the turn that had to go, if any. */
    method EnqueueHumanTurn(turn: Turn) returns (dropped: Option<Turn>)
      requires max > 0
      modifies this`turns
      ensures turns == Enqueue(old(turns), turn, max)
      ensures dropped == Dropped(old(turns), turn, max)
    {
      dropped := None;
      if |turns| >= max {
        var i := OldestGitHub();
        if i < |turns| {
          dropped := Some(turns[i]);
          RemoveFirstGitHub(turns, i);
          turns := turns[..i] + turns[i + 1..];
        } else if turn.source.GitHub? {
          dropped := Some(turn);
          return;
        } else {
          dropped := Some(turns[0]);
          turns := turns[1..];
        }
      }
      turns := turns + [turn];
    }

    /** The position of the oldest GitHub turn, or the length of the queue. */
    method OldestGitHub() returns (i: nat)
      ensures i <= |turns|
      ensures i < |turns| ==> turns[i].source.GitHub?
      ensures forall k :: 0 <= k < i ==> !turns[k].source.GitHub?
    {
      i := 0;
      while i < |turns| && !turns[i].source.GitHub?
        invariant 0 <= i <= |turns|
        invariant forall k :: 0 <= k < i ==> !turns[k].source.GitHub?
      {
        i := i + 1;
      }
    }
  }

  lemma {:induction false} RemoveFirstGitHub(queue: seq<Turn>, i: nat)
    requires i < |queue| && queue[i].source.GitHub?
    requires forall k :: 0 <= k < i ==> !queue[k].source.GitHub?
    ensures WithoutFirstGitHub(queue) == queue[..i] + queue[i + 1..]
    ensures HasGitHub(queue) && FirstGitHub(queue) == queue[i]
  {
    assert queue[i] in queue;
    if i > 0 {
      RemoveFirstGitHub(queue[1..], i - 1);
      assert queue[..i] + queue[i + 1..] == [queue[0]] + (queue[1..][..i - 1] + queue[1..][i..]);
    }
  }

  lemma {:induction false} WithoutFirstGitHubLosesOne(queue: seq<Turn>)
    requires HasGitHub(queue)
    ensures FirstGitHub(queue).source.GitHub?
    ensures multiset(queue) == multiset(WithoutFirstGitHub(queue)) + multiset{FirstGitHub(queue)}
  {
    assert queue == [queue[0]] + queue[1..];
    if !queue[0].source.GitHub? {
      assert HasGitHub(queue[1..]);
      WithoutFirstGitHubLosesOne(queue[1..]);
    }
  }

  /**
   Nothing is lost silently: a full queue drops exactly one turn, and that is
   human only when an all-human queue makes room for another human.
   */
  lemma {:induction false} EnqueueDropsOne(queue: seq<Turn>, turn: Turn, max: nat)
    requires max > 0
    ensures var dropped := Dropped(queue, turn, max);
            match dropped
            case None => multiset(Enqueue(queue, turn, max)) == multiset(queue) + multiset{turn}
            case Some(d) =>
              && multiset(Enqueue(queue, turn, max)) + multiset{d} == multiset(queue) + multiset{turn}
              && (!d.source.GitHub? ==> !turn.source.GitHub? && !HasGitHub(queue))
  {
    if |queue| >= max {
      if HasGitHub(queue) {
        WithoutFirstGitHubLosesOne(queue);
      } else if !turn.source.GitHub? {
        assert queue == [queue[0]] + queue[1..];
      }
    }
  }

  // ---------------------------------------------------------------- steps of the proof

  lemma {:induction false} KeepLastCount(arrivals: seq<Turn>, h: nat, g: nat)
    ensures Humans(arrivals) <= |arrivals|
    ensures |KeepLast(arrivals, h, g)| == Min(h, Humans(arrivals)) + Min(g, GitHubs(arrivals))
  {
    if arrivals != [] {
      var rest, last := arrivals[..|arrivals| - 1], arrivals[|arrivals| - 1];
      if last.source.GitHub? {
        KeepLastCount(rest, h, if g > 0 then g - 1 else 0);
      } else {
        KeepLastCount(rest, if h > 0 then h - 1 else 0, g);
      }
    }
  }

  /** Quotas beyond what has arrived make no difference. */
  lemma {:induction false} KeepLastSaturates(arrivals: seq<Turn>, h: nat, h': nat, g: nat, g': nat)
    requires h == h' || (h >= Humans(arrivals) && h' >= Humans(arrivals))
    requires g == g' || (g >= GitHubs(arrivals) && g' >= GitHubs(arrivals))
    ensures KeepLast(arrivals, h, g) == KeepLast(arrivals, h', g')
  {
    if arrivals != [] {
      var rest, last := arrivals[..|arrivals| - 1], arrivals[|arrivals| - 1];
      KeepLastCount(rest, 0, 0);
      if last.source.GitHub? {
        KeepLastSaturates(rest, h, h', if g > 0 then g - 1 else 0, if g' > 0 then g' - 1 else 0);
      } else {
        KeepLastSaturates(rest, if h > 0 then h - 1 else 0, if h' > 0 then h' - 1 else 0, g, g');
      }
    }
  }

  lemma {:induction false} WithoutFirstGitHubSnoc(queue: seq<Turn>, turn: Turn)
    ensures HasGitHub(queue) ==> WithoutFirstGitHub(queue + [turn]) == WithoutFirstGitHub(queue) + [turn]
    ensures !HasGitHub(queue) ==>
              WithoutFirstGitHub(queue + [turn]) == if turn.source.GitHub? then queue else queue + [turn]
  {
    if queue == [] {
      assert queue + [turn] == [turn];
    } else {
      assert (queue + [turn])[1..] == queue[1..] + [turn];
      assert HasGitHub(queue) <==> queue[0].source.GitHub? || HasGitHub(queue[1..]) by {
        assert queue[0] in queue;
        assert forall t :: t in queue <==> t == queue[0] || t in queue[1..];
      }
      if !queue[0].source.GitHub? {
        WithoutFirstGitHubSnoc(queue[1..], turn);
      }
    }
  }

  lemma {:induction false} KeepLastHasGitHub(arrivals: seq<Turn>, h: nat, g: nat)
    ensures HasGitHub(KeepLast(arrivals, h, g)) <==> g > 0 && GitHubs(arrivals) > 0
  {
    KeepLastCount(arrivals, 0, 0);
    if arrivals != [] {
      var rest, last := arrivals[..|arrivals| - 1], arrivals[|arrivals| - 1];
      KeepLastCount(rest, 0, 0);
      if last.source.GitHub? {
        if g > 0 {
          assert last in KeepLast(arrivals, h, g);
        } else {
          KeepLastHasGitHub(rest, h, 0);
        }
      } else {
        KeepLastHasGitHub(rest, if h > 0 then h - 1 else 0, g);
        if h > 0 {
          assert forall t :: t in KeepLast(arrivals, h, g) <==> t == last || t in KeepLast(rest, h - 1, g);
        }
      }
    }
  }

  /** Dropping the oldest GitHub turn lowers the GitHub quota by one. */
  lemma {:induction false} DropGitHub(arrivals: seq<Turn>, h: nat, g: nat)
    requires 0 < g <= GitHubs(arrivals)
    ensures WithoutFirstGitHub(KeepLast(arrivals, h, g)) == KeepLast(arrivals, h, g - 1)
  {
    KeepLastCount(arrivals, 0, 0);
    if arrivals != [] {
      var rest, last := arrivals[..|arrivals| - 1], arrivals[|arrivals| - 1];
      KeepLastCount(rest, 0, 0);
      if last.source.GitHub? {
        var kept := KeepLast(rest, h, g - 1);
        KeepLastHasGitHub(rest, h, g - 1);
        WithoutFirstGitHubSnoc(kept, last);
        if g > 1 {
          DropGitHub(rest, h, g - 1);
        }
      } else {
        var h' := if h > 0 then h - 1 else 0;
        DropGitHub(rest, h', g);
        KeepLastHasGitHub(rest, h', g);
        WithoutFirstGitHubSnoc(KeepLast(rest, h', g), last);
      }
    }
  }

  /** With only humans kept, dropping the head lowers their quota by one. */
  lemma {:induction false} DropHuman(arrivals: seq<Turn>, h: nat)
    requires 0 < h <= Humans(arrivals)
    ensures KeepLast(arrivals, h, 0) != [] && KeepLast(arrivals, h, 0)[1..] == KeepLast(arrivals, h - 1, 0)
  {
    var rest, last := arrivals[..|arrivals| - 1], arrivals[|arrivals| - 1];
    if last.source.GitHub? {
      DropHuman(rest, h);
    } else if h > 1 {
      DropHuman(rest, h - 1);
    } else {
      KeepLastCount(rest, 0, 0);
      assert KeepLast(rest, 0, 0) == [];
    }
  }

  /** The closed form of the queue: humans first, GitHub in what room is left. */
  function ClosedForm(arrivals: seq<Turn>, max: nat): seq<Turn> {
    KeepLast(arrivals, max, max - Min(max, Humans(arrivals)))
  }

  lemma {:induction false} ClosedFormStep(arrivals: seq<Turn>, turn: Turn, max: nat)
    requires max > 0
    ensures Enqueue(ClosedForm(arrivals, max), turn, max) == ClosedForm(arrivals + [turn], max)
  {
    var h, g := Humans(arrivals), GitHubs(arrivals);
    var room := max - Min(max, h);
    var all := arrivals + [turn];
    assert all[..|all| - 1] == arrivals;
    KeepLastCount(arrivals, max, room);
    KeepLastHasGitHub(arrivals, max, room);
    if h >= max {
      DropHuman(arrivals, max);
    } else {
      KeepLastSaturates(arrivals, max, max - 1, room - 1, room - 1);
      if g >= room {
        DropGitHub(arrivals, max, room);
      } else {
        KeepLastSaturates(arrivals, max, max, room, room - 1);
      }
    }
  }

  // ---------------------------------------------------------------- main results

  /**
   From an empty queue, after any arrivals with h human and g GitHub turns, the
   queue is the last min(h, max) human turns and the last min(g, max - min(h, max))
   GitHub turns, in arrival order.
   */
  lemma {:induction false} QueueClosedForm(arrivals: seq<Turn>, max: nat)
    requires max > 0
    ensures EnqueueAll([], arrivals, max) == ClosedForm(arrivals, max)
    ensures |EnqueueAll([], arrivals, max)| == Min(max, |arrivals|)
  {
    if arrivals != [] {
      var rest, last := arrivals[..|arrivals| - 1], arrivals[|arrivals| - 1];
      QueueClosedForm(rest, max);
      ClosedFormStep(rest, last, max);
      assert rest + [last] == arrivals;
    }
    KeepLastCount(arrivals, max, max - Min(max, Humans(arrivals)));
  }

  function OnlyHumans(turns: seq<Turn>): seq<Turn> {
    if turns == [] then []
    else
      var rest, last := OnlyHumans(turns[..|turns| - 1]), turns[|turns| - 1];
      if last.source.GitHub? then rest else rest + [last]
  }

  function LastOf(s: seq<Turn>, n: nat): seq<Turn> {
    if |s| <= n then s else s[|s| - n..]
  }

  lemma {:induction false} OnlyHumansCount(turns: seq<Turn>)
    ensures |OnlyHumans(turns)| == Humans(turns)
  {
    if turns != [] {
      OnlyHumansCount(turns[..|turns| - 1]);
    }
  }

  lemma {:induction false} OnlyHumansSnoc(turns: seq<Turn>, last: Turn)
    ensures OnlyHumans(turns + [last]) == OnlyHumans(turns) + (if last.source.GitHub? then [] else [last])
  {
    assert (turns + [last])[..|turns|] == turns;
  }

  lemma {:induction false} HumansKept(arrivals: seq<Turn>, h: nat, g: nat)
    ensures OnlyHumans(KeepLast(arrivals, h, g)) == LastOf(OnlyHumans(arrivals), h)
  {
    if arrivals != [] {
      var rest, last := arrivals[..|arrivals| - 1], arrivals[|arrivals| - 1];
      if last.source.GitHub? {
        var g' := if g > 0 then g - 1 else 0;
        HumansKept(rest, h, g');
        OnlyHumansSnoc(KeepLast(rest, h, g'), last);
      } else {
        var h' := if h > 0 then h - 1 else 0;
        HumansKept(rest, h', g);
        OnlyHumansSnoc(KeepLast(rest, h', g), last);
      }
    }
  }

  /** GitHub work is invisible to humans: their turns are kept as if it never came. */
  lemma {:induction false} GitHubNeverEvictsHumans(arrivals: seq<Turn>, max: nat)
    requires max > 0
    ensures OnlyHumans(EnqueueAll([], arrivals, max)) == LastOf(OnlyHumans(arrivals), max)
  {
    QueueClosedForm(arrivals, max);
    HumansKept(arrivals, max, max - Min(max, Humans(arrivals)));
  }

  // ---------------------------------------------------------------- order

  /** Turns in the order they arrived, each once. */
  ghost predicate Ascending(turns: seq<Turn>) {
    forall i, j :: 0 <= i < j < |turns| ==> turns[i].ticket < turns[j].ticket
  }

  /** A full queue is the arrivals with one of them taken out. */
  lemma {:induction false} EnqueueTakesOneOut(queue: seq<Turn>, turn: Turn, max: nat) returns (i: nat)
    requires 0 < max <= |queue|
    ensures i <= |queue|
    ensures Enqueue(queue, turn, max) == (queue + [turn])[..i] + (queue + [turn])[i + 1..]
    ensures Dropped(queue, turn, max) == Some((queue + [turn])[i])
  {
    var all := queue + [turn];
    if HasGitHub(queue) {
      i := FirstGitHubAt(queue);
      assert all[..i] + all[i + 1..] == queue[..i] + queue[i + 1..] + [turn];
    } else if turn.source.GitHub? {
      i := |queue|;
      assert all[..i] + all[i + 1..] == queue;
    } else {
      i := 0;
      assert all[..i] + all[i + 1..] == queue[1..] + [turn];
    }
  }

  lemma {:induction false} FirstGitHubAt(queue: seq<Turn>) returns (i: nat)
    requires HasGitHub(queue)
    ensures i < |queue| && queue[i] == FirstGitHub(queue)
    ensures WithoutFirstGitHub(queue) == queue[..i] + queue[i + 1..]
  {
    if queue[0].source.GitHub? {
      i := 0;
    } else {
      assert HasGitHub(queue[1..]);
      var j := FirstGitHubAt(queue[1..]);
      i := j + 1;
      assert queue[..i] + queue[i + 1..] == [queue[0]] + (queue[1..][..j] + queue[1..][j + 1..]);
    }
  }
}
