/**
 Propagating issue links along parent links until nothing changes
 (scripts/backfill_task_linkage.py). New values are staged beside the stored
 ones and only ever fill gaps.
 */
module TaskLinkage {
  import opened Options

  datatype Row = Row(parent: Option<string>, repo: Option<string>, number: Option<int>)

  type Rows = map<string, Row>

  /** The staged fields of one task. */
  datatype Pending = Pending(repo: Option<string>, number: Option<int>)

  type Changes = map<string, Pending>

  // ---------------------------------------------------------------- the staging overlay

  function PendingOf(ch: Changes, id: string): Pending {
    if id in ch then ch[id] else Pending(None, None)
  }

  function FillGap<T>(stored: Option<T>, pending: Option<T>, v: Option<T>): Option<T> {
    if stored.None? && pending.None? then v else pending
  }

  function Stage(rows: Rows, ch: Changes, id: string, repo: Option<string>, number: Option<int>): Changes
    requires id in rows
  {
    var p := PendingOf(ch, id);
    ch[id := Pending(FillGap(rows[id].repo, p.repo, repo), FillGap(rows[id].number, p.number, number))]
  }

  /** The value in force: a staged one, unless it is falsy, else the stored one. */
  function EffectiveNumber(rows: Rows, ch: Changes, id: string): Option<int>
    requires id in rows
  {
    var p := PendingOf(ch, id).number;
    if p.Some? && p.value != 0 then p else rows[id].number
  }

  function EffectiveRepo(rows: Rows, ch: Changes, id: string): Option<string>
    requires id in rows
  {
    var p := PendingOf(ch, id).repo;
    if p.Some? && p.value != "" then p else rows[id].repo
  }

  predicate IsLinked(rows: Rows, ch: Changes, id: string) {
    id in rows && EffectiveNumber(rows, ch, id).Some? && EffectiveNumber(rows, ch, id).value != 0
  }

  /** No number in force and none staged: the next value offered will take. */
  predicate IsOpen(rows: Rows, ch: Changes, id: string) {
    id in rows && EffectiveNumber(rows, ch, id).None? && PendingOf(ch, id).number.None?
  }

  /** A staged 0 reads as unset, but can no longer be replaced. */
  predicate IsStuck(rows: Rows, ch: Changes, id: string) {
    id in rows && EffectiveNumber(rows, ch, id).None? && PendingOf(ch, id).number.Some?
  }

  // ---------------------------------------------------------------- one pass

  predicate Wants(rows: Rows, ch: Changes, src: string, dst: string) {
    dst in rows && EffectiveNumber(rows, ch, dst).None? && IsLinked(rows, ch, src)
  }

  function Offer(rows: Rows, ch: Changes, src: string, dst: string): Changes {
    if Wants(rows, ch, src, dst)
    then Stage(rows, ch, dst, EffectiveRepo(rows, ch, src), EffectiveNumber(rows, ch, src))
    else ch
  }

  /** The parent of a task, when it is one of the guild's tasks. */
  function ParentOf(rows: Rows, id: string): Option<string> {
    if id in rows && rows[id].parent.Some? && rows[id].parent.value != "" && rows[id].parent.value in rows
    then rows[id].parent else None
  }

  function Visit(rows: Rows, ch: Changes, id: string): Changes {
    var up := ParentOf(rows, id);
    if up.None? then ch else Offer(rows, Offer(rows, ch, up.value, id), id, up.value)
  }

  predicate VisitChanges(rows: Rows, ch: Changes, id: string) {
    var up := ParentOf(rows, id);
    up.Some? && (Wants(rows, ch, up.value, id) || Wants(rows, Offer(rows, ch, up.value, id), id, up.value))
  }

  /** The state after the first `n` tasks of a pass. */
  function Pass(rows: Rows, order: seq<string>, ch: Changes, n: nat): Changes
    requires n <= |order|
  {
    if n == 0 then ch else Visit(rows, Pass(rows, order, ch, n - 1), order[n - 1])
  }

  predicate PassChanges(rows: Rows, order: seq<string>, ch: Changes, n: nat)
    requires n <= |order|
  {
    n > 0 && (PassChanges(rows, order, ch, n - 1)
              || VisitChanges(rows, Pass(rows, order, ch, n - 1), order[n - 1]))
  }

  /** The state after `k` whole passes. */
  function Passes(rows: Rows, order: seq<string>, ch: Changes, k: nat): Changes {
    if k == 0 then ch
    else var before := Passes(rows, order, ch, k - 1); Pass(rows, order, before, |order|)
  }

  /** One more pass would change nothing, so the loop stops. */
  predicate Settled(rows: Rows, order: seq<string>, ch: Changes) {
    !PassChanges(rows, order, ch, |order|)
  }

  predicate StopsAfter(rows: Rows, order: seq<string>, ch: Changes, k: nat) {
    Settled(rows, order, Passes(rows, order, ch, k))
  }

  // ---------------------------------------------------------------- who is reached

  predicate Adjacent(rows: Rows, a: string, b: string) {
    a in rows && b in rows && (ParentOf(rows, a) == Some(b) || ParentOf(rows, b) == Some(a))
  }

  predicate Walk(rows: Rows, path: seq<string>) {
    |path| > 0 && path[0] in rows
    && forall i: nat {:trigger path[i]} :: 0 < i < |path| ==> Adjacent(rows, path[i - 1], path[i])
  }

  /** A walk that starts at a linked task and passes only through open ones. */
  predicate Reaches(rows: Rows, ch: Changes, path: seq<string>, id: string) {
    && Walk(rows, path) && path[|path| - 1] == id
    && IsLinked(rows, ch, path[0])
    && forall i: nat {:trigger path[i]} :: 0 < i < |path| ==> IsOpen(rows, ch, path[i])
  }

  ghost predicate Reached(rows: Rows, ch: Changes, id: string) {
    exists path :: Reaches(rows, ch, path, id)
  }

  /** Some task with a staged 0 has a neighbour that is, or will be, linked. */
  ghost predicate Hangs(rows: Rows, ch: Changes) {
    exists a, z :: Adjacent(rows, a, z) && Reached(rows, ch, a) && IsStuck(rows, ch, z)
  }

  predicate IsBare(rows: Rows, ch: Changes, id: string)
    requires id in rows
  {
    && (IsOpen(rows, ch, id) ==> rows[id].repo.None? && PendingOf(ch, id).repo.None?)
    && EffectiveRepo(rows, ch, id) != Some("")
  }

  /** No task has a repository without a number to go with it, and none has an empty one. */
  predicate AllBare(rows: Rows, ch: Changes) {
    forall id :: id in rows ==> IsBare(rows, ch, id)
  }

  predicate SameLink(rows: Rows, a: Changes, id: string, b: Changes, origin: string, pair: bool)
    requires id in rows && origin in rows
  {
    && EffectiveNumber(rows, a, id) == EffectiveNumber(rows, b, origin)
    && (pair ==> EffectiveRepo(rows, a, id) == EffectiveRepo(rows, b, origin))
  }

  /** The link in force came along a walk from a task that had it at the start. */
  ghost predicate Traced(rows: Rows, ch0: Changes, ch: Changes, id: string)
    requires id in rows
  {
    exists path :: Reaches(rows, ch0, path, id) && SameLink(rows, ch, id, ch0, path[0], AllBare(rows, ch0))
  }

  ghost predicate TaskInvariant(rows: Rows, ch0: Changes, ch: Changes, id: string)
    requires id in rows
  {
    && (IsOpen(rows, ch0, id) ==> IsOpen(rows, ch, id) || IsLinked(rows, ch, id))
    && (!IsOpen(rows, ch0, id) ==> PendingOf(ch, id).number == PendingOf(ch0, id).number)
    && (AllBare(rows, ch0) && IsOpen(rows, ch, id) ==> rows[id].repo.None? && PendingOf(ch, id).repo.None?)
    && (IsLinked(rows, ch, id) ==> Traced(rows, ch0, ch, id))
    && (AllBare(rows, ch0) && IsLinked(rows, ch, id) ==> EffectiveRepo(rows, ch, id) != Some(""))
  }

  ghost predicate Invariant(rows: Rows, ch0: Changes, ch: Changes) {
    forall id :: id in rows ==> TaskInvariant(rows, ch0, ch, id)
  }

  // ---------------------------------------------------------------- the loop

  ghost predicate Covers(rows: Rows, order: seq<string>) {
    forall id :: id in order <==> id in rows
  }

  function Unlinked(rows: Rows, ch: Changes): set<string> {
    set id | id in rows && EffectiveNumber(rows, ch, id).None?
  }

  /** Step 5 of backfill_guild. */
  method Propagate(rows: Rows, order: seq<string>, staged: Changes) returns (changes: Changes)
    requires Covers(rows, order) && !Hangs(rows, staged)
    ensures exists k: nat :: StopsAfter(rows, order, staged, k) && changes == Passes(rows, order, staged, k)
  {
    changes := staged;
    var changed := true;
    ghost var k := 0;
    InitialInvariant(rows, staged);
    while changed
      invariant Invariant(rows, staged, changes)
      invariant changes == Passes(rows, order, staged, k)
      invariant !changed ==> Settled(rows, order, changes)
      decreases Unlinked(rows, changes), changed
    {
      changes, changed := VisitAll(rows, order, changes, staged);
      k := k + 1;
    }
  }

  /** One turn of the outer loop. */
  method VisitAll(rows: Rows, order: seq<string>, before: Changes, ghost staged: Changes)
          returns (changes: Changes, changed: bool)
    requires Covers(rows, order) && !Hangs(rows, staged) && Invariant(rows, staged, before)
    ensures changes == Pass(rows, order, before, |order|)
    ensures changed <==> PassChanges(rows, order, before, |order|)
    ensures Invariant(rows, staged, changes)
    ensures if changed then Unlinked(rows, changes) < Unlinked(rows, before) else changes == before
  {
    changes, changed := before, false;
    var i := 0;
    while i < |order|
      invariant i <= |order|
      invariant changes == Pass(rows, order, before, i)
      invariant changed <==> PassChanges(rows, order, before, i)
      invariant Invariant(rows, staged, changes)
      invariant if changed then Unlinked(rows, changes) < Unlinked(rows, before) else changes == before
    {
      var stagedOne;
      changes, stagedOne := VisitTask(rows, order[i], changes, staged);
      changed := changed || stagedOne;
      i := i + 1;
    }
  }

  /** The body of the inner loop: parent to task, then task to parent. */
  method VisitTask(rows: Rows, id: string, before: Changes, ghost staged: Changes) returns (changes: Changes,
          changed: bool)
    requires !Hangs(rows, staged) && Invariant(rows, staged, before)
    ensures changes == Visit(rows, before, id)
    ensures changed <==> VisitChanges(rows, before, id)
    ensures Invariant(rows, staged, changes)
    ensures if changed then Unlinked(rows, changes) < Unlinked(rows, before) else changes == before
  {
    changes, changed := before, false;
    var up := ParentOf(rows, id);
    if up.None? {
      return;
    }
    if EffectiveNumber(rows, changes, id).None? && IsLinked(rows, changes, up.value) {
      OfferProgress(rows, staged, changes, up.value, id);
      changes := Stage(rows, changes, id, EffectiveRepo(rows, changes, up.value),
                       EffectiveNumber(rows, changes, up.value));
      changed := true;
    }
    if EffectiveNumber(rows, changes, up.value).None? && IsLinked(rows, changes, id) {
      OfferProgress(rows, staged, changes, id, up.value);
      changes := Stage(rows, changes, up.value, EffectiveRepo(rows, changes, id), EffectiveNumber(rows, changes, id));
      changed := true;
    }
  }

  lemma {:induction false} InitialInvariant(rows: Rows, ch: Changes)
    ensures Invariant(rows, ch, ch)
  {
    forall id | id in rows && IsLinked(rows, ch, id) ensures Traced(rows, ch, ch, id) {
      assert Reaches(rows, ch, [id], id) && SameLink(rows, ch, id, ch, [id][0], AllBare(rows, ch));
    }
  }

  lemma {:induction false} Extend(rows: Rows, ch: Changes, path: seq<string>, a: string, b: string)
    requires Reaches(rows, ch, path, a) && Adjacent(rows, a, b) && IsOpen(rows, ch, b)
    ensures Reaches(rows, ch, path + [b], b)
  {
    var longer := path + [b];
    forall i: nat | 0 < i < |longer|
      ensures Adjacent(rows, longer[i - 1], longer[i]) && IsOpen(rows, ch, longer[i])
    {
      if i < |path| {
        assert longer[i] == path[i] && longer[i - 1] == path[i - 1];
      }
    }
  }

  /** An offer touches no other task, and an open one takes it. */
  lemma {:induction false} OfferEffect(rows: Rows, ch: Changes, src: string, dst: string)
    requires Wants(rows, ch, src, dst)
    ensures forall id :: id in rows && id != dst ==> PendingOf(Offer(rows, ch, src, dst), id) == PendingOf(ch, id)
    ensures if IsOpen(rows, ch, dst)
            then EffectiveNumber(rows, Offer(rows, ch, src, dst), dst) == EffectiveNumber(rows, ch, src) &&
                 (rows[dst].repo.None? && PendingOf(ch, dst).repo.None? && EffectiveRepo(rows, ch, src) != Some("") ==>
                    EffectiveRepo(rows, Offer(rows, ch, src, dst), dst) == EffectiveRepo(rows, ch, src))
            else PendingOf(Offer(rows, ch, src, dst), dst).number == PendingOf(ch, dst).number
  {
  }

  lemma {:induction false} OfferIsTraced(rows: Rows, ch0: Changes, ch: Changes, src: string, dst: string)
    requires src in rows && dst in rows && TaskInvariant(rows, ch0, ch, src) && TaskInvariant(rows, ch0, ch, dst)
    requires Adjacent(rows, src, dst) && Wants(rows, ch, src, dst) && IsOpen(rows, ch, dst)
    ensures exists path :: Reaches(rows, ch0, path, dst) && SameLink(rows, ch, src, ch0, path[0], AllBare(rows, ch0))
  {
    var path :| Reaches(rows, ch0, path, src) && SameLink(rows, ch, src, ch0, path[0], AllBare(rows, ch0));
    OpenWasOpen(rows, ch0, ch, dst);
    Extend(rows, ch0, path, src, dst);
    assert (path + [dst])[0] == path[0];
  }

  lemma {:induction false} OfferKeepsTask(rows: Rows, ch0: Changes, ch: Changes, src: string, dst: string)
    requires src in rows && dst in rows && TaskInvariant(rows, ch0, ch, src) && TaskInvariant(rows, ch0, ch, dst)
    requires Adjacent(rows, src, dst) && Wants(rows, ch, src, dst)
    ensures TaskInvariant(rows, ch0, Offer(rows, ch, src, dst), dst)
  {
    var after := Offer(rows, ch, src, dst);
    OfferEffect(rows, ch, src, dst);
    if IsOpen(rows, ch, dst) {
      OfferIsTraced(rows, ch0, ch, src, dst);
      OpenWasOpen(rows, ch0, ch, dst);
    } else {
      SameNumber(rows, ch, after, dst);
    }
  }

  lemma {:induction false} SameNumber(rows: Rows, a: Changes, b: Changes, id: string)
    requires id in rows && PendingOf(a, id).number == PendingOf(b, id).number
    ensures EffectiveNumber(rows, a, id) == EffectiveNumber(rows, b, id)
    ensures IsLinked(rows, a, id) == IsLinked(rows, b, id) && IsOpen(rows, a, id) == IsOpen(rows, b, id)
  {
  }

  lemma {:induction false} OpenWasOpen(rows: Rows, ch0: Changes, ch: Changes, id: string)
    requires id in rows && TaskInvariant(rows, ch0, ch, id)
    ensures IsOpen(rows, ch, id) ==> IsOpen(rows, ch0, id)
    ensures IsStuck(rows, ch, id) <==> IsStuck(rows, ch0, id)
  {
  }

  lemma {:induction false} SamePendingSameTask(rows: Rows, ch0: Changes, a: Changes, b: Changes, id: string)
    requires id in rows && PendingOf(a, id) == PendingOf(b, id) && TaskInvariant(rows, ch0, a, id)
    ensures TaskInvariant(rows, ch0, b, id)
  {
  }

  lemma {:induction false} OfferKeepsInvariant(rows: Rows, ch0: Changes, ch: Changes, src: string, dst: string)
    requires Invariant(rows, ch0, ch) && Adjacent(rows, src, dst)
    ensures Invariant(rows, ch0, Offer(rows, ch, src, dst))
  {
    var after := Offer(rows, ch, src, dst);
    if Wants(rows, ch, src, dst) {
      OfferEffect(rows, ch, src, dst);
      assert TaskInvariant(rows, ch0, ch, src) && TaskInvariant(rows, ch0, ch, dst);
      OfferKeepsTask(rows, ch0, ch, src, dst);
      forall id | id in rows ensures TaskInvariant(rows, ch0, after, id) {
        if id != dst {
          SamePendingSameTask(rows, ch0, ch, after, id);
        }
      }
    }
  }

  /** A linked task never offers to a stuck one, unless the loop was bound to hang. */
  lemma {:induction false} NotStuck(rows: Rows, ch0: Changes, ch: Changes, src: string, dst: string)
    requires Invariant(rows, ch0, ch) && !Hangs(rows, ch0) && Adjacent(rows, src, dst) && Wants(rows, ch, src, dst)
    ensures IsOpen(rows, ch, dst)
  {
    assert TaskInvariant(rows, ch0, ch, src) && TaskInvariant(rows, ch0, ch, dst);
    assert Reached(rows, ch0, src);
    OpenWasOpen(rows, ch0, ch, dst);
  }

  /** Every offer taken links one more task. */
  lemma {:induction false} OfferProgress(rows: Rows, ch0: Changes, ch: Changes, src: string, dst: string)
    requires Invariant(rows, ch0, ch) && !Hangs(rows, ch0) && Adjacent(rows, src, dst) && Wants(rows, ch, src, dst)
    ensures Invariant(rows, ch0, Offer(rows, ch, src, dst))
    ensures Unlinked(rows, Offer(rows, ch, src, dst)) == Unlinked(rows, ch) - {dst} && dst in Unlinked(rows, ch)
  {
    OfferKeepsInvariant(rows, ch0, ch, src, dst);
    NotStuck(rows, ch0, ch, src, dst);
    OfferLinksOne(rows, ch, src, dst);
  }

  lemma {:induction false} OfferLinksOne(rows: Rows, ch: Changes, src: string, dst: string)
    requires Wants(rows, ch, src, dst) && IsOpen(rows, ch, dst)
    ensures Unlinked(rows, Offer(rows, ch, src, dst)) == Unlinked(rows, ch) - {dst} && dst in Unlinked(rows, ch)
  {
    OfferEffect(rows, ch, src, dst);
  }
}
