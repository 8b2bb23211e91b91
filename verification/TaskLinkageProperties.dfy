/**
 When link propagation stops, and what it has done by then.
 */
module TaskLinkageProperties {
  import opened Options
  import opened TaskLinkage

  // ---------------------------------------------------------------- every pass keeps the invariant

  lemma {:induction false} VisitKeepsInvariant(rows: Rows, ch0: Changes, ch: Changes, id: string)
    requires Invariant(rows, ch0, ch)
    ensures Invariant(rows, ch0, Visit(rows, ch, id))
  {
    var up := ParentOf(rows, id);
    if up.Some? {
      OfferKeepsInvariant(rows, ch0, ch, up.value, id);
      OfferKeepsInvariant(rows, ch0, Offer(rows, ch, up.value, id), id, up.value);
    }
  }

  lemma {:induction false} PassKeepsInvariant(rows: Rows, order: seq<string>, ch0: Changes, ch: Changes, n: nat)
    requires n <= |order| && Invariant(rows, ch0, ch)
    ensures Invariant(rows, ch0, Pass(rows, order, ch, n))
  {
    if n > 0 {
      PassKeepsInvariant(rows, order, ch0, ch, n - 1);
      VisitKeepsInvariant(rows, ch0, Pass(rows, order, ch, n - 1), order[n - 1]);
    }
  }

  lemma {:induction false} PassesKeepInvariant(rows: Rows, order: seq<string>, ch0: Changes, k: nat)
    ensures Invariant(rows, ch0, Passes(rows, order, ch0, k))
  {
    if k == 0 {
      InitialInvariant(rows, ch0);
    } else {
      PassesKeepInvariant(rows, order, ch0, k - 1);
      PassKeepsInvariant(rows, order, ch0, Passes(rows, order, ch0, k - 1), |order|);
    }
  }

  // ---------------------------------------------------------------- a quiet pass

  ghost predicate Quiet(rows: Rows, ch: Changes) {
    forall a, b :: Adjacent(rows, a, b) ==> !Wants(rows, ch, a, b)
  }

  lemma {:induction false} QuietPass(rows: Rows, order: seq<string>, ch: Changes, n: nat)
    requires n <= |order| && !PassChanges(rows, order, ch, n)
    ensures Pass(rows, order, ch, n) == ch
    ensures forall i :: 0 <= i < n ==> !VisitChanges(rows, ch, order[i])
  {
    if n > 0 {
      QuietPass(rows, order, ch, n - 1);
    }
  }

  lemma {:induction false} SettledIsQuiet(rows: Rows, order: seq<string>, ch: Changes)
    requires Covers(rows, order) && Settled(rows, order, ch)
    ensures Quiet(rows, ch)
  {
    QuietPass(rows, order, ch, |order|);
    forall a, b | Adjacent(rows, a, b) ensures !Wants(rows, ch, a, b) {
      assert a in order && b in order;
      assert !VisitChanges(rows, ch, a) && !VisitChanges(rows, ch, b);
    }
  }

  // ---------------------------------------------------------------- what is reached gets linked

  lemma {:induction false} ReachedIsLinked(rows: Rows, ch0: Changes, ch: Changes, path: seq<string>, id: string, n: nat)
    requires Invariant(rows, ch0, ch) && Quiet(rows, ch) && Reaches(rows, ch0, path, id) && n < |path|
    ensures IsLinked(rows, ch, path[n])
  {
    if n == 0 {
      assert TaskInvariant(rows, ch0, ch, path[0]);
      StaysLinked(rows, ch0, ch, path[0]);
    } else {
      ReachedIsLinked(rows, ch0, ch, path, id, n - 1);
      assert Adjacent(rows, path[n - 1], path[n]);
      assert TaskInvariant(rows, ch0, ch, path[n]);
      assert !Wants(rows, ch, path[n - 1], path[n]);
    }
  }

  lemma {:induction false} StaysLinked(rows: Rows, ch0: Changes, ch: Changes, id: string)
    requires id in rows && TaskInvariant(rows, ch0, ch, id) && IsLinked(rows, ch0, id)
    ensures IsLinked(rows, ch, id)
  {
    SameNumber(rows, ch0, ch, id);
  }

  lemma {:induction false} QuietMeansNoHang(rows: Rows, ch0: Changes, ch: Changes)
    requires Invariant(rows, ch0, ch) && Quiet(rows, ch)
    ensures !Hangs(rows, ch0)
  {
    if Hangs(rows, ch0) {
      var a, z :| Adjacent(rows, a, z) && Reached(rows, ch0, a) && IsStuck(rows, ch0, z);
      var path :| Reaches(rows, ch0, path, a);
      ReachedIsLinked(rows, ch0, ch, path, a, |path| - 1);
      assert TaskInvariant(rows, ch0, ch, z);
      OpenWasOpen(rows, ch0, ch, z);
      assert false;
    }
  }

  // ---------------------------------------------------------------- progress

  lemma {:induction false} VisitProgress(rows: Rows, ch0: Changes, ch: Changes, id: string)
    requires Invariant(rows, ch0, ch) && !Hangs(rows, ch0)
    ensures if VisitChanges(rows, ch, id) then Unlinked(rows, Visit(rows, ch, id)) < Unlinked(rows, ch)
            else Visit(rows, ch, id) == ch
  {
    var up := ParentOf(rows, id);
    if up.Some? {
      var mid := Offer(rows, ch, up.value, id);
      if Wants(rows, ch, up.value, id) {
        OfferProgress(rows, ch0, ch, up.value, id);
      }
      if Wants(rows, mid, id, up.value) {
        OfferProgress(rows, ch0, mid, id, up.value);
      }
    }
  }

  lemma {:induction false} PassProgress(rows: Rows, order: seq<string>, ch0: Changes, ch: Changes, n: nat)
    requires n <= |order| && Invariant(rows, ch0, ch) && !Hangs(rows, ch0)
    ensures if PassChanges(rows, order, ch, n) then Unlinked(rows, Pass(rows, order, ch, n)) < Unlinked(rows, ch)
            else Pass(rows, order, ch, n) == ch
  {
    if n > 0 {
      PassProgress(rows, order, ch0, ch, n - 1);
      PassKeepsInvariant(rows, order, ch0, ch, n - 1);
      VisitProgress(rows, ch0, Pass(rows, order, ch, n - 1), order[n - 1]);
    }
  }

  lemma {:induction false} HaltsAfter(rows: Rows, order: seq<string>, ch0: Changes, k: nat) returns (m: nat)
    requires !Hangs(rows, ch0)
    ensures StopsAfter(rows, order, ch0, m)
    decreases Unlinked(rows, Passes(rows, order, ch0, k))
  {
    var ch := Passes(rows, order, ch0, k);
    if Settled(rows, order, ch) {
      m := k;
    } else {
      PassesKeepInvariant(rows, order, ch0, k);
      PassProgress(rows, order, ch0, ch, |order|);
      assert Passes(rows, order, ch0, k + 1) == Pass(rows, order, ch, |order|);
      m := HaltsAfter(rows, order, ch0, k + 1);
    }
  }

  // ---------------------------------------------------------------- main results

  /**
   The loop stops if and only if no task with a staged 0 has a neighbour that a
   walk over open tasks connects to a linked one.
   */
  lemma {:induction false} LoopStopsUnlessZeroIsReached(rows: Rows, order: seq<string>, ch0: Changes)
    requires Covers(rows, order)
    ensures (exists k: nat :: StopsAfter(rows, order, ch0, k)) <==> !Hangs(rows, ch0)
  {
    if exists k: nat :: StopsAfter(rows, order, ch0, k) {
      var k: nat :| StopsAfter(rows, order, ch0, k);
      PassesKeepInvariant(rows, order, ch0, k);
      SettledIsQuiet(rows, order, Passes(rows, order, ch0, k));
      QuietMeansNoHang(rows, ch0, Passes(rows, order, ch0, k));
    }
    if !Hangs(rows, ch0) {
      var m := HaltsAfter(rows, order, ch0, 0);
      assert StopsAfter(rows, order, ch0, m);
    }
  }

  /** When it stops, the linked tasks are exactly those a walk reaches. */
  lemma {:induction false} LinkedIffReached(rows: Rows, order: seq<string>, ch0: Changes, k: nat, id: string)
    requires Covers(rows, order) && StopsAfter(rows, order, ch0, k) && id in rows
    ensures IsLinked(rows, Passes(rows, order, ch0, k), id) <==> Reached(rows, ch0, id)
  {
    var ch := Passes(rows, order, ch0, k);
    PassesKeepInvariant(rows, order, ch0, k);
    SettledIsQuiet(rows, order, ch);
    assert TaskInvariant(rows, ch0, ch, id);
    if Reached(rows, ch0, id) {
      var path :| Reaches(rows, ch0, path, id);
      ReachedIsLinked(rows, ch0, ch, path, id, |path| - 1);
    }
  }

  /** Each link in force is that of one task joined to it by parent links, number and repository together. */
  lemma {:induction false} LinkComesFromComponent(rows: Rows, order: seq<string>, ch0: Changes, k: nat,
          id: string) returns (path: seq<string>)
    requires IsLinked(rows, Passes(rows, order, ch0, k), id)
    ensures Reaches(rows, ch0, path, id)
    ensures SameLink(rows, Passes(rows, order, ch0, k), id, ch0, path[0], AllBare(rows, ch0))
  {
    PassesKeepInvariant(rows, order, ch0, k);
    var ch := Passes(rows, order, ch0, k);
    assert TaskInvariant(rows, ch0, ch, id);
    path :| Reaches(rows, ch0, path, id) && SameLink(rows, ch, id, ch0, path[0], AllBare(rows, ch0));
  }

  /** No stored or staged issue number is 0. */
  predicate NoZero(rows: Rows, ch: Changes) {
    forall id :: id in rows ==> rows[id].number != Some(0) && PendingOf(ch, id).number != Some(0)
  }

  lemma {:induction false} WithoutZeroNothingHangs(rows: Rows, ch: Changes)
    requires NoZero(rows, ch)
    ensures !Hangs(rows, ch)
  {
    assert forall z :: !IsStuck(rows, ch, z);
  }

  lemma {:induction false} AlongWalk(rows: Rows, ch0: Changes, ch: Changes, walk: seq<string>, n: nat)
    requires NoZero(rows, ch0) && Invariant(rows, ch0, ch) && Quiet(rows, ch)
    requires Walk(rows, walk) && n < |walk|
    ensures IsLinked(rows, ch, walk[0]) <==> IsLinked(rows, ch, walk[n])
  {
    if n > 0 {
      AlongWalk(rows, ch0, ch, walk, n - 1);
      var a, b := walk[n - 1], walk[n];
      assert Adjacent(rows, a, b) && Adjacent(rows, b, a);
      assert !Wants(rows, ch, a, b) && !Wants(rows, ch, b, a);
      NumberOrNone(rows, ch0, ch, a);
      NumberOrNone(rows, ch0, ch, b);
    }
  }

  lemma {:induction false} NumberOrNone(rows: Rows, ch0: Changes, ch: Changes, id: string)
    requires NoZero(rows, ch0) && Invariant(rows, ch0, ch) && id in rows
    ensures IsLinked(rows, ch, id) <==> EffectiveNumber(rows, ch, id).Some?
  {
    assert TaskInvariant(rows, ch0, ch, id);
  }

  /**
   With issue numbers that are never 0 the loop stops, and leaves every connected
   component of the parent graph, cycles included, wholly linked or wholly not.
   */
  lemma {:induction false} ComponentsAreWhole(rows: Rows, order: seq<string>, ch0: Changes) returns (k: nat)
    requires Covers(rows, order) && NoZero(rows, ch0)
    ensures StopsAfter(rows, order, ch0, k)
    ensures forall walk :: Walk(rows, walk) ==>
              (IsLinked(rows, Passes(rows, order, ch0, k), walk[0])
               <==> IsLinked(rows, Passes(rows, order, ch0, k), walk[|walk| - 1]))
  {
    WithoutZeroNothingHangs(rows, ch0);
    k := HaltsAfter(rows, order, ch0, 0);
    var ch := Passes(rows, order, ch0, k);
    PassesKeepInvariant(rows, order, ch0, k);
    SettledIsQuiet(rows, order, ch);
    forall walk | Walk(rows, walk) ensures IsLinked(rows, ch, walk[0]) <==> IsLinked(rows, ch, walk[|walk| - 1]) {
      AlongWalk(rows, ch0, ch, walk, |walk| - 1);
    }
  }

  // ---------------------------------------------------------------- nothing is overwritten

  /** Staged values only fill gaps, and once staged they stay. */
  predicate OnlyFills(rows: Rows, ch0: Changes, ch: Changes) {
    forall id :: id in rows ==>
      var p, q := PendingOf(ch0, id), PendingOf(ch, id);
      && (p.repo.Some? || rows[id].repo.Some? ==> q.repo == p.repo)
      && (p.number.Some? || rows[id].number.Some? ==> q.number == p.number)
  }

  lemma {:induction false} OfferOnlyFills(rows: Rows, ch0: Changes, ch: Changes, src: string, dst: string)
    requires OnlyFills(rows, ch0, ch)
    ensures OnlyFills(rows, ch0, Offer(rows, ch, src, dst))
  {
  }

  lemma {:induction false} PassOnlyFills(rows: Rows, order: seq<string>, ch0: Changes, ch: Changes, n: nat)
    requires n <= |order| && OnlyFills(rows, ch0, ch)
    ensures OnlyFills(rows, ch0, Pass(rows, order, ch, n))
  {
    if n > 0 {
      PassOnlyFills(rows, order, ch0, ch, n - 1);
      var before, id := Pass(rows, order, ch, n - 1), order[n - 1];
      var up := ParentOf(rows, id);
      if up.Some? {
        OfferOnlyFills(rows, ch0, before, up.value, id);
        OfferOnlyFills(rows, ch0, Offer(rows, before, up.value, id), id, up.value);
      }
    }
  }

  /** Whether or not the loop ever stops, no stored or staged value is replaced. */
  lemma {:induction false} NothingIsOverwritten(rows: Rows, order: seq<string>, ch0: Changes, k: nat)
    ensures OnlyFills(rows, ch0, Passes(rows, order, ch0, k))
  {
    if k > 0 {
      NothingIsOverwritten(rows, order, ch0, k - 1);
      PassOnlyFills(rows, order, ch0, Passes(rows, order, ch0, k - 1), |order|);
    }
  }

  // ---------------------------------------------------------------- read off the rows

  /** A staged value is in force unless it is 0 or empty, and the stored one otherwise. */
  lemma {:induction false} ForceReadsOff(rows: Rows, ch: Changes, id: string)
    requires id in rows
    ensures EffectiveNumber(rows, ch, id)
            == if id in ch && ch[id].number != None && ch[id].number != Some(0) then ch[id].number else rows[id].number
    ensures EffectiveRepo(rows, ch, id)
            == if id in ch && ch[id].repo != None && ch[id].repo != Some("") then ch[id].repo else rows[id].repo
  {
  }

  /** Two tasks are adjacent if one names the other, which is of the guild, as its parent. */
  lemma {:induction false} AdjacencyReadsOff(rows: Rows, a: string, b: string)
    ensures Adjacent(rows, a, b)
            <==> a in rows && b in rows
                 && ((rows[a].parent == Some(b) && b != "") || (rows[b].parent == Some(a) && a != ""))
  {
  }

  // ---------------------------------------------------------------- a run that never stops

  /** A sub-task whose text reads "#0", under a parent linked to issue 7. */
  lemma {:induction false} IssueZeroHangs()
    ensures var rows := map["p" := Row(None, Some("o/r"), Some(7)), "c" := Row(Some("p"), None, None)];
            var staged := map["c" := Pending(Some("o/r"), Some(0))];
            forall k: nat :: !StopsAfter(rows, ["p", "c"], staged, k)
  {
    var rows := map["p" := Row(None, Some("o/r"), Some(7)), "c" := Row(Some("p"), None, None)];
    var staged := map["c" := Pending(Some("o/r"), Some(0))];
    var order := ["p", "c"];
    assert order[0] == "p" && order[1] == "c";
    assert Covers(rows, order);
    assert Reaches(rows, staged, ["p"], "p");
    assert IsStuck(rows, staged, "c");
    assert Adjacent(rows, "p", "c");
    LoopStopsUnlessZeroIsReached(rows, order, staged);
  }
}
