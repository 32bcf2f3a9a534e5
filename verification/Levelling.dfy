/** Scale-in drains crowded nodes first: how evenly the survivors are spread. */
module Levelling {
  import opened Kube
  import opened PodOrder
  import opened ScaleIn
  import opened Scaling
  import Planner

  /** The candidates of one node that survive a deletion. */
  ghost function Survivors(pods: seq<Pod>, deleted: seq<Pod>, node: string): set<Pod> {
    set p | p in pods && p !in deleted && p.nodeName == node
  }

  /** If x lost a pod, its survivors are at most one fewer than those of y. */
  ghost predicate Levelled(pods: seq<Pod>, deleted: seq<Pod>, x: string, y: string) {
    (exists p | p in deleted :: p.nodeName == x)
    ==> |Survivors(pods, deleted, x)| >= |Survivors(pods, deleted, y)| - 1
  }

  /** The numbers 0 .. n-1. */
  function Below(n: nat): (s: set<int>)
    ensures |s| == n && forall i :: i in s <==> 0 <= i < n
  {
    if n == 0 then {} else Below(n - 1) + {n - 1}
  }

  ghost function RankSet(ranks: map<string, int>, pods: set<Pod>): set<int> {
    set p | p in pods :: RankIn(ranks, p)
  }

  /** Ranks that tell pods apart give as many numbers as there are pods. */
  lemma {:induction false} RankSetSize(ranks: map<string, int>, pods: set<Pod>)
    requires forall p, q | p in pods && q in pods && RankIn(ranks, p) == RankIn(ranks, q) :: p == q
    ensures |RankSet(ranks, pods)| == |pods|
    decreases pods
  {
    if pods != {} {
      var p :| p in pods;
      var rest := pods - {p};
      RankSetSize(ranks, rest);
      assert RankSet(ranks, pods) == RankSet(ranks, rest) + {RankIn(ranks, p)};
      assert RankIn(ranks, p) !in RankSet(ranks, rest);
    } else {
      assert RankSet(ranks, pods) == {};
    }
  }

  /** Candidates that only their ranks tell apart: all assigned, all running, all equally ready. */
  ghost predicate EquallyUp(pods: seq<Pod>) {
    && (forall p | p in pods :: p.nodeName != "" && IsRunning(p))
    && (forall p, q | p in pods && q in pods :: IsPodReady(p) == IsPodReady(q))
  }

  /** The sorted prefix holds the highest ranks. */
  lemma PrefixRanksHigher(pods: seq<Pod>, ranks: map<string, int>, sorted: seq<Pod>, k: nat, p: Pod, q: Pod)
    requires EquallyUp(pods) && IsSortOf(Ranked(ranks), sorted, pods) && k <= |sorted|
    requires p in sorted[..k] && q in pods && q !in sorted[..k]
    ensures RankIn(ranks, p) >= RankIn(ranks, q)
  {
    assert p in multiset(sorted) && q in multiset(sorted);
    var i :| 0 <= i < k && sorted[i] == p;
    var j :| 0 <= j < |sorted| && sorted[j] == q;
    assert forall l | 0 <= l < k :: sorted[l] in sorted[..k];
    assert !Less(Ranked(ranks), q, p);
    assert Rank(Ranked(ranks), q) == RankIn(ranks, q) && Rank(Ranked(ranks), p) == RankIn(ranks, p);
  }

  /** Deleting a prefix of the ranked order levels the nodes. */
  lemma RankedPrefixLevels(pods: seq<Pod>, ranks: map<string, int>, sorted: seq<Pod>, k: nat, x: string, y: string)
    requires DistinctUids(pods) && EquallyUp(pods) && RanksNodes(pods, ranks)
    requires IsSortOf(Ranked(ranks), sorted, pods) && k <= |sorted|
    ensures Levelled(pods, sorted[..k], x, y)
  {
    var deleted := sorted[..k];
    var onX, onY := Survivors(pods, deleted, x), Survivors(pods, deleted, y);
    if (exists p | p in deleted :: p.nodeName == x) && |onY| >= 2 {
      var p :| p in deleted && p.nodeName == x;
      assert p in multiset(sorted);
      var z :| z in onY;
      assert RanksNode(pods, ranks, x) && RanksNode(pods, ranks, y);
      RanksAreExact(pods, ranks, x);
      RanksAreExact(pods, ranks, y);
      var m := |onY|;
      // Some survivor of y ranks at least m - 1, so everything deleted from x does too.
      RankSetSize(ranks, onY);
      var q := HighSurvivor(pods, ranks, onY, y);
      PrefixRanksHigher(pods, ranks, sorted, k, p, q);
      // Ranks 0 .. m-2 of x are then all held by survivors.
      assert HoldsRank(pods, ranks, x, RankIn(ranks, p));
      forall r | r in Below(m - 1) ensures r in RankSet(ranks, onX) {
        assert HoldsRank(pods, ranks, x, r);
        var s :| s in pods && s.nodeName == x && RankIn(ranks, s) == r;
        if s in deleted {
          PrefixRanksHigher(pods, ranks, sorted, k, s, q);
        }
        assert s in onX;
      }
      SubsetSize(Below(m - 1), RankSet(ranks, onX));
      RankSetSize(ranks, onX);
    }
  }

  lemma HighSurvivor(pods: seq<Pod>, ranks: map<string, int>, onY: set<Pod>, y: string) returns (q: Pod)
    requires |onY| >= 1 && |RankSet(ranks, onY)| == |onY|
    requires forall p | p in onY :: p in pods && p.nodeName == y
    requires forall rank :: HoldsRank(pods, ranks, y, rank) ==> rank >= 0
    ensures q in onY && RankIn(ranks, q) >= |onY| - 1
  {
    if forall p | p in onY :: RankIn(ranks, p) < |onY| - 1 {
      forall r | r in RankSet(ranks, onY) ensures r in Below(|onY| - 1) {
        assert HoldsRank(pods, ranks, y, r);
      }
      SubsetSize(RankSet(ranks, onY), Below(|onY| - 1));
      assert false;
    }
    q :| q in onY && RankIn(ranks, q) >= |onY| - 1;
  }

  /**
   * Whenever the choice is a real one, or the ready limit does not cut it, a scale-in of equally healthy pods
   * levels every pair of nodes, with the cut by the ready limit taken into account.
   */
  lemma ScaleInLevels(pods: seq<Pod>, diff: nat, chosen: seq<Pod>, limit: int, x: string, y: string)
    requires DistinctUids(pods) && EquallyUp(pods) && Chosen(pods, diff, chosen)
    requires diff < |pods| || limit <= 0 || limit >= |pods|
    ensures Levelled(pods, Affordable(chosen, limit, false), x, y)
  {
    if diff < |pods| {
      var ranks: map<string, int>, sorted: seq<Pod> :|
        RanksNodes(pods, ranks) && IsSortOf(Ranked(ranks), sorted, pods) && |sorted| >= diff
        && chosen == sorted[..diff];
      forall p | p in chosen ensures Up(p, false) {
        assert p in multiset(sorted);
      }
      AffordablePrefix(chosen, limit, false);
      var k := Planner.Min(diff, Planner.Max(limit, 0));
      assert chosen[..k] == sorted[..k];
      RankedPrefixLevels(pods, ranks, sorted, k, x, y);
    } else {
      AffordablePrefix(pods, limit, false);
      assert pods[..|pods|] == pods;
      if limit > 0 {
        assert Survivors(pods, pods, y) == {};
      }
    }
  }

  // ---------- The branch that does not sort ----------

  lemma {:induction false} SelectAppend(c: Class, a: seq<Pod>, b: seq<Pod>, revision: string)
    ensures Select(c, a + b, revision) == Select(c, a, revision) + Select(c, b, revision)
  {
    if b == [] {
      assert a + b == a;
    } else {
      var front := b[..|b| - 1];
      assert (a + b)[..|a + b| - 1] == a + front;
      SelectAppend(c, a, front, revision);
    }
  }

  lemma {:induction false} SelectAll(c: Class, pods: seq<Pod>, revision: string)
    requires forall p | p in pods :: InClass(c, p, revision)
    ensures Select(c, pods, revision) == pods
  {
    if pods != [] {
      SelectAll(c, pods[..|pods| - 1], revision);
    }
  }

  lemma {:induction false} SelectNone(c: Class, pods: seq<Pod>, revision: string)
    requires forall p | p in pods :: !InClass(c, p, revision)
    ensures Select(c, pods, revision) == []
  {
    if pods != [] {
      SelectNone(c, pods[..|pods| - 1], revision);
    }
  }

  lemma CountSecond(c: Class, a: seq<Pod>, b: seq<Pod>, revision: string)
    requires (forall p | p in a :: !InClass(c, p, revision)) && (forall p | p in b :: InClass(c, p, revision))
    ensures Count(c, a + b, revision) == |b|
  {
    CountAppend(c, a, b, revision);
    CountNone(c, a, revision);
    CountAll(c, b, revision);
  }

  /** Two lists of unmarked pods: the updated ones are running, the old ones are not. */
  predicate HalfFailing(updated: seq<Pod>, failing: seq<Pod>, revision: string) {
    && (forall p | p in updated :: InClass(Class(Yes, No, Yes, Any), p, revision))
    && (forall p | p in failing :: InClass(Class(No, No, No, Any), p, revision))
  }

  lemma HalfFailingTally(updated: seq<Pod>, failing: seq<Pod>, revision: string)
    requires HalfFailing(updated, failing, revision)
    ensures Planner.TallyOf(updated + failing, revision)
         == Planner.Tally(|updated| + |failing|, |failing|, 0, |failing|)
    ensures Select(MARKED, updated + failing, revision) == []
    ensures Select(UPDATED, updated + failing, revision) == updated
  {
    SelectAppend(MARKED, updated, failing, revision);
    SelectNone(MARKED, updated, revision);
    SelectNone(MARKED, failing, revision);
    SelectAppend(UPDATED, updated, failing, revision);
    SelectAll(UPDATED, updated, revision);
    SelectNone(UPDATED, failing, revision);
    SelectLength(MARKED, updated + failing, revision);
    CountSecond(KEPT_OUTDATED, updated, failing, revision);
    CountSecond(Class(Any, No, No, Any), updated, failing, revision);
  }

  /**
   * With as many failing old pods as replicas, and no surge, the planner asks for all the updated pods, so the list
   * is not sorted, and the ready limit lets the first of them go in listed order.
   */
  lemma FailingOldTakesFirst(spec: Planner.Spec, updated: seq<Pod>, failing: seq<Pod>, revision: string, step: Step)
    requires HalfFailing(updated, failing, revision) && updated != []
    requires Planner.MaxSurge(spec) <= 0 && |failing| >= spec.replicas
    ensures
      && var limit := Planner.MaxUnavailable(spec) + |updated| - spec.replicas;
      && (Decided(spec, updated + failing, revision, step)
          <==> step.Deleting? && step.list == updated[..Planner.Min(|updated|, Planner.Max(limit, 0))])
  {
    var plan := Planner.PlanOf(spec, updated + failing, revision);
    HalfFailingTally(updated, failing, revision);
    assert plan.scaleUpNum == 0 && plan.scaleDownNum >= |updated|;
    AffordablePrefix(updated, plan.deleteReadyLimit, false);
    assert forall chosen :: Chosen(updated, plan.scaleDownNum, chosen) <==> chosen == updated;
  }

  /**
   * A choice that the unsorted branch makes uneven: three replicas, one allowed to be unavailable, three failing old
   * pods, and one updated pod on b listed before two on a. The step deletes the pod on b.
   */
  lemma UnsortedChoiceCanUnbalance(spec: Planner.Spec, b: Pod, a1: Pod, a2: Pod, failing: seq<Pod>, revision: string,
                                   step: Step)
    requires spec.replicas == 3 && Planner.MaxSurge(spec) == 0 && Planner.MaxUnavailable(spec) == 1
    requires HalfFailing([b, a1, a2], failing, revision) && |failing| == 3
    requires DistinctUids([b, a1, a2]) && b.nodeName == "b" && a1.nodeName == "a" && a2.nodeName == "a"
    ensures Decided(spec, [b, a1, a2] + failing, revision, step) <==> step.Deleting? && step.list == [b]
    ensures !Levelled([b, a1, a2], [b], "b", "a")
  {
    FailingOldTakesFirst(spec, [b, a1, a2], failing, revision, step);
    assert [b, a1, a2][..1] == [b];
    FirstLeavesTwo(b, a1, a2);
  }

  lemma FirstLeavesTwo(b: Pod, a1: Pod, a2: Pod)
    requires DistinctUids([b, a1, a2]) && b.nodeName == "b" && a1.nodeName == "a" && a2.nodeName == "a"
    ensures !Levelled([b, a1, a2], [b], "b", "a")
  {
    var pods := [b, a1, a2];
    assert pods[1].uid != pods[2].uid;
    assert Survivors(pods, [b], "b") == {};
    assert Survivors(pods, [b], "a") == {a1, a2};
    assert b in [b];
  }

  ghost function OnNodeSet(pods: seq<Pod>, node: string): set<Pod> {
    set p | p in pods && p.nodeName == node
  }

  /** Distinct pods make a set as large as the list. */
  lemma {:induction false} DistinctListSize(pods: seq<Pod>)
    requires DistinctUids(pods)
    ensures |Elements(pods)| == |pods|
  {
    if pods != [] {
      var front, last := pods[..|pods| - 1], pods[|pods| - 1];
      DistinctListSize(front);
      assert Elements(pods) == Elements(front) + {last};
    } else {
      assert Elements(pods) == {};
    }
  }

  lemma SurvivorSets(pods: seq<Pod>, order: seq<Pod>, k: nat, node: string)
    requires DistinctUids(pods) && multiset(order) == multiset(pods) && k <= |order|
    ensures Survivors(pods, order[..k], node) == OnNodeSet(pods, node) - Elements(order[..k])
    ensures Survivors(pods, order[..k], node) <= Elements(order[k..])
  {
    SortKeepsUids(order, pods);
    assert order == order[..k] + order[k..];
  }

  /** After k deletions a node keeps all but k of its pods at least, and no more than are left in all. */
  lemma SurvivorBounds(pods: seq<Pod>, order: seq<Pod>, k: nat, node: string)
    requires DistinctUids(pods) && multiset(order) == multiset(pods) && k <= |order|
    ensures |Survivors(pods, order[..k], node)| >= |OnNodeSet(pods, node)| - k
    ensures |Survivors(pods, order[..k], node)| <= |OnNodeSet(pods, node)|
    ensures |Survivors(pods, order[..k], node)| <= |pods| - k
  {
    SurvivorSets(pods, order, k, node);
    SortKeepsUids(order, pods);
    DistinctListSize(order[..k]);
    DistinctListSize(order[k..]);
    SubsetSize(OnNodeSet(pods, node) * Elements(order[..k]), Elements(order[..k]));
    SubsetSize(Survivors(pods, order[..k], node), OnNodeSet(pods, node));
    SubsetSize(Survivors(pods, order[..k], node), Elements(order[k..]));
  }

  /** What is on neither node. */
  function Elsewhere(pods: seq<Pod>, x: string, y: string): seq<Pod> {
    if pods == [] then []
    else
      var front := Elsewhere(pods[..|pods| - 1], x, y);
      var last := pods[|pods| - 1];
      if last.nodeName == x || last.nodeName == y then front else front + [last]
  }

  lemma AddLast(a: seq<Pod>, b: seq<Pod>, c: seq<Pod>, p: Pod)
    ensures multiset(a + [p] + b + c) == multiset(a + b + c) + multiset{p}
    ensures multiset(a + (b + [p]) + c) == multiset(a + b + c) + multiset{p}
    ensures multiset(a + b + (c + [p])) == multiset(a + b + c) + multiset{p}
  {
  }

  lemma {:induction false} SplitByNode(pods: seq<Pod>, x: string, y: string)
    requires x != y
    ensures multiset(OnNode(pods, x) + Elsewhere(pods, x, y) + OnNode(pods, y)) == multiset(pods)
  {
    if pods != [] {
      var front, last := pods[..|pods| - 1], pods[|pods| - 1];
      SplitByNode(front, x, y);
      AddLast(OnNode(front, x), Elsewhere(front, x, y), OnNode(front, y), last);
      assert pods == front + [last];
    }
  }

  /** The part of a block that starts at `at` and is left when the first k elements of the list go. */
  function BlockLeft(block: seq<Pod>, at: nat, k: nat): seq<Pod> {
    if k <= at then block else if k >= at + |block| then [] else block[k - at..]
  }

  lemma NodeAsBlock(pods: seq<Pod>, deleted: seq<Pod>, node: string)
    ensures OnNodeSet(pods, node) == Elements(OnNode(pods, node))
    ensures Survivors(pods, deleted, node) == Elements(OnNode(pods, node)) - Elements(deleted)
  {
    OnNodeMeaning(pods, node);
  }

  lemma BlockMinusFront(order: seq<Pod>, k: nat, block: seq<Pod>, at: nat)
    requires DistinctUids(order) && k <= |order|
    requires at + |block| <= |order| && block == order[at..at + |block|]
    ensures Elements(block) - Elements(order[..k]) == Elements(BlockLeft(block, at, k))
  {
  }

  lemma BlocksDistinct(order: seq<Pod>, k: nat, block: seq<Pod>, at: nat)
    requires DistinctUids(order) && at + |block| <= |order| && block == order[at..at + |block|]
    ensures DistinctUids(block) && DistinctUids(BlockLeft(block, at, k))
  {
  }

  /** The survivors of a node whose pods are listed as one block. */
  lemma SurvivorsOfBlock(pods: seq<Pod>, order: seq<Pod>, k: nat, node: string, at: nat)
    requires DistinctUids(pods) && multiset(order) == multiset(pods) && k <= |order|
    requires at + |OnNode(pods, node)| <= |order|
    requires OnNode(pods, node) == order[at..at + |OnNode(pods, node)|]
    ensures |OnNodeSet(pods, node)| == |OnNode(pods, node)|
    ensures |Survivors(pods, order[..k], node)| == |BlockLeft(OnNode(pods, node), at, k)|
  {
    var block := OnNode(pods, node);
    OnNodeMeaning(pods, node);
    SortKeepsUids(order, pods);
    BlocksDistinct(order, k, block, at);
    DistinctListSize(block);
    DistinctListSize(BlockLeft(block, at, k));
    NodeAsBlock(pods, order[..k], node);
    BlockMinusFront(order, k, block, at);
  }

  /** Some order of the list has the pods of x as its first block and those of y as its last. */
  lemma XFirstYLast(pods: seq<Pod>, x: string, y: string) returns (order: seq<Pod>)
    requires x != y
    ensures multiset(order) == multiset(pods) && |order| == |pods|
    ensures |OnNode(pods, x)| + |OnNode(pods, y)| <= |order|
    ensures OnNode(pods, x) == order[0..|OnNode(pods, x)|]
    ensures OnNode(pods, y) == order[|order| - |OnNode(pods, y)|..|order|]
  {
    order := OnNode(pods, x) + Elsewhere(pods, x, y) + OnNode(pods, y);
    SplitByNode(pods, x, y);
    assert |order| == |multiset(order)| == |multiset(pods)| == |pods|;
  }

  lemma FirstIsOnNode(pods: seq<Pod>, order: seq<Pod>, k: nat, x: string)
    requires 0 < k <= |order| && OnNodeSet(pods, x) != {}
    requires |OnNode(pods, x)| <= |order| && OnNode(pods, x) == order[0..|OnNode(pods, x)|]
    ensures exists p | p in order[..k] :: p.nodeName == x
  {
    OnNodeMeaning(pods, x);
    var p :| p in OnNodeSet(pods, x);
    assert p in OnNode(pods, x);
    assert order[..k][0] == OnNode(pods, x)[0] && OnNode(pods, x)[0] in OnNode(pods, x);
  }

  /** Listing x first and y last is the worst order: it empties x before it touches y. */
  lemma WorstOrder(pods: seq<Pod>, k: nat, x: string, y: string) returns (order: seq<Pod>)
    requires DistinctUids(pods) && x != y && k <= |pods|
    ensures multiset(order) == multiset(pods) && |order| == |pods|
    ensures |Survivors(pods, order[..k], x)| == Planner.Max(|OnNodeSet(pods, x)| - k, 0)
    ensures |Survivors(pods, order[..k], y)| == Planner.Min(|OnNodeSet(pods, y)|, |pods| - k)
    ensures k > 0 && OnNodeSet(pods, x) != {} ==> exists p | p in order[..k] :: p.nodeName == x
  {
    order := XFirstYLast(pods, x, y);
    SurvivorsOfBlock(pods, order, k, x, 0);
    SurvivorsOfBlock(pods, order, k, y, |order| - |OnNode(pods, y)|);
    if k > 0 && OnNodeSet(pods, x) != {} {
      FirstIsOnNode(pods, order, k, x);
    }
  }

  /** An order of the list for which the first k deletions leave x two or more behind y. */
  ghost predicate Unbalances(order: seq<Pod>, pods: seq<Pod>, k: nat, x: string, y: string) {
    multiset(order) == multiset(pods) && k <= |order| && !Levelled(pods, order[..k], x, y)
  }

  /**
   * When the unsorted branch runs, some order of the list leaves x two or more behind y exactly when x has a pod
   * to lose and, emptied first, ends up that far behind.
   */
  lemma UnsortedBranchExactly(pods: seq<Pod>, k: nat, x: string, y: string)
    requires DistinctUids(pods) && x != y && 0 < k <= |pods|
    ensures (exists order :: Unbalances(order, pods, k, x, y))
       <==> && OnNodeSet(pods, x) != {}
            && Planner.Max(|OnNodeSet(pods, x)| - k, 0) + 1 < Planner.Min(|OnNodeSet(pods, y)|, |pods| - k)
  {
    if order: seq<Pod> :| Unbalances(order, pods, k, x, y) {
      SurvivorBounds(pods, order, k, x);
      SurvivorBounds(pods, order, k, y);
      var p: Pod :| p in order[..k] && p.nodeName == x;
      assert p in multiset(order);
      assert p in OnNodeSet(pods, x);
    }
    if OnNodeSet(pods, x) != {}
       && Planner.Max(|OnNodeSet(pods, x)| - k, 0) + 1 < Planner.Min(|OnNodeSet(pods, y)|, |pods| - k) {
      var order := WorstOrder(pods, k, x, y);
      assert Unbalances(order, pods, k, x, y);
    }
  }
}
