/** Which pods a scale-in gives up: ranks per node, the choice, and the cut by the ready limit. */
module ScaleIn {
  import opened Kube
  import opened PodOrder
  import Planner

  ghost predicate DistinctUids(pods: seq<Pod>) {
    forall i, j | 0 <= i < j < |pods| :: pods[i].uid != pods[j].uid
  }

  function OnNode(pods: seq<Pod>, node: string): seq<Pod> {
    if pods == [] then []
    else
      var front := OnNode(pods[..|pods| - 1], node);
      if pods[|pods| - 1].nodeName == node then front + [pods[|pods| - 1]] else front
  }

  lemma {:induction false} OnNodeMeaning(pods: seq<Pod>, node: string)
    ensures forall p :: p in OnNode(pods, node) <==> p in pods && p.nodeName == node
    ensures DistinctUids(pods) ==> DistinctUids(OnNode(pods, node))
  {
    if pods != [] {
      var front := pods[..|pods| - 1];
      OnNodeMeaning(front, node);
      assert pods == front + [pods[|pods| - 1]];
      if DistinctUids(pods) {
        forall i | 0 <= i < |OnNode(front, node)| ensures OnNode(front, node)[i].uid != pods[|pods| - 1].uid {
          assert OnNode(front, node)[i] in front;
        }
      }
    }
  }

  // ---------- Ranks ----------

  function RankIn(ranks: map<string, int>, p: Pod): int {
    if p.uid in ranks then ranks[p.uid] else 0
  }

  /** The pods of one node in the order they were sorted, the first to go ranked highest and the last ranked zero. */
  ghost predicate RanksGroup(ranks: map<string, int>, group: seq<Pod>) {
    forall i | 0 <= i < |group| :: RankIn(ranks, group[i]) == |group| - 1 - i
  }

  ghost predicate RanksNode(pods: seq<Pod>, ranks: map<string, int>, node: string) {
    exists group :: IsSortOf(UNRANKED, group, OnNode(pods, node)) && RanksGroup(ranks, group)
  }

  ghost predicate RanksNodes(pods: seq<Pod>, ranks: map<string, int>) {
    forall node | node != "" :: RanksNode(pods, ranks, node)
  }

  method GroupByNode(pods: seq<Pod>) returns (podsOnNode: map<string, seq<Pod>>)
    ensures forall node :: node in podsOnNode ==> node != "" && podsOnNode[node] == OnNode(pods, node)
    ensures forall node :: node != "" && node !in podsOnNode ==> OnNode(pods, node) == []
  {
    podsOnNode := map[];
    for i := 0 to |pods|
      invariant forall node :: node in podsOnNode ==> node != "" && podsOnNode[node] == OnNode(pods[..i], node)
      invariant forall node :: node != "" && node !in podsOnNode ==> OnNode(pods[..i], node) == []
    {
      assert pods[..i + 1][..i] == pods[..i];
      var node := pods[i].nodeName;
      if node != "" {
        var before := if node in podsOnNode then podsOnNode[node] else [];
        podsOnNode := podsOnNode[node := before + [pods[i]]];
      }
    }
    assert pods[..|pods|] == pods;
  }

  /** Ranks one sorted group: all but its last pod get an entry, and no other pod's rank changes. */
  method RankGroup(ranks: map<string, int>, group: seq<Pod>) returns (r: map<string, int>)
    requires group != [] && DistinctUids(group)
    requires forall p | p in group :: p.uid !in ranks
    ensures RanksGroup(r, group)
    ensures forall uid :: uid in ranks ==> uid in r && r[uid] == ranks[uid]
    ensures forall uid :: uid in r && uid !in ranks ==> exists p | p in group :: p.uid == uid
  {
    r := ranks;
    var ranked := group[..|group| - 1];
    for i := 0 to |ranked|
      invariant forall k | 0 <= k < i :: group[k].uid in r && r[group[k].uid] == |ranked| - k
      invariant forall k | i <= k < |group| :: group[k].uid !in r
      invariant forall uid :: uid in ranks ==> uid in r && r[uid] == ranks[uid]
      invariant forall uid :: uid in r && uid !in ranks ==> exists p | p in group :: p.uid == uid
    {
      assert ranked[i] == group[i];
      forall k | 0 <= k < |group| && k != i ensures group[k].uid != ranked[i].uid {
      }
      r := r[ranked[i].uid := |ranked| - i];
    }
  }

  /** The nodes in `done` are ranked, and only their pods have an entry. */
  ghost predicate RankedSoFar(pods: seq<Pod>, ranks: map<string, int>, done: set<string>) {
    && (forall node | node in done :: RanksNode(pods, ranks, node))
    && (forall uid | uid in ranks :: exists p | p in pods :: p.uid == uid && p.nodeName in done)
  }

  /** Sorts the pods of one node and ranks them. */
  method RankNode(pods: seq<Pod>, ranks: map<string, int>, ghost done: set<string>, node: string, onNode: seq<Pod>)
    returns (r: map<string, int>)
    requires DistinctUids(pods) && RankedSoFar(pods, ranks, done)
    requires node !in done && onNode == OnNode(pods, node)
    ensures RankedSoFar(pods, r, done + {node})
  {
    var group := Sort(UNRANKED, onNode);
    OnNodeMeaning(pods, node);
    SortKeepsUids(group, onNode);
    forall p | p in group ensures p.uid !in ranks {
      forall q | q in pods && q.nodeName in done ensures q.uid != p.uid {
        DifferentNodes(pods, p, q);
      }
    }
    r := ranks;
    if |group| > 1 {
      r := RankGroup(ranks, group);
    }
    assert RanksGroup(r, group);
    forall other | other in done ensures RanksNode(pods, r, other) {
      RanksKept(pods, ranks, r, other, group, node);
    }
  }

  method NewSameNodeRanker(pods: seq<Pod>) returns (ranks: map<string, int>)
    requires DistinctUids(pods)
    ensures RanksNodes(pods, ranks)
  {
    ranks := map[];
    var podsOnNode := GroupByNode(pods);
    var todo := podsOnNode.Keys;
    while todo != {}
      invariant todo <= podsOnNode.Keys
      invariant RankedSoFar(pods, ranks, podsOnNode.Keys - todo)
      decreases todo
    {
      var node :| node in todo;
      ranks := RankNode(pods, ranks, podsOnNode.Keys - todo, node, podsOnNode[node]);
      assert podsOnNode.Keys - todo + {node} == podsOnNode.Keys - (todo - {node});
      todo := todo - {node};
    }
    forall node | node != "" ensures RanksNode(pods, ranks, node) {
      if node !in podsOnNode {
        assert IsSortOf(UNRANKED, [], OnNode(pods, node)) && RanksGroup(ranks, []);
      }
    }
  }

  lemma DifferentNodes(pods: seq<Pod>, p: Pod, q: Pod)
    requires DistinctUids(pods) && p in pods && q in pods && p.nodeName != q.nodeName
    ensures p.uid != q.uid
  {
  }

  lemma {:induction false} SortKeepsUids(sorted: seq<Pod>, pods: seq<Pod>)
    requires multiset(sorted) == multiset(pods) && DistinctUids(pods)
    ensures DistinctUids(sorted)
    ensures |sorted| == |pods|
    ensures forall p :: p in sorted <==> p in pods
    decreases |sorted|
  {
    if sorted == [] {
      assert |multiset(pods)| == 0;
    } else {
      var i := PermutationShrinks(sorted, pods);
      var front, rest := sorted[..|sorted| - 1], pods[..i] + pods[i + 1..];
      SortKeepsUids(front, rest);
      assert sorted == front + [sorted[|sorted| - 1]];
      assert pods == pods[..i] + [pods[i]] + pods[i + 1..];
      forall k | 0 <= k < |front| ensures front[k].uid != pods[i].uid {
        assert front[k] in rest;
      }
    }
  }

  /** Ranking one more node leaves the ranks of the others alone. */
  lemma RanksKept(pods: seq<Pod>, before: map<string, int>, after: map<string, int>,
                  node: string, added: seq<Pod>, addedNode: string)
    requires DistinctUids(pods) && node != addedNode && RanksNode(pods, before, node)
    requires forall p | p in added :: p in pods && p.nodeName == addedNode
    requires forall uid :: uid in before ==> uid in after && after[uid] == before[uid]
    requires forall uid :: uid in after && uid !in before ==> exists p | p in added :: p.uid == uid
    ensures RanksNode(pods, after, node)
  {
    var group: seq<Pod> :| IsSortOf(UNRANKED, group, OnNode(pods, node)) && RanksGroup(before, group);
    OnNodeMeaning(pods, node);
    forall i | 0 <= i < |group| ensures RankIn(after, group[i]) == RankIn(before, group[i]) {
      assert group[i] in multiset(group);
      forall p | p in added ensures p.uid != group[i].uid {
        DifferentNodes(pods, p, group[i]);
      }
    }
    assert RanksGroup(after, group);
  }

  ghost predicate HoldsRank(pods: seq<Pod>, ranks: map<string, int>, node: string, rank: int) {
    exists p | p in pods && p.nodeName == node :: RankIn(ranks, p) == rank
  }

  /** Ranks on a node run from zero to one less than its pods, each held by exactly one pod. */
  lemma RanksAreExact(pods: seq<Pod>, ranks: map<string, int>, node: string)
    requires DistinctUids(pods) && RanksNode(pods, ranks, node)
    ensures forall rank :: 0 <= rank < |OnNode(pods, node)| <==> HoldsRank(pods, ranks, node, rank)
    ensures forall p, q | p in pods && q in pods && p.nodeName == q.nodeName == node ::
      RankIn(ranks, p) == RankIn(ranks, q) ==> p == q
  {
    var group: seq<Pod> :| IsSortOf(UNRANKED, group, OnNode(pods, node)) && RanksGroup(ranks, group);
    OnNodeMeaning(pods, node);
    SortKeepsUids(group, OnNode(pods, node));
    forall rank ensures 0 <= rank < |group| <==> HoldsRank(pods, ranks, node, rank) {
      if 0 <= rank < |group| {
        var p := group[|group| - 1 - rank];
        assert p in group && RankIn(ranks, p) == rank;
      }
      if HoldsRank(pods, ranks, node, rank) {
        var p :| p in pods && p.nodeName == node && RankIn(ranks, p) == rank;
        assert p in group;
      }
    }
    forall p, q | p in pods && q in pods && p.nodeName == q.nodeName == node && RankIn(ranks, p) == RankIn(ranks, q)
      ensures p == q
    {
      assert p in group && q in group;
    }
  }

  const RUNNING_TEST: Pod -> bool := p => IsRunning(p)

  function Ranked(ranks: map<string, int>): Order {
    Order(Some(ranks), Some(RUNNING_TEST))
  }

  /** A pod that sorts strictly before another on its node gets the higher rank. */
  lemma RankFollowsOrder(pods: seq<Pod>, ranks: map<string, int>, a: Pod, b: Pod)
    requires DistinctUids(pods) && RanksNode(pods, ranks, a.nodeName)
    requires a in pods && b in pods && a.nodeName == b.nodeName && Less(UNRANKED, a, b)
    ensures RankIn(ranks, a) > RankIn(ranks, b)
  {
    var group: seq<Pod> :| IsSortOf(UNRANKED, group, OnNode(pods, a.nodeName)) && RanksGroup(ranks, group);
    OnNodeMeaning(pods, a.nodeName);
    SortKeepsUids(group, OnNode(pods, a.nodeName));
    assert a in group && b in group;
    var i :| 0 <= i < |group| && group[i] == a;
    var j :| 0 <= j < |group| && group[j] == b;
    LessIsStrictWeakOrder(UNRANKED, a, b, a);
    assert i < j;
  }

  /** Levels one to three are the same in both orders, because the running test repeats what the phase says. */
  lemma RanksRefine(ranks: map<string, int>, a: Pod, b: Pod)
    requires a.nodeName == b.nodeName
    ensures Less(UNRANKED, a, b) && RankIn(ranks, a) > RankIn(ranks, b) ==> Less(Ranked(ranks), a, b)
    ensures RankIn(ranks, a) != RankIn(ranks, b) ==> Less(Ranked(ranks), a, b) || Less(Ranked(ranks), b, a)
  {
  }

  /** On one node the ranked order is total and never contradicts the order the ranks came from. */
  lemma RankedExtendsUnranked(pods: seq<Pod>, ranks: map<string, int>, a: Pod, b: Pod)
    requires DistinctUids(pods) && RanksNodes(pods, ranks)
    requires a in pods && b in pods && a.nodeName == b.nodeName != ""
    ensures Less(UNRANKED, a, b) ==> Less(Ranked(ranks), a, b)
    ensures a != b ==> Less(Ranked(ranks), a, b) || Less(Ranked(ranks), b, a)
  {
    assert RanksNode(pods, ranks, a.nodeName);
    RanksAreExact(pods, ranks, a.nodeName);
    RanksRefine(ranks, a, b);
    if Less(UNRANKED, a, b) {
      RankFollowsOrder(pods, ranks, a, b);
    }
  }

  // ---------- The choice and the cut ----------

  /** What choosePodsToDelete may return for `diff` pods out of `pods`. */
  ghost predicate Chosen(pods: seq<Pod>, diff: nat, chosen: seq<Pod>) {
    if diff < |pods| then
      exists ranks, sorted ::
        RanksNodes(pods, ranks) && IsSortOf(Ranked(ranks), sorted, pods) && |sorted| >= diff && chosen == sorted[..diff]
    else chosen == pods
  }

  method ChoosePodsToDelete(totalDiff: nat, updatedPods: seq<Pod>) returns (chosen: seq<Pod>)
    requires DistinctUids(updatedPods)
    ensures Chosen(updatedPods, totalDiff, chosen)
  {
    var pods := updatedPods;
    if totalDiff < |pods| {
      var ranks := NewSameNodeRanker(pods);
      pods := Sort(Ranked(ranks), pods);
      SortKeepsUids(pods, updatedPods);
      assert IsSortOf(Ranked(ranks), pods, updatedPods);
    } else if totalDiff > |pods| {
      return pods;
    }
    return pods[..totalDiff];
  }

  /** If one pod is chosen and another left behind, the one left behind does not sort before it. */
  lemma ChosenSortsFirst(pods: seq<Pod>, diff: nat, chosen: seq<Pod>, p: Pod, q: Pod)
    returns (ranks: map<string, int>)
    requires Chosen(pods, diff, chosen) && p in chosen && q in pods && q !in chosen
    ensures RanksNodes(pods, ranks) && !Less(Ranked(ranks), q, p)
    ensures p in pods
  {
    var sorted: seq<Pod>;
    ranks, sorted :|
      RanksNodes(pods, ranks) && IsSortOf(Ranked(ranks), sorted, pods) && |sorted| >= diff && chosen == sorted[..diff];
    assert q in multiset(sorted) && p in multiset(sorted);
    var i :| 0 <= i < diff && sorted[i] == p;
    var j :| 0 <= j < |sorted| && sorted[j] == q;
    assert forall k | 0 <= k < diff :: sorted[k] in chosen;
  }

  /**
   * Who is given up first: pods without a node, then pending and finished ones, then unknown ones, then running
   * ones that are not ready; and of equals on one node those ready last, or restarted most.
   */
  lemma WorstAreChosen(pods: seq<Pod>, diff: nat, chosen: seq<Pod>, p: Pod, q: Pod)
    requires DistinctUids(pods) && Chosen(pods, diff, chosen) && p in chosen && q in pods && q !in chosen
    ensures p.nodeName != "" ==> q.nodeName != ""
    ensures p.nodeName != "" && p.phase.Running? ==> q.phase.Running?
    ensures p.nodeName != "" && p.phase.Unknown? ==> q.phase.Running? || q.phase.Unknown?
    ensures p.nodeName != "" && p.phase == q.phase && IsPodReady(p) ==> IsPodReady(q)
    ensures p.nodeName == q.nodeName != "" && p.phase == q.phase && IsPodReady(p) && ReadyTime(p) != 0 ==>
      0 != ReadyTime(q) <= ReadyTime(p)
    ensures p.nodeName == q.nodeName != "" && p.phase == q.phase && !IsPodReady(p) && !IsPodReady(q) ==>
      MaxRestarts(q.statuses) <= MaxRestarts(p.statuses)
  {
    var ranks := ChosenSortsFirst(pods, diff, chosen, p, q);
    if p.nodeName == q.nodeName != "" {
      RankedExtendsUnranked(pods, ranks, q, p);
    }
  }

  predicate Up(p: Pod, byAvailability: bool) {
    if byAvailability then IsPodAvailable(p) else IsRunning(p)
  }

  /** The pods that may be deleted: every pod that is not up, and the first `limit` that are. */
  function Affordable(pods: seq<Pod>, limit: int, byAvailability: bool): seq<Pod> {
    if pods == [] then []
    else if !Up(pods[0], byAvailability) then [pods[0]] + Affordable(pods[1..], limit, byAvailability)
    else if limit > 0 then [pods[0]] + Affordable(pods[1..], limit - 1, byAvailability)
    else Affordable(pods[1..], limit, byAvailability)
  }

  function UpCount(pods: seq<Pod>, byAvailability: bool): nat {
    if pods == [] then 0 else (if Up(pods[0], byAvailability) then 1 else 0) + UpCount(pods[1..], byAvailability)
  }

  lemma {:induction false} AffordableStep(pods: seq<Pod>, i: nat, limit: int, byAvailability: bool)
    requires i < |pods|
    ensures Affordable(pods[i..], limit, byAvailability)
         == if !Up(pods[i], byAvailability) then [pods[i]] + Affordable(pods[i + 1..], limit, byAvailability)
            else if limit > 0 then [pods[i]] + Affordable(pods[i + 1..], limit - 1, byAvailability)
            else Affordable(pods[i + 1..], limit, byAvailability)
  {
  }

  lemma Regroup<T>(a: seq<T>, x: T, b: seq<T>)
    ensures a + ([x] + b) == (a + [x]) + b
  {
  }

  method CutByReadyLimit(pods: seq<Pod>, limit: int, byAvailability: bool) returns (r: seq<Pod>, left: int)
    ensures r == Affordable(pods, limit, byAvailability)
    ensures left == limit - UpCount(r, byAvailability)
  {
    r := [];
    left := limit;
    for i := 0 to |pods|
      invariant r + Affordable(pods[i..], left, byAvailability) == Affordable(pods, limit, byAvailability)
      invariant left == limit - UpCount(r, byAvailability)
    {
      AffordableStep(pods, i, left, byAvailability);
      ghost var spent := if Up(pods[i], byAvailability) then left - 1 else left;
      if !Up(pods[i], byAvailability) || left > 0 {
        UpCountAppend(r, pods[i], byAvailability);
        Regroup(r, pods[i], Affordable(pods[i + 1..], spent, byAvailability));
      }
      if !Up(pods[i], byAvailability) {
        r := r + [pods[i]];
      } else if left > 0 {
        r := r + [pods[i]];
        left := left - 1;
      }
    }
    assert r + [] == r;
  }

  lemma {:induction false} UpCountAppend(pods: seq<Pod>, p: Pod, byAvailability: bool)
    ensures UpCount(pods + [p], byAvailability)
         == UpCount(pods, byAvailability) + if Up(p, byAvailability) then 1 else 0
  {
    if pods == [] {
      assert [] + [p] == [p];
    } else {
      assert (pods + [p])[1..] == pods[1..] + [p];
      UpCountAppend(pods[1..], p, byAvailability);
    }
  }

  /** The cut takes every pod that is down and as many that are up as the limit allows. */
  lemma {:induction false} AffordableCount(pods: seq<Pod>, limit: int, byAvailability: bool)
    ensures
      && var r := Affordable(pods, limit, byAvailability);
      && UpCount(r, byAvailability) == Planner.Min(UpCount(pods, byAvailability), Planner.Max(limit, 0))
      && |r| == |pods| - UpCount(pods, byAvailability) + UpCount(r, byAvailability)
  {
    if pods != [] {
      var spent := if Up(pods[0], byAvailability) && limit > 0 then limit - 1 else limit;
      AffordableCount(pods[1..], spent, byAvailability);
    }
  }

  lemma {:induction false} AffordableMembers(pods: seq<Pod>, limit: int, byAvailability: bool)
    ensures
      && var r := Affordable(pods, limit, byAvailability);
      && (forall p | p in r :: p in pods)
      && (forall p | p in pods && !Up(p, byAvailability) :: p in r)
      && (DistinctNames(pods) ==> DistinctNames(r))
  {
    if pods != [] {
      var spent := if Up(pods[0], byAvailability) && limit > 0 then limit - 1 else limit;
      AffordableMembers(pods[1..], spent, byAvailability);
      var rest := Affordable(pods[1..], spent, byAvailability);
      assert pods == [pods[0]] + pods[1..];
      if DistinctNames(pods) {
        forall i | 0 <= i < |rest| ensures rest[i].name != pods[0].name {
          assert rest[i] in rest && rest[i] in pods[1..];
        }
      }
    }
  }

  lemma {:induction false} UpCountAll(pods: seq<Pod>, byAvailability: bool)
    requires forall p | p in pods :: Up(p, byAvailability)
    ensures UpCount(pods, byAvailability) == |pods|
  {
    if pods != [] {
      UpCountAll(pods[1..], byAvailability);
    }
  }

  /** When every pod is up the cut is a prefix. */
  lemma {:induction false} AffordablePrefix(pods: seq<Pod>, limit: int, byAvailability: bool)
    requires forall p | p in pods :: Up(p, byAvailability)
    ensures Affordable(pods, limit, byAvailability) == pods[..Planner.Min(|pods|, Planner.Max(limit, 0))]
  {
    if pods != [] {
      AffordablePrefix(pods[1..], if limit > 0 then limit - 1 else limit, byAvailability);
      assert pods == [pods[0]] + pods[1..];
    }
  }
}
