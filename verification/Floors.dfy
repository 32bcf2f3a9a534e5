/** What one pass leaves running: the availability floor of scaling and of updating. */
module Floors {
  import opened Kube
  import opened Planner
  import opened Api
  import opened Batches
  import opened ScaleIn
  import opened Scaling
  import opened Updating

  // ---------- Counting what a step leaves ----------

  /** The pods whose creation succeeded. */
  function CreatedPods(queue: seq<Pod>, outcomes: seq<bool>): seq<Pod>
    requires |outcomes| <= |queue|
  {
    if outcomes == [] then []
    else
      var last := |outcomes| - 1;
      CreatedPods(queue, outcomes[..last]) + if outcomes[last] then [queue[last]] else []
  }

  lemma {:induction false} CreationsApply(pods: seq<Pod>, queue: seq<Pod>, outcomes: seq<bool>)
    requires |outcomes| <= |queue|
    ensures Apply(pods, Creations(queue, outcomes)) == pods + CreatedPods(queue, outcomes)
    ensures forall p | p in CreatedPods(queue, outcomes) :: p in queue
    ensures |CreatedPods(queue, outcomes)| == Successes(outcomes)
  {
    if outcomes != [] {
      var last := |outcomes| - 1;
      var w := Creations(queue, outcomes[..last]);
      CreationsApply(pods, queue, outcomes[..last]);
      StoredApplies(pods, w, if outcomes[last] then [Created(queue[last])] else []);
    }
  }

  lemma DeletionCount(c: Class, pods: seq<Pod>, p: Pod, revision: string)
    requires DistinctNames(pods) && p in pods
    ensures
      && var left := Without(pods, p.name);
      && DistinctNames(left) && Count(c, left, revision) == Count(c, pods, revision) - One(c, p, revision)
      && forall q :: q in left <==> q in pods && q.name != p.name
  {
    var i :| 0 <= i < |pods| && pods[i] == p;
    WithoutIndex(pods, i);
    CountWithout(c, pods, i, revision);
    WithoutDistinct(pods, p.name);
  }

  lemma NamesSplit(list: seq<Pod>)
    requires list != []
    ensures forall name :: HasName(list, name) <==> HasName(list[..|list| - 1], name) || list[|list| - 1].name == name
    ensures DistinctNames(list) ==>
      DistinctNames(list[..|list| - 1]) && !HasName(list[..|list| - 1], list[|list| - 1].name)
  {
  }

  /** Deleting listed pods takes them out of every count, and leaves the rest. */
  lemma {:induction false} DeletionsCount(c: Class, pods: seq<Pod>, list: seq<Pod>, revision: string)
    requires DistinctNames(pods) && DistinctNames(list) && forall p | p in list :: p in pods
    ensures
      && var left := Apply(pods, Deletions(list));
      && DistinctNames(left)
      && Count(c, left, revision) == Count(c, pods, revision) - Count(c, list, revision)
      && forall p :: p in left <==> p in pods && !HasName(list, p.name)
  {
    if list != [] {
      var front, last := list[..|list| - 1], list[|list| - 1];
      assert list == front + [last];
      NamesSplit(list);
      DeletionsCount(c, pods, front, revision);
      LastDeletion(pods, list);
      DeletionCount(c, Apply(pods, Deletions(front)), last, revision);
      assert Count(c, list, revision) == Count(c, front, revision) + One(c, last, revision);
    }
  }

  lemma LastDeletion(pods: seq<Pod>, list: seq<Pod>)
    requires list != []
    ensures
      && var last := |list| - 1;
      && Apply(pods, Deletions(list)) == Without(Apply(pods, Deletions(list[..last])), list[last].name)
  {
    var last := |list| - 1;
    assert Deletions(list) == Deletions(list[..last]) + [Deleted(list[last].name)];
    StoredApplies(pods, Deletions(list[..last]), [Deleted(list[last].name)]);
  }

  lemma {:induction false} UpCountIsCount(pods: seq<Pod>, byAvailability: bool, revision: string)
    ensures UpCount(pods, byAvailability)
         == Count(if byAvailability then Class(Any, Any, Any, Yes) else RUNNING, pods, revision)
  {
    if pods != [] {
      var c := if byAvailability then Class(Any, Any, Any, Yes) else RUNNING;
      UpCountIsCount(pods[1..], byAvailability, revision);
      assert pods == [pods[0]] + pods[1..];
      CountAppend(c, [pods[0]], pods[1..], revision);
      CountOne(c, pods[0], revision);
    }
  }

  /** The cut keeps every pod that is not up, so the classes of such pods keep their counts. */
  lemma {:induction false} AffordableKeepsDown(c: Class, pods: seq<Pod>, limit: int, byAvailability: bool,
                                               revision: string)
    requires if byAvailability then c.available.No? else c.running.No?
    ensures Count(c, Affordable(pods, limit, byAvailability), revision) == Count(c, pods, revision)
  {
    if pods != [] {
      var spent := if Up(pods[0], byAvailability) && limit > 0 then limit - 1 else limit;
      var rest := Affordable(pods[1..], spent, byAvailability);
      AffordableKeepsDown(c, pods[1..], spent, byAvailability, revision);
      assert pods == [pods[0]] + pods[1..];
      CountAppend(c, [pods[0]], pods[1..], revision);
      CountAppend(c, [pods[0]], rest, revision);
      CountOne(c, pods[0], revision);
    }
  }

  /** Counting one class among the pods of another counts the pods in both. */
  lemma {:induction false} CountSelect(c: Class, d: Class, both: Class, pods: seq<Pod>, revision: string)
    requires forall p :: InClass(both, p, revision) <==> InClass(c, p, revision) && InClass(d, p, revision)
    ensures Count(c, Select(d, pods, revision), revision) == Count(both, pods, revision)
  {
    if pods != [] {
      var front, last := pods[..|pods| - 1], pods[|pods| - 1];
      CountSelect(c, d, both, front, revision);
      if InClass(d, last, revision) {
        CountAppend(c, Select(d, front, revision), [last], revision);
        CountOne(c, last, revision);
      }
    }
  }

  lemma {:induction false} CountMonotone(c: Class, d: Class, pods: seq<Pod>, revision: string)
    requires forall p :: InClass(c, p, revision) ==> InClass(d, p, revision)
    ensures Count(c, pods, revision) <= Count(d, pods, revision)
  {
    if pods != [] {
      CountMonotone(c, d, pods[..|pods| - 1], revision);
    }
  }

  lemma PrefixCount(c: Class, pods: seq<Pod>, k: nat, revision: string)
    requires k <= |pods|
    ensures Count(c, pods[..k], revision) <= Count(c, pods, revision)
  {
    assert pods == pods[..k] + pods[k..];
    CountAppend(c, pods[..k], pods[k..], revision);
  }

  // ---------- The floor of scaling ----------

  /** How the listed pods divide: by mark, by running and, among the marked, by availability. */
  datatype Split = Split(keptUp: nat, keptDown: nat, markedAvailable: nat, markedDown: nat, markedUnready: nat)

  function SplitOf(pods: seq<Pod>, revision: string): Split {
    Split(Count(Class(Any, No, Yes, Any), pods, revision),
          Count(Class(Any, No, No, Any), pods, revision),
          Count(Class(Any, Yes, Any, Yes), pods, revision),
          Count(Class(Any, Yes, No, No), pods, revision),
          Count(Class(Any, Yes, Yes, No), pods, revision))
  }

  lemma SplitMeaning(pods: seq<Pod>, revision: string)
    ensures
      && var s := SplitOf(pods, revision);
      && |pods| == s.keptUp + s.keptDown + s.markedAvailable + s.markedDown + s.markedUnready
      && Count(RUNNING, pods, revision) == s.keptUp + s.markedAvailable + s.markedUnready
      && Count(MARKED, pods, revision) == s.markedAvailable + s.markedDown + s.markedUnready
  {
    CountBound(EVERY, pods, revision);
    CountSplit(EVERY, pods, revision);
    CountSplit(Class(Any, No, Any, Any), pods, revision);
    CountSplit(MARKED, pods, revision);
    CountSplit(Class(Any, Yes, Any, No), pods, revision);
    CountSplit(RUNNING, pods, revision);
    CountSplit(Class(Any, Yes, Yes, Any), pods, revision);
    CountMonotone(Class(Any, Yes, Any, Yes), Class(Any, Yes, Yes, Yes), pods, revision);
    CountMonotone(Class(Any, Yes, Yes, Yes), Class(Any, Yes, Any, Yes), pods, revision);
  }

  /** The running pods among the marked ones a pass may delete. */
  lemma MarkedListRunning(pods: seq<Pod>, limit: int, revision: string)
    ensures
      && var s := SplitOf(pods, revision);
      && var list := Affordable(Select(MARKED, pods, revision), limit, true);
      && Count(RUNNING, list, revision) == s.markedUnready + Min(s.markedAvailable, Max(limit, 0))
      && |list| == s.markedDown + s.markedUnready + Min(s.markedAvailable, Max(limit, 0))
  {
    var marked := Select(MARKED, pods, revision);
    var list := Affordable(marked, limit, true);
    AffordableCount(marked, limit, true);
    UpCountIsCount(marked, true, revision);
    UpCountIsCount(list, true, revision);
    AffordableKeepsDown(Class(Any, Any, Yes, No), marked, limit, true, revision);
    CountSelect(Class(Any, Any, Any, Yes), MARKED, Class(Any, Yes, Any, Yes), pods, revision);
    CountSelect(Class(Any, Any, Yes, No), MARKED, Class(Any, Yes, Yes, No), pods, revision);
    CountSplit(RUNNING, list, revision);
    CountMonotone(Class(Any, Any, Any, Yes), Class(Any, Any, Yes, Yes), list, revision);
    CountMonotone(Class(Any, Any, Yes, Yes), Class(Any, Any, Any, Yes), list, revision);
    SelectLength(MARKED, pods, revision);
    SplitMeaning(pods, revision);
  }

  /** The running pods a scale-in may delete. */
  lemma ScaleInListRunning(list: seq<Pod>, chosen: seq<Pod>, limit: int, revision: string)
    requires list == Affordable(chosen, limit, false)
    ensures Count(RUNNING, list, revision) <= Max(limit, 0)
  {
    AffordableCount(chosen, limit, false);
    UpCountIsCount(list, false, revision);
  }

  /** What a pass leaves running, as the pods it works from say, at least this. */
  function Floor(spec: Spec, pods: seq<Pod>, revision: string): int {
    var s := SplitOf(pods, revision);
    Min(s.keptUp + s.markedAvailable,
        spec.replicas - MaxUnavailable(spec) - s.markedDown - s.markedUnready)
  }

  lemma MarkedDeletionFloor(spec: Spec, pods: seq<Pod>, revision: string, k: nat)
    requires Count(MARKED, pods, revision) > 0
    ensures
      && var list := Affordable(Select(MARKED, pods, revision), PlanOf(spec, pods, revision).deleteReadyLimit, true);
      && (k <= |list| ==>
            Count(RUNNING, pods, revision) - Count(RUNNING, list[..k], revision) >= Floor(spec, pods, revision))
  {
    var limit := PlanOf(spec, pods, revision).deleteReadyLimit;
    var list := Affordable(Select(MARKED, pods, revision), limit, true);
    MarkedListRunning(pods, limit, revision);
    SplitMeaning(pods, revision);
    if k <= |list| {
      PrefixCount(RUNNING, list, k, revision);
    }
  }

  /** A scale-in keeps the plain floor: all running pods, or replicas - maxUnavailable of them. */
  lemma ScaleInFloor(spec: Spec, pods: seq<Pod>, revision: string, list: seq<Pod>, k: nat)
    requires
      && var plan := PlanOf(spec, pods, revision);
      && Affordable(Select(MARKED, pods, revision), plan.deleteReadyLimit, true) == []
      && plan.scaleDownNum > 0 && ScaleInList(plan, Select(UPDATED, pods, revision), list) && k <= |list|
    ensures Count(RUNNING, pods, revision) - Count(RUNNING, list[..k], revision)
         >= Min(Count(RUNNING, pods, revision), spec.replicas - MaxUnavailable(spec))
  {
    var plan := PlanOf(spec, pods, revision);
    var chosen: seq<Pod> :|
      Chosen(Select(UPDATED, pods, revision), plan.scaleDownNum, chosen)
      && list == Affordable(chosen, plan.deleteReadyLimit, false);
    ScaleInListRunning(list, chosen, plan.deleteReadyLimit, revision);
    MarkedListRunning(pods, plan.deleteReadyLimit, revision);
    SplitMeaning(pods, revision);
    PrefixCount(RUNNING, list, k, revision);
  }

  lemma CreationFloor(iu: Inplaceu, revision: string, pods: seq<Pod>, ids: seq<string>, outcomes: seq<bool>)
    requires |outcomes| <= |ids|
    ensures
      && var after := Apply(pods, Creations(NewPods(iu, revision, ids), outcomes));
      && Count(RUNNING, after, revision) == Count(RUNNING, pods, revision)
      && |after| == |pods| + Successes(outcomes)
  {
    var queue := NewPods(iu, revision, ids);
    CreationsApply(pods, queue, outcomes);
    var created := CreatedPods(queue, outcomes);
    forall i | 0 <= i < |created| ensures !InClass(RUNNING, created[i], revision) {
      assert created[i] in queue;
    }
    CountNone(RUNNING, created, revision);
    CountAppend(RUNNING, pods, created, revision);
  }

  /**
   * However far the calls of a scaling step get, it leaves at least the floor running. With every marked pod
   * available the floor is the plain one: the running pods before, or replicas - maxUnavailable.
   */
  lemma ScaleFloor(iu: Inplaceu, pods: seq<Pod>, revision: string, step: Step, modified: bool, err: bool)
    requires DistinctNames(pods) && Decided(iu.spec, pods, revision, step) && Ran(step, modified, err)
    ensures
      && var s := SplitOf(pods, revision);
      && var left := Count(RUNNING, Apply(pods, StepWrites(iu, revision, step)), revision);
      && left >= Floor(iu.spec, pods, revision)
      && (s.markedDown + s.markedUnready == 0 ==>
            left >= Min(Count(RUNNING, pods, revision), iu.spec.replicas - MaxUnavailable(iu.spec)))
  {
    SplitMeaning(pods, revision);
    if step.Creating? {
      CreationFloor(iu, revision, pods, step.ids, step.outcomes);
    } else if step.Deleting? {
      DeletionList(iu.spec, pods, revision, step);
      PrefixMembers(step.list, step.k);
      DeletionsCount(RUNNING, pods, step.list[..step.k], revision);
      DeletionFloor(iu.spec, pods, revision, step);
    }
  }

  lemma PrefixMembers(list: seq<Pod>, k: nat)
    requires k <= |list|
    ensures forall p | p in list[..k] :: p in list
    ensures DistinctNames(list) ==> DistinctNames(list[..k])
  {
  }

  lemma DeletionFloor(spec: Spec, pods: seq<Pod>, revision: string, step: Step)
    requires Decided(spec, pods, revision, step) && step.Deleting? && step.k <= |step.list|
    ensures
      && var left := Count(RUNNING, pods, revision) - Count(RUNNING, step.list[..step.k], revision);
      && left >= Floor(spec, pods, revision)
  {
    var plan := PlanOf(spec, pods, revision);
    SplitMeaning(pods, revision);
    if Affordable(Select(MARKED, pods, revision), plan.deleteReadyLimit, true) != [] {
      SelectLength(MARKED, pods, revision);
      MarkedDeletionFloor(spec, pods, revision, step.k);
    } else {
      ScaleInFloor(spec, pods, revision, step.list, step.k);
    }
  }

  /**
   * With marked pods that are not available the plain floor can fail: they are deleted without being charged to
   * the limit, and the limit counts them as if they were up. A deletion of marked pods that runs to its end keeps
   * the plain floor exactly under this condition on the pods it starts from.
   */
  predicate KeepsPlainFloor(spec: Spec, pods: seq<Pod>, revision: string) {
    var s := SplitOf(pods, revision);
    var limit := PlanOf(spec, pods, revision).deleteReadyLimit;
    || s.markedDown + s.markedUnready == 0
    || (limit == 0 && s.markedUnready == 0)
    || (s.markedAvailable < limit
        && (s.markedAvailable + s.markedUnready == 0 || s.keptUp >= spec.replicas - MaxUnavailable(spec)))
  }

  lemma MarkedDeletionFloorExactly(spec: Spec, pods: seq<Pod>, revision: string, step: Step)
    requires DistinctNames(pods) && Decided(spec, pods, revision, step)
    requires step.Deleting? && step.k == |step.list|
    requires Affordable(Select(MARKED, pods, revision), PlanOf(spec, pods, revision).deleteReadyLimit, true) != []
    ensures KeepsPlainFloor(spec, pods, revision)
       <==> Count(RUNNING, Apply(pods, Deletions(step.list[..step.k])), revision)
            >= Min(Count(RUNNING, pods, revision), spec.replicas - MaxUnavailable(spec))
  {
    MarkedDeletionLeaves(spec, pods, revision, step);
    SplitMeaning(pods, revision);
    SelectLength(MARKED, pods, revision);
  }

  /** What a completed deletion of marked pods leaves running. */
  lemma MarkedDeletionLeaves(spec: Spec, pods: seq<Pod>, revision: string, step: Step)
    requires DistinctNames(pods) && Decided(spec, pods, revision, step)
    requires step.Deleting? && step.k == |step.list|
    requires Affordable(Select(MARKED, pods, revision), PlanOf(spec, pods, revision).deleteReadyLimit, true) != []
    ensures
      && var s := SplitOf(pods, revision);
      && var limit := PlanOf(spec, pods, revision).deleteReadyLimit;
      && Count(RUNNING, Apply(pods, Deletions(step.list[..step.k])), revision)
         == s.keptUp + s.markedAvailable - Min(s.markedAvailable, Max(limit, 0))
  {
    assert step.list[..step.k] == step.list;
    DeletionList(spec, pods, revision, step);
    DeletionsCount(RUNNING, pods, step.list, revision);
    MarkedListRunning(pods, PlanOf(spec, pods, revision).deleteReadyLimit, revision);
    SplitMeaning(pods, revision);
  }

  lemma CountThree(c: Class, x: Pod, y: Pod, z: Pod, revision: string)
    ensures Count(c, [x, y, z], revision) == One(c, x, revision) + One(c, y, revision) + One(c, z, revision)
  {
    assert [x, y, z] == [x, y] + [z] && [x, y] == [x] + [y];
    CountAppend(c, [x, y], [z], revision);
    CountAppend(c, [x], [y], revision);
    CountOne(c, x, revision);
    CountOne(c, y, revision);
    CountOne(c, z, revision);
  }

  /** Two replicas with nothing to spare, one kept pod up, and two marked pods of which one is down. */
  ghost predicate OneUpOneDown(spec: Spec, kept: Pod, up: Pod, down: Pod) {
    && spec.replicas == 2 && MaxSurge(spec) == 0 && MaxUnavailable(spec) == 0
    && DistinctNames([kept, up, down])
    && !IsSpecifiedDelete(kept) && IsRunning(kept)
    && IsSpecifiedDelete(up) && IsPodAvailable(up) && IsSpecifiedDelete(down) && !IsRunning(down)
  }

  lemma SplitOneUpOneDown(spec: Spec, kept: Pod, up: Pod, down: Pod, revision: string)
    requires OneUpOneDown(spec, kept, up, down)
    ensures SplitOf([kept, up, down], revision) == Split(1, 0, 1, 1, 0)
    ensures PlanOf(spec, [kept, up, down], revision).deleteReadyLimit == 1
    ensures PlanOf(spec, [kept, up, down], revision).scaleUpNum == 0
  {
    CountThree(Class(Any, No, Yes, Any), kept, up, down, revision);
    CountThree(Class(Any, No, No, Any), kept, up, down, revision);
    CountThree(Class(Any, Yes, Any, Yes), kept, up, down, revision);
    CountThree(Class(Any, Yes, No, No), kept, up, down, revision);
    CountThree(Class(Any, Yes, Yes, No), kept, up, down, revision);
    SplitMeaning([kept, up, down], revision);
  }

  /** A counterexample to the plain floor: the pass deletes both, and of two running pods one is left. */
  lemma PlainFloorCanFail(spec: Spec, kept: Pod, up: Pod, down: Pod, revision: string, step: Step)
    requires OneUpOneDown(spec, kept, up, down)
    requires Decided(spec, [kept, up, down], revision, step) && Ran(step, true, false)
    ensures !KeepsPlainFloor(spec, [kept, up, down], revision)
    ensures Count(RUNNING, [kept, up, down], revision) == 2
    ensures step.Deleting? && Count(RUNNING, Apply([kept, up, down], Deletions(step.list[..step.k])), revision) == 1
  {
    var pods := [kept, up, down];
    SplitOneUpOneDown(spec, kept, up, down, revision);
    SplitMeaning(pods, revision);
    MarkedListRunning(pods, 1, revision);
    MarkedDeletionLeaves(spec, pods, revision, step);
  }

  /** A pass never creates beyond replicas + maxSurge, whatever it starts from. */
  lemma ScaleCap(iu: Inplaceu, pods: seq<Pod>, revision: string, ids: seq<string>, outcomes: seq<bool>)
    requires AvailableIds(ids, Max(PlanOf(iu.spec, pods, revision).scaleUpNum, 0), pods)
    requires ids != [] && |outcomes| <= |ids|
    ensures |Apply(pods, Creations(NewPods(iu, revision, ids), outcomes))|
         <= iu.spec.replicas + Max(MaxSurge(iu.spec), 0)
  {
    CreationFloor(iu, revision, pods, ids, outcomes);
    SuccessesBound(outcomes);
    PlanMeaning(iu.spec.replicas, MaxSurge(iu.spec), MaxUnavailable(iu.spec), TallyOf(pods, revision));
  }

  // ---------- The floor of updating ----------

  lemma CountUpdate(c: Class, pods: seq<Pod>, i: nat, p: Pod, revision: string)
    requires i < |pods|
    ensures Count(c, pods[i := p], revision)
         == Count(c, pods, revision) - One(c, pods[i], revision) + One(c, p, revision)
  {
    CountWithout(c, pods, i, revision);
    CountWithout(c, pods[i := p], i, revision);
    assert pods[i := p][..i] == pods[..i] && pods[i := p][i + 1..] == pods[i + 1..];
  }

  lemma {:induction false} SamePods(c: Class, a: seq<Pod>, b: seq<Pod>, revision: string)
    requires |a| == |b| && forall i | 0 <= i < |a| :: InClass(c, a[i], revision) <==> InClass(c, b[i], revision)
    ensures Count(c, a, revision) == Count(c, b, revision)
  {
    if a != [] {
      var last := |a| - 1;
      SamePods(c, a[..last], b[..last], revision);
      assert InClass(c, a[last], revision) <==> InClass(c, b[last], revision);
    }
  }

  /** At worst every updated running pod goes down, and no other pod does. */
  lemma {:induction false} WorstCase(pods: seq<Pod>, after: seq<Pod>, chosen: seq<nat>, k: nat, revision: string)
    requires Indexes(chosen, pods) && k <= |chosen| && |after| == |pods|
    requires forall i | 0 <= i < |pods| && i !in chosen[..k] :: IsRunning(after[i]) == IsRunning(pods[i])
    ensures Count(RUNNING, after, revision) >= Count(RUNNING, pods, revision) - RunningOf(chosen[..k], pods)
    decreases k
  {
    if k == 0 {
      forall i | 0 <= i < |pods| ensures InClass(RUNNING, after[i], revision) <==> InClass(RUNNING, pods[i], revision) {
        assert i !in chosen[..k];
      }
      SamePods(RUNNING, after, pods, revision);
    } else {
      var i := chosen[k - 1];
      var less := after[i := pods[i]];
      assert chosen[..k] == chosen[..k - 1] + [i];
      WorstCase(pods, less, chosen, k - 1, revision);
      CountUpdate(RUNNING, after, i, pods[i], revision);
      RunningStep(chosen, pods, k - 1);
    }
  }

  /** The running pods an update run has not touched yet. */
  lemma TouchedRunning(spec: Spec, pods: seq<Pod>, revision: string, run: UpdateRun, k: nat)
    requires UpdateDecided(spec, pods, revision, run) && Indexes(run.chosen, pods) && k <= |run.chosen|
    ensures Count(RUNNING, pods, revision) - RunningOf(run.chosen[..k], pods)
         >= Min(Count(RUNNING, pods, revision), spec.replicas - MaxUnavailable(spec))
  {
    if run.chosen != [] {
      RunningMonotone(run.chosen, pods, k, |run.chosen|);
      assert run.chosen[..|run.chosen|] == run.chosen == run.candidates[..|run.chosen|];
      CountBound(EVERY, pods, revision);
      CountSplit(EVERY, pods, revision);
    }
  }

  /**
   * Whatever becomes of the pods an update run touches, and wherever it stops, at least the running pods before
   * or replicas - maxUnavailable of them keep running.
   */
  lemma UpdateFloor(spec: Spec, pods: seq<Pod>, revision: string, run: UpdateRun, k: nat, after: seq<Pod>)
    requires UpdateDecided(spec, pods, revision, run) && Indexes(run.chosen, pods)
    requires k <= |run.chosen| && |after| == |pods|
    requires forall i | 0 <= i < |pods| && i !in run.chosen[..k] :: IsRunning(after[i]) == IsRunning(pods[i])
    ensures Count(RUNNING, after, revision)
         >= Min(Count(RUNNING, pods, revision), spec.replicas - MaxUnavailable(spec))
  {
    WorstCase(pods, after, run.chosen, k, revision);
    TouchedRunning(spec, pods, revision, run, k);
  }

  /**
   * Whatever becomes of the pods an update run touches, no more pods of the new revision are down than were before
   * or than the limit allows.
   */
  lemma NewRevisionCap(spec: Spec, pods: seq<Pod>, revision: string, run: UpdateRun, after: seq<Pod>)
    requires UpdateDecided(spec, pods, revision, run) && Indexes(run.chosen, pods) && |after| == |pods|
    requires forall i: nat | i < |pods| && i !in run.chosen :: after[i] == pods[i]
    ensures Count(UPDATED_DOWN, after, revision)
         <= Max(Count(UPDATED_DOWN, pods, revision), PlanOf(spec, pods, revision).updateMaxUnavailable)
  {
    var before := Places(UPDATED_DOWN, pods, revision);
    CountIsCardinality(UPDATED_DOWN, pods, revision);
    CountIsCardinality(UPDATED_DOWN, after, revision);
    ElementsSize(run.chosen, pods);
    SubsetSize(Places(UPDATED_DOWN, after, revision), before + Elements(run.chosen));
    if run.chosen == [] {
      assert after == pods;
    }
  }
}
