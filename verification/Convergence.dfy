/** Convergence: with calls succeeding and every pod available when a pass starts, a rollout reaches its goal. */
module Convergence {
  import opened Kube
  import opened Templates
  import opened Planner
  import opened Api
  import opened Batches
  import opened ScaleIn
  import opened Scaling
  import opened Updating
  import opened InPlace
  import opened InPlaceMeaning
  import opened Reconcile
  import opened Floors

  /** What the rollout is to reach: the workload and the revision of its template. */
  datatype Goal = Goal(iu: Inplaceu, update: Revision)

  function Surge(g: Goal): int { MaxSurge(g.iu.spec) }

  function Unavailable(g: Goal): int { MaxUnavailable(g.iu.spec) }

  function Room(g: Goal): int { RoomOf(g.iu.spec) }

  /** The goal is live, and its template does not mark new pods for deletion. */
  predicate Live(g: Goal) {
    !g.iu.deleting && g.iu.spec.replicas >= 0 && SpecifiedDeleteKey !in g.update.data.labels
  }

  /** The pods when a pass starts: names are unique and every pod is running and available. */
  ghost predicate Settled(pods: seq<Pod>) {
    DistinctNames(pods) && forall i | 0 <= i < |pods| :: IsPodAvailable(pods[i])
  }

  /** One pass: the order of the list, the recorded revisions, the trace of the sync and the moment are free. */
  datatype PassRecord = PassRecord(listed: seq<Pod>, revisions: seq<Revision>, t: Trace, now: Time,
                                   marshal: State -> string)

  /** A pass over a complete list in which every call succeeds. */
  ghost predicate Passed(g: Goal, before: seq<Pod>, after: seq<Pod>, r: PassRecord) {
    && multiset(r.listed) == multiset(before)
    && Compatible(r.revisions, g.update)
    && PodsSynced(g.iu, g.update, r.revisions, r.listed, before, after, r.t, r.now, r.marshal)
    && !r.t.scaleErr && !r.t.updateErr
  }

  /** The pods settle: they keep their names and labels and become available. */
  ghost predicate Settles(after: seq<Pod>, next: seq<Pod>) {
    && |next| == |after|
    && forall i | 0 <= i < |after| ::
         next[i].name == after[i].name && next[i].labels == after[i].labels && IsPodAvailable(next[i])
  }

  /** One pass, after which the pods settle. */
  ghost predicate Round(g: Goal, before: seq<Pod>, next: seq<Pod>) {
    exists after, r :: Passed(g, before, after, r) && Settles(after, next)
  }

  /** The goal is reached: exactly the wanted number of pods, all unmarked and at the update revision. */
  ghost predicate Converged(g: Goal, pods: seq<Pod>) {
    |pods| == g.iu.spec.replicas && Count(KEPT_UPDATED, pods, g.update.name) == |pods|
  }

  // ---------- The measure ----------

  function Outdated(g: Goal, pods: seq<Pod>): nat { Count(KEPT_OUTDATED, pods, g.update.name) }

  function Marked(g: Goal, pods: seq<Pod>): nat { Count(MARKED, pods, g.update.name) }

  function Target(g: Goal, pods: seq<Pod>): int {
    g.iu.spec.replicas + UseSurge(Surge(g), TallyOf(pods, g.update.name))
  }

  function Distance(a: int, b: int): nat { if a < b then b - a else a - b }

  /** Unmarked old pods, then marked pods, then the distance from replicas plus the surge in use. */
  function Measure(g: Goal, pods: seq<Pod>): (nat, nat, nat) {
    (Outdated(g, pods), Marked(g, pods), Distance(|pods|, Target(g, pods)))
  }

  predicate Lower(a: (nat, nat, nat), b: (nat, nat, nat)) {
    a.0 < b.0 || (a.0 == b.0 && (a.1 < b.1 || (a.1 == b.1 && a.2 < b.2)))
  }

  lemma {:induction false} KeptPods(pods: seq<Pod>, revision: string)
    ensures |pods| == Count(MARKED, pods, revision) + Count(KEPT_OUTDATED, pods, revision)
                      + Count(KEPT_UPDATED, pods, revision)
  {
    CountBound(EVERY, pods, revision);
    CountSplit(EVERY, pods, revision);
    CountSplit(Class(Any, No, Any, Any), pods, revision);
  }

  /** The measure is zero exactly when the goal is reached. */
  lemma ZeroIsConverged(g: Goal, pods: seq<Pod>)
    ensures Measure(g, pods) == (0, 0, 0) <==> Converged(g, pods)
  {
    KeptPods(pods, g.update.name);
  }

  /** What a pass sees of settled pods, in whatever order it lists them. */
  lemma SettledList(g: Goal, pods: seq<Pod>, listed: seq<Pod>)
    requires Settled(pods) && multiset(listed) == multiset(pods)
    ensures DistinctNames(listed) && |listed| == |pods|
    ensures forall p :: p in listed <==> p in pods
    ensures forall p | p in listed :: IsPodAvailable(p)
    ensures TallyOf(listed, g.update.name) == TallyOf(pods, g.update.name)
    ensures TallyOf(pods, g.update.name).keptDown == 0
    ensures Count(DOWN, listed, g.update.name) == 0 && Count(UPDATED_DOWN, listed, g.update.name) == 0
  {
    var rev := g.update.name;
    NamesPermuted(listed, pods);
    assert |multiset(listed)| == |multiset(pods)|;
    forall p ensures p in listed <==> p in pods {
      assert p in listed <==> p in multiset(listed);
    }
    CountPermuted(KEPT_OUTDATED, listed, pods, rev);
    CountPermuted(MARKED, listed, pods, rev);
    CountPermuted(Class(Any, No, No, Any), listed, pods, rev);
    forall i | 0 <= i < |pods| ensures !InClass(Class(Any, No, No, Any), pods[i], rev) {
      assert IsPodAvailable(pods[i]);
    }
    forall i | 0 <= i < |listed| ensures IsPodAvailable(listed[i]) {
      assert listed[i] in listed;
    }
    CountNone(Class(Any, No, No, Any), pods, rev);
    CountNone(DOWN, listed, rev);
    CountNone(UPDATED_DOWN, listed, rev);
  }

  // ---------- Scaling up ----------

  lemma NewPodKind(iu: Inplaceu, revision: string, id: string)
    requires SpecifiedDeleteKey !in iu.template.labels
    ensures !InClass(KEPT_OUTDATED, NewPod(iu, revision, id), revision)
    ensures !InClass(MARKED, NewPod(iu, revision, id), revision)
  {
  }

  lemma {:induction false} AllCreated(queue: seq<Pod>, outcomes: seq<bool>)
    requires |outcomes| <= |queue| && AllOk(outcomes)
    ensures CreatedPods(queue, outcomes) == queue[..|outcomes|]
  {
    if outcomes != [] {
      AllCreated(queue, outcomes[..|outcomes| - 1]);
    }
  }

  /** Creating moves the number of pods towards the target and nothing else. */
  lemma CreatingLowers(g: Goal, before: seq<Pod>, listed: seq<Pod>, step: Scaling.Step)
    requires Live(g) && Settled(before) && multiset(listed) == multiset(before)
    requires Decided(g.iu.spec, listed, g.update.name, step) && Ran(step, true, false) && step.Creating?
    ensures
      && var after := Apply(before, StepWrites(ApplyRevision(g.iu, g.update), g.update.name, step));
      && Outdated(g, after) == Outdated(g, before) && Marked(g, after) == Marked(g, before)
      && |before| < |after| <= Target(g, before)
  {
    SettledList(g, before, listed);
    var queue := NewPods(ApplyRevision(g.iu, g.update), g.update.name, step.ids);
    CreationsApply(before, queue, step.outcomes);
    AllCreated(queue, step.outcomes);
    assert queue[..|queue|] == queue;
    forall i | 0 <= i < |queue|
      ensures !InClass(KEPT_OUTDATED, queue[i], g.update.name) && !InClass(MARKED, queue[i], g.update.name)
    {
      NewPodKind(ApplyRevision(g.iu, g.update), g.update.name, step.ids[i]);
    }
    CountNone(KEPT_OUTDATED, queue, g.update.name);
    CountNone(MARKED, queue, g.update.name);
    CountAppend(KEPT_OUTDATED, before, queue, g.update.name);
    CountAppend(MARKED, before, queue, g.update.name);
  }

  // ---------- Deleting ----------

  lemma {:induction false} CountEvery(c: Class, pods: seq<Pod>, revision: string)
    requires forall p | p in pods :: InClass(c, p, revision)
    ensures Count(c, pods, revision) == |pods|
  {
    forall i | 0 <= i < |pods| ensures InClass(c, pods[i], revision) {
      assert pods[i] in pods;
    }
    CountAll(c, pods, revision);
  }

  lemma {:induction false} CountNothing(c: Class, pods: seq<Pod>, revision: string)
    requires forall p | p in pods :: !InClass(c, p, revision)
    ensures Count(c, pods, revision) == 0
  {
    forall i | 0 <= i < |pods| ensures !InClass(c, pods[i], revision) {
      assert pods[i] in pods;
    }
    CountNone(c, pods, revision);
  }

  lemma DeletedSpares(c: Class, before: seq<Pod>, list: seq<Pod>, revision: string)
    requires DistinctNames(before) && DistinctNames(list)
    requires forall p | p in list :: p in before && !InClass(c, p, revision)
    ensures Count(c, Apply(before, Deletions(list)), revision) == Count(c, before, revision)
  {
    DeletionsCount(c, before, list, revision);
    CountNothing(c, list, revision);
  }

  lemma DeletedLoses(c: Class, before: seq<Pod>, list: seq<Pod>, revision: string)
    requires DistinctNames(before) && DistinctNames(list)
    requires forall p | p in list :: p in before && InClass(c, p, revision)
    ensures Count(c, Apply(before, Deletions(list)), revision) == Count(c, before, revision) - |list|
  {
    DeletionsCount(c, before, list, revision);
    CountEvery(c, list, revision);
  }

  lemma DeletedNumber(before: seq<Pod>, list: seq<Pod>)
    requires DistinctNames(before) && DistinctNames(list) && forall p | p in list :: p in before
    ensures |Apply(before, Deletions(list))| == |before| - |list|
  {
    DeletedLoses(EVERY, before, list, "");
    CountBound(EVERY, before, "");
    CountBound(EVERY, Apply(before, Deletions(list)), "");
  }

  /** Deleting unmarked updated pods changes only how many pods there are. */
  lemma DeletedUpdated(g: Goal, before: seq<Pod>, list: seq<Pod>)
    requires DistinctNames(before) && DistinctNames(list)
    requires forall p | p in list :: p in before && InClass(KEPT_UPDATED, p, g.update.name)
    ensures
      && var after := Apply(before, Deletions(list));
      && Outdated(g, after) == Outdated(g, before) && Marked(g, after) == Marked(g, before)
      && |after| == |before| - |list|
  {
    DeletedSpares(KEPT_OUTDATED, before, list, g.update.name);
    DeletedSpares(MARKED, before, list, g.update.name);
    DeletedNumber(before, list);
  }

  /** With every pod available the ready limit lets at least one marked pod go, and every pod of a scale-in. */
  lemma DeletableMarked(g: Goal, listed: seq<Pod>)
    requires forall p | p in listed :: IsPodAvailable(p)
    requires TallyOf(listed, g.update.name).keptDown == 0
    requires |listed| >= Target(g, listed) && Room(g) >= 1
    ensures
      && var limit := PlanOf(g.iu.spec, listed, g.update.name).deleteReadyLimit;
      && var list := Affordable(Select(MARKED, listed, g.update.name), limit, true);
      && |list| == Min(Marked(g, listed), Max(limit, 0))
      && (Marked(g, listed) > 0 ==> limit >= 1)
      && (list == [] <==> Marked(g, listed) == 0)
  {
    var limit := PlanOf(g.iu.spec, listed, g.update.name).deleteReadyLimit;
    var marked := Select(MARKED, listed, g.update.name);
    SelectMeaning(MARKED, listed, g.update.name);
    UpCountAll(marked, true);
    AffordableCount(marked, limit, true);
  }

  lemma DeletingMarkedLowers(g: Goal, before: seq<Pod>, listed: seq<Pod>, step: Scaling.Step)
    requires Settled(before) && multiset(listed) == multiset(before) && Room(g) >= 1
    requires Decided(g.iu.spec, listed, g.update.name, step) && !step.Creating?
    requires Marked(g, before) > 0 && Ran(step, true, false)
    ensures
      && var after := Apply(before, StepWrites(ApplyRevision(g.iu, g.update), g.update.name, step));
      && Outdated(g, after) == Outdated(g, before) && Marked(g, after) < Marked(g, before)
  {
    SettledList(g, before, listed);
    DeletableMarked(g, listed);
    var rev := g.update.name;
    DeletionList(g.iu.spec, listed, rev, step);
    SelectMeaning(MARKED, listed, rev);
    AffordableMembers(Select(MARKED, listed, rev), PlanOf(g.iu.spec, listed, rev).deleteReadyLimit, true);
    assert step.list[..step.k] == step.list;
    DeletedSpares(KEPT_OUTDATED, before, step.list, rev);
    DeletedLoses(MARKED, before, step.list, rev);
  }

  lemma {:induction false} NothingMarked(pods: seq<Pod>, revision: string)
    requires Count(MARKED, pods, revision) == 0
    ensures Select(MARKED, pods, revision) == []
    ensures forall p | p in pods :: !IsSpecifiedDelete(p)
  {
    SelectMeaning(MARKED, pods, revision);
    assert Select(MARKED, pods, revision) == [];
    forall p | p in pods ensures !IsSpecifiedDelete(p) {
      assert p !in Select(MARKED, pods, revision);
    }
  }

  lemma ScaleInPlan(g: Goal, listed: seq<Pod>)
    requires TallyOf(listed, g.update.name).keptDown == 0 && Marked(g, listed) == 0
    requires Unavailable(g) >= 0 && |listed| > Target(g, listed)
    ensures
      && var plan := PlanOf(g.iu.spec, listed, g.update.name);
      && plan.scaleUpNum == 0 && 0 < plan.scaleDownNum == |listed| - Target(g, listed) <= plan.deleteReadyLimit
  {
  }

  /** The pods a scale-in deletes when nothing is marked and every pod is up. */
  lemma ScaleInTakesAll(g: Goal, listed: seq<Pod>, step: Scaling.Step)
    requires DistinctNames(listed) && (forall p | p in listed :: IsPodAvailable(p))
    requires TallyOf(listed, g.update.name).keptDown == 0 && Marked(g, listed) == 0
    requires Unavailable(g) >= 0 && |listed| > Target(g, listed)
    requires Decided(g.iu.spec, listed, g.update.name, step)
    ensures step.Deleting? && DistinctNames(step.list)
    ensures |step.list| == Min(|listed| - Target(g, listed), Count(UPDATED, listed, g.update.name))
    ensures forall p | p in step.list :: p in listed && InClass(KEPT_UPDATED, p, g.update.name)
  {
    ScaleInPlan(g, listed);
    NothingMarked(listed, g.update.name);
    ChosenTakesAll(listed, g.update.name, PlanOf(g.iu.spec, listed, g.update.name), step.list);
  }

  lemma ChosenTakesAll(listed: seq<Pod>, revision: string, plan: Diffs, list: seq<Pod>)
    requires DistinctNames(listed) && forall p | p in listed :: IsPodAvailable(p)
    requires 0 < plan.scaleDownNum <= plan.deleteReadyLimit
    requires ScaleInList(plan, Select(UPDATED, listed, revision), list)
    ensures DistinctNames(list) && |list| == Min(plan.scaleDownNum, Count(UPDATED, listed, revision))
    ensures forall p | p in list :: p in listed && EqualToRevisionHash(p, revision)
  {
    var updated := Select(UPDATED, listed, revision);
    SelectMeaning(UPDATED, listed, revision);
    var chosen: seq<Pod> :|
      Chosen(updated, plan.scaleDownNum, chosen) && list == Affordable(chosen, plan.deleteReadyLimit, false);
    ChosenMembers(updated, plan.scaleDownNum, chosen);
    UpCountAll(chosen, false);
    AffordableCount(chosen, plan.deleteReadyLimit, false);
    AffordableMembers(chosen, plan.deleteReadyLimit, false);
  }

  lemma ScaleInLowers(g: Goal, before: seq<Pod>, listed: seq<Pod>, step: Scaling.Step)
    requires Settled(before) && multiset(listed) == multiset(before)
    requires Marked(g, before) == 0 && Unavailable(g) >= 0 && |before| > Target(g, before)
    requires Decided(g.iu.spec, listed, g.update.name, step) && Ran(step, true, false)
    ensures
      && var after := Apply(before, StepWrites(ApplyRevision(g.iu, g.update), g.update.name, step));
      && Outdated(g, after) == Outdated(g, before) && Marked(g, after) == 0
      && Target(g, before) <= |after| < |before|
  {
    SettledList(g, before, listed);
    ScaleInTakesAll(g, listed, step);
    assert step.list[..step.k] == step.list;
    DeletedUpdated(g, before, step.list);
  }

  // ---------- Updating ----------

  /** An updated pod stops being an unmarked old one: it is at the update revision, or it is marked. */
  lemma UpdatedKind(g: Goal, revisions: seq<Revision>, pod: Pod, e: Effect, now: Time, marshal: State -> string)
    requires Compatible(revisions, g.update) && InClass(KEPT_OUTDATED, pod, g.update.name)
    requires Effective(WayOf(revisions, g.update, pod), g.update, pod, e, now, marshal)
    ensures e.Stored? && e.after.name == e.before.name
    ensures !InClass(KEPT_OUTDATED, e.after, g.update.name)
  {
    var way := WayOf(revisions, g.update, pod);
    if way.InPlaceWay? {
      OldRevisionMember(revisions, pod);
      RevisionLabelSurvives(e.before, way.from, g.update, now, marshal);
      assert RevisionLabel(e.after) == g.update.name;
    }
  }

  lemma SameNameSamePod(pods: seq<Pod>, p: Pod, q: Pod)
    requires DistinctNames(pods) && p in pods && q in pods && p.name == q.name
    ensures p == q
  {
  }

  lemma ReplacedCounts(g: Goal, pods: seq<Pod>, p: Pod, q: Pod)
    requires DistinctNames(pods) && p in pods && q.name == p.name
    requires InClass(KEPT_OUTDATED, p, g.update.name) && !InClass(KEPT_OUTDATED, q, g.update.name)
    ensures Outdated(g, Put(pods, q)) == Outdated(g, pods) - 1
    ensures DistinctNames(Put(pods, q)) && forall r | r in pods && r.name != p.name :: r in Put(pods, q)
  {
    var i :| 0 <= i < |pods| && pods[i] == p;
    PutIndex(pods, i, q);
    CountUpdate(KEPT_OUTDATED, pods, i, q, g.update.name);
    forall r | r in pods && r.name != p.name ensures r in Put(pods, q) {
      var j :| 0 <= j < |pods| && pods[j] == r;
      assert Put(pods, q)[j] == r;
    }
  }

  /** Each effect of an update run takes one pod out of the unmarked old ones. */
  lemma {:induction false} EffectsLower(g: Goal, revisions: seq<Revision>, targets: seq<Pod>, before: seq<Pod>,
                                        effects: seq<Effect>, now: Time, marshal: State -> string)
    requires DistinctNames(before) && DistinctNames(targets) && |effects| <= |targets|
    requires forall p | p in targets :: p in before && InClass(KEPT_OUTDATED, p, g.update.name)
    requires Compatible(revisions, g.update)
    requires Carried(targets, revisions, g.update, before, effects, now, marshal)
    ensures
      && var after := Apply(before, WritesOf(effects));
      && DistinctNames(after) && Outdated(g, after) == Outdated(g, before) - |effects|
      && forall i | |effects| <= i < |targets| :: targets[i] in after
  {
    if effects == [] {
      assert forall i | 0 <= i < |targets| :: targets[i] in targets;
    } else {
      var last := |effects| - 1;
      var front, e := effects[..last], effects[last];
      CarriedFront(targets, revisions, g.update, before, effects, now, marshal);
      EffectsLower(g, revisions, targets, before, front, now, marshal);
      assert targets[last] in targets;
      UpdatedKind(g, revisions, targets[last], e, now, marshal);
      var now' := Apply(before, WritesOf(front));
      StoredApplies(before, WritesOf(front), [Replaced(e.after)]);
      SameNameSamePod(now', e.before, targets[last]);
      ReplacedCounts(g, now', targets[last], e.after);
    }
  }

  lemma SomeOutdated(pods: seq<Pod>, revision: string) returns (i: nat)
    requires Count(KEPT_OUTDATED, pods, revision) > 0
    ensures i < |pods| && InClass(KEPT_OUTDATED, pods[i], revision)
  {
    SelectMeaning(KEPT_OUTDATED, pods, revision);
    var p := Select(KEPT_OUTDATED, pods, revision)[0];
    assert p in Select(KEPT_OUTDATED, pods, revision);
    i :| 0 <= i < |pods| && pods[i] == p;
  }

  /** With no pod down and a positive limit, one candidate always fits. */
  lemma {:induction false} OneFits(wait: seq<nat>, pods: seq<Pod>, limit: int, revision: string)
    requires Indexes(wait, pods) && wait != [] && limit >= 1
    requires Count(DOWN, pods, revision) == 0 && Count(UPDATED_DOWN, pods, revision) == 0
    ensures WithinCaps(1, RunningOf(wait[..1], pods), limit, pods, revision)
  {
  }

  lemma RoomMeansLimit(g: Goal, listed: seq<Pod>)
    requires Room(g) >= 1 && |listed| >= Target(g, listed) && Outdated(g, listed) > 0
    ensures PlanOf(g.iu.spec, listed, g.update.name).updateNum == Outdated(g, listed)
    ensures PlanOf(g.iu.spec, listed, g.update.name).updateMaxUnavailable >= 1
  {
  }

  lemma PrefixNotEmpty(wait: seq<nat>, candidates: seq<nat>, updateNum: nat, limit: int,
                       pods: seq<Pod>, revision: string)
    requires Indexes(candidates, pods) && LongestPrefix(wait, candidates, updateNum, limit, pods, revision)
    requires updateNum >= 1 && limit >= 1 && candidates != []
    requires Count(DOWN, pods, revision) == 0 && Count(UPDATED_DOWN, pods, revision) == 0
    ensures wait != []
  {
    OneFits(candidates, pods, limit, revision);
  }

  lemma OutdatedIsCandidate(candidates: seq<nat>, pods: seq<Pod>, revision: string, i: nat)
    requires Candidates(candidates, pods, revision) && i < |pods|
    requires IsPodAvailable(pods[i]) && InClass(KEPT_OUTDATED, pods[i], revision)
    ensures i in candidates
  {
  }

  lemma WhatUpdateDecides(spec: Spec, pods: seq<Pod>, revision: string, run: UpdateRun)
    requires UpdateDecided(spec, pods, revision, run) && PlanOf(spec, pods, revision).updateNum > 0
    ensures Candidates(run.candidates, pods, revision)
    ensures LongestPrefix(run.chosen, run.candidates, PlanOf(spec, pods, revision).updateNum,
                          PlanOf(spec, pods, revision).updateMaxUnavailable, pods, revision)
  {
  }

  /** With every pod up and room for progress, an update run has at least one pod to update. */
  lemma SomethingChosen(g: Goal, listed: seq<Pod>, run: UpdateRun)
    requires forall p | p in listed :: IsPodAvailable(p)
    requires Count(DOWN, listed, g.update.name) == 0 && Count(UPDATED_DOWN, listed, g.update.name) == 0
    requires Room(g) >= 1 && |listed| >= Target(g, listed) && Outdated(g, listed) > 0
    requires UpdateDecided(g.iu.spec, listed, g.update.name, run)
    ensures run.chosen != []
  {
    var plan := PlanOf(g.iu.spec, listed, g.update.name);
    var i := SomeOutdated(listed, g.update.name);
    RoomMeansLimit(g, listed);
    WhatUpdateDecides(g.iu.spec, listed, g.update.name, run);
    OutdatedIsCandidate(run.candidates, listed, g.update.name, i);
    PrefixNotEmpty(run.chosen, run.candidates, plan.updateNum, plan.updateMaxUnavailable, listed, g.update.name);
  }

  /** With nothing marked, the pods an update run touches are distinct unmarked old ones. */
  lemma ChosenAreOutdated(g: Goal, listed: seq<Pod>, run: UpdateRun)
    requires DistinctNames(listed) && Marked(g, listed) == 0
    requires UpdateDecided(g.iu.spec, listed, g.update.name, run) && Indexes(run.chosen, listed)
    ensures DistinctNames(At(listed, run.chosen))
    ensures forall p | p in At(listed, run.chosen) :: p in listed && InClass(KEPT_OUTDATED, p, g.update.name)
  {
    NothingMarked(listed, g.update.name);
    var targets := At(listed, run.chosen);
    forall i | 0 <= i < |targets| ensures targets[i] in listed && InClass(KEPT_OUTDATED, targets[i], g.update.name) {
      assert run.chosen[i] == run.candidates[i] && run.candidates[i] in run.candidates;
    }
    forall i, j | 0 <= i < j < |targets| ensures targets[i].name != targets[j].name {
      assert run.candidates[i] != run.candidates[j];
    }
  }

  lemma UpdatingLowers(g: Goal, before: seq<Pod>, listed: seq<Pod>, revisions: seq<Revision>, run: UpdateRun,
                       now: Time, marshal: State -> string)
    requires Settled(before) && multiset(listed) == multiset(before) && Compatible(revisions, g.update)
    requires Marked(g, before) == 0 && Room(g) >= 1 && |before| >= Target(g, before) && Outdated(g, before) > 0
    requires UpdateSound(g.iu.spec, g.update, revisions, listed, before, run, false, now, marshal)
    ensures Outdated(g, Apply(before, WritesOf(run.effects))) < Outdated(g, before)
  {
    SettledList(g, before, listed);
    SomethingChosen(g, listed, run);
    ChosenAreOutdated(g, listed, run);
    EffectsLower(g, revisions, At(listed, run.chosen), before, run.effects, now, marshal);
  }

  /** Deletions that all fail do not keep the update half from running: it updates a pod if there is one to update. */
  lemma FailedDeletionStillUpdates(g: Goal, before: seq<Pod>, listed: seq<Pod>, revisions: seq<Revision>, t: Trace,
                                   now: Time, marshal: State -> string)
    requires Settled(before) && multiset(listed) == multiset(before) && Room(g) >= 1 && Outdated(g, before) > 0
    requires SyncDecided(ApplyRevision(g.iu, g.update), g.update, revisions, listed, before, t, now, marshal)
    requires t.step.Deleting? && t.scaleErr && t.step.k == 0
    ensures t.run.chosen != [] && (!t.updateErr ==> t.run.effects != [])
  {
    SettledList(g, before, listed);
    SomethingChosen(g, listed, t.run);
  }

  // ---------- One pass ----------

  /** A pass that finds the goal reached changes nothing. */
  lemma ConvergedStays(g: Goal, before: seq<Pod>, after: seq<Pod>, r: PassRecord)
    requires Live(g) && Settled(before) && Converged(g, before) && Passed(g, before, after, r)
    ensures after == before
  {
    var rev := g.update.name;
    ZeroIsConverged(g, before);
    SettledList(g, before, r.listed);
    NothingMarked(r.listed, rev);
    assert r.t.step.Idle?;
    assert r.t.run.effects == [];
  }

  lemma ModifiedIsScaleIn(g: Goal, listed: seq<Pod>, step: Scaling.Step)
    requires Marked(g, listed) == 0 && Decided(g.iu.spec, listed, g.update.name, step) && Ran(step, true, false)
    requires !step.Creating?
    ensures |listed| > Target(g, listed)
  {
    NothingMarked(listed, g.update.name);
  }

  /** A scaling step that changes nothing leaves something to update: nothing is marked, and old pods remain. */
  lemma UnmodifiedMeansUpdate(g: Goal, before: seq<Pod>, listed: seq<Pod>, step: Scaling.Step)
    requires Live(g) && Room(g) >= 1 && Settled(before) && multiset(listed) == multiset(before)
    requires Decided(g.iu.spec, listed, g.update.name, step) && Ran(step, false, false)
    requires Measure(g, before) != (0, 0, 0)
    ensures Marked(g, before) == 0 && |before| >= Target(g, before) && Outdated(g, before) > 0
  {
    SettledList(g, before, listed);
    if step.Creating? {
      SuccessesBound(step.outcomes);
    }
    DeletableMarked(g, listed);
    if Outdated(g, before) == 0 && |before| > Target(g, before) {
      ScaleInTakesAll(g, listed, step);
      KeptPods(listed, g.update.name);
      CountSplit(UPDATED, listed, g.update.name);
    }
  }

  lemma ScalingLowers(g: Goal, before: seq<Pod>, listed: seq<Pod>, step: Scaling.Step)
    requires Live(g) && Room(g) >= 1 && Settled(before) && multiset(listed) == multiset(before)
    requires Decided(g.iu.spec, listed, g.update.name, step) && Ran(step, true, false)
    ensures Lower(Measure(g, Apply(before, StepWrites(ApplyRevision(g.iu, g.update), g.update.name, step))),
                  Measure(g, before))
  {
    SettledList(g, before, listed);
    if step.Creating? {
      CreatingLowers(g, before, listed, step);
    } else if Marked(g, before) > 0 {
      DeletingMarkedLowers(g, before, listed, step);
    } else {
      ModifiedIsScaleIn(g, listed, step);
      ScaleInLowers(g, before, listed, step);
    }
  }

  /** What a pass writes is what its scaling step wrote, or else what its update run did. */
  lemma PassWrites(g: Goal, before: seq<Pod>, after: seq<Pod>, r: PassRecord)
    requires !g.iu.deleting && Passed(g, before, after, r)
    ensures
      && var writes := StepWrites(ApplyRevision(g.iu, g.update), g.update.name, r.t.step);
      && after == Apply(before, if r.t.modified then writes else WritesOf(r.t.run.effects))
  {
    WritesOfOneHalf(ApplyRevision(g.iu, g.update), g.update, r.t);
  }

  /** A pass that finds the goal not reached lowers the measure. */
  lemma PassLowers(g: Goal, before: seq<Pod>, after: seq<Pod>, r: PassRecord)
    requires Live(g) && Room(g) >= 1 && Settled(before) && !Converged(g, before) && Passed(g, before, after, r)
    ensures Lower(Measure(g, after), Measure(g, before))
  {
    PassWrites(g, before, after, r);
    if r.t.modified {
      ScalingLowers(g, before, r.listed, r.t.step);
    } else {
      ZeroIsConverged(g, before);
      UnmodifiedMeansUpdate(g, before, r.listed, r.t.step);
      UpdatingLowers(g, before, r.listed, r.revisions, r.t.run, r.now, r.marshal);
    }
  }

  /** A pass changes nothing exactly when the goal is reached. */
  lemma NoOpOnlyAtGoal(g: Goal, before: seq<Pod>, after: seq<Pod>, r: PassRecord)
    requires Live(g) && Room(g) >= 1 && Settled(before) && Passed(g, before, after, r)
    ensures after == before <==> Converged(g, before)
  {
    if Converged(g, before) {
      ConvergedStays(g, before, after, r);
    } else {
      PassLowers(g, before, after, r);
    }
  }

  // ---------- Whole runs ----------

  /** Settling changes neither the measure nor the names. */
  lemma SettlingKeepsMeasure(g: Goal, after: seq<Pod>, next: seq<Pod>)
    requires DistinctNames(after) && Settles(after, next)
    ensures Settled(next) && Measure(g, next) == Measure(g, after)
  {
    SamePods(KEPT_OUTDATED, after, next, g.update.name);
    SamePods(MARKED, after, next, g.update.name);
  }

  lemma RoundLowers(g: Goal, before: seq<Pod>, next: seq<Pod>)
    requires Live(g) && Room(g) >= 1 && Settled(before) && Round(g, before, next)
    ensures Settled(next)
    ensures Converged(g, before) ==> Converged(g, next)
    ensures !Converged(g, before) ==> Lower(Measure(g, next), Measure(g, before))
  {
    var after: seq<Pod>, r: PassRecord :| Passed(g, before, after, r) && Settles(after, next);
    LawfulKeepsNames(before, TraceWrites(ApplyRevision(g.iu, g.update), g.update, r.t));
    SettlingKeepsMeasure(g, after, next);
    ZeroIsConverged(g, before);
    ZeroIsConverged(g, next);
    if Converged(g, before) {
      ConvergedStays(g, before, after, r);
    } else {
      PassLowers(g, before, after, r);
    }
  }

  ghost predicate RoundAt(g: Goal, run: nat -> seq<Pod>, i: nat) {
    Round(g, run(i), run(i + 1))
  }

  /** An endless run of rounds from settled pods. */
  ghost predicate Run(g: Goal, run: nat -> seq<Pod>) {
    Settled(run(0)) && forall i: nat :: RoundAt(g, run, i)
  }

  ghost predicate AtGoalFrom(g: Goal, run: nat -> seq<Pod>, n: nat) {
    forall m: nat | m >= n :: Converged(g, run(m))
  }

  lemma RunStep(g: Goal, run: nat -> seq<Pod>, i: nat)
    requires Live(g) && Room(g) >= 1 && Run(g, run) && Settled(run(i))
    ensures Settled(run(i + 1))
    ensures Converged(g, run(i)) ==> Converged(g, run(i + 1))
    ensures !Converged(g, run(i)) ==> Lower(Measure(g, run(i + 1)), Measure(g, run(i)))
  {
    assert RoundAt(g, run, i);
    RoundLowers(g, run(i), run(i + 1));
  }

  lemma {:induction false} RunSettled(g: Goal, run: nat -> seq<Pod>, i: nat)
    requires Live(g) && Room(g) >= 1 && Run(g, run)
    ensures Settled(run(i))
  {
    if i > 0 {
      RunSettled(g, run, i - 1);
      RunStep(g, run, i - 1);
    }
  }

  lemma {:induction false} ReachesGoal(g: Goal, run: nat -> seq<Pod>, i: nat) returns (n: nat)
    requires Live(g) && Room(g) >= 1 && Run(g, run)
    ensures n >= i && Converged(g, run(n))
    decreases Outdated(g, run(i)), Marked(g, run(i)), Distance(|run(i)|, Target(g, run(i)))
  {
    if Converged(g, run(i)) {
      n := i;
    } else {
      RunSettled(g, run, i);
      RunStep(g, run, i);
      n := ReachesGoal(g, run, i + 1);
    }
  }

  lemma {:induction false} StaysAtGoal(g: Goal, run: nat -> seq<Pod>, n: nat, m: nat)
    requires Live(g) && Room(g) >= 1 && Run(g, run) && Converged(g, run(n)) && m >= n
    ensures Converged(g, run(m))
  {
    if m > n {
      StaysAtGoal(g, run, n, m - 1);
      RunSettled(g, run, m - 1);
      RunStep(g, run, m - 1);
    }
  }

  /** From any settled pods, every run reaches the goal and stays there. */
  lemma Converges(g: Goal, run: nat -> seq<Pod>)
    requires Live(g) && Room(g) >= 1 && Run(g, run)
    ensures exists n: nat :: AtGoalFrom(g, run, n)
  {
    var n := ReachesGoal(g, run, 0);
    forall m: nat | m >= n ensures Converged(g, run(m)) {
      StaysAtGoal(g, run, n, m);
    }
    assert AtGoalFrom(g, run, n);
  }

  /** One old pod, nothing marked, and the pods the plan aims for. */
  ghost predicate LastStep(g: Goal, pods: seq<Pod>) {
    Settled(pods) && Outdated(g, pods) == 1 && Marked(g, pods) == 0 && |pods| == Target(g, pods)
  }

  /** From the last step before the goal, a pass gets on exactly when there is room for progress. */
  lemma ProgressNeedsRoom(g: Goal, before: seq<Pod>, after: seq<Pod>, r: PassRecord)
    requires Live(g) && LastStep(g, before) && Passed(g, before, after, r)
    ensures Room(g) >= 1 <==> after != before
  {
    SettledList(g, before, r.listed);
    ZeroIsConverged(g, before);
    if Room(g) >= 1 {
      PassLowers(g, before, after, r);
    } else {
      NothingMarked(r.listed, g.update.name);
      assert r.t.step.Idle?;
      assert r.t.run.chosen == [] && r.t.run.effects == [];
    }
  }

  /** The last step before the goal is taken exactly under the condition on the workload's own two fields. */
  lemma ProgressByFields(g: Goal, before: seq<Pod>, after: seq<Pod>, r: PassRecord)
    requires Live(g) && g.iu.spec.replicas > 0 && LastStep(g, before) && Passed(g, before, after, r)
    ensures
      && var spec := g.iu.spec;
      && (after != before
          <==> if Positive(spec.maxUnavailable) then
                 || Positive(spec.maxSurge) || MaxSurge(spec) == 0
                 || SurvivesRoundingDown(spec.maxUnavailable.value, spec.replicas)
               else Positive(spec.maxSurge) && !Negative(spec.maxUnavailable))
  {
    ProgressNeedsRoom(g, before, after, r);
    RoundingBlocksExactly(g.iu.spec);
  }
}
