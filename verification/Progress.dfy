/** No deadlock: from any settled pods some pass completes, so the runs that convergence speaks of exist. */
module Progress {
  import opened Kube
  import opened Templates
  import opened Planner
  import opened Api
  import opened Batches
  import opened PodOrder
  import opened ScaleIn
  import opened Scaling
  import opened Updating
  import opened InPlace
  import opened InPlaceMeaning
  import opened Reconcile
  import opened Convergence
  import Floors

  // ---------- A scale-in always has a choice ----------

  function SortOf(o: Order, pods: seq<Pod>): seq<Pod> {
    if pods == [] then [] else Insert(o, pods[|pods| - 1], SortOf(o, pods[..|pods| - 1]))
  }

  lemma {:induction false} SortOfSorts(o: Order, pods: seq<Pod>)
    ensures IsSortOf(o, SortOf(o, pods), pods)
  {
    if pods != [] {
      var front, last := pods[..|pods| - 1], pods[|pods| - 1];
      SortOfSorts(o, front);
      InsertPermutes(o, last, SortOf(o, front));
      InsertSorts(o, last, SortOf(o, front));
      assert pods == front + [last];
    }
  }

  function NodeOrder(pods: seq<Pod>, node: string): seq<Pod> {
    SortOf(UNRANKED, OnNode(pods, node))
  }

  ghost predicate Stands(pods: seq<Pod>, uid: string, node: string, i: nat) {
    i < |NodeOrder(pods, node)| && NodeOrder(pods, node)[i].uid == uid
  }

  /** The rank a pod has by its place in the order of its node. */
  ghost function RankByPlace(pods: seq<Pod>, uid: string): int {
    if i: nat, node: string :| Stands(pods, uid, node, i) then |NodeOrder(pods, node)| - 1 - i else 0
  }

  ghost function RanksByPlace(pods: seq<Pod>): map<string, int> {
    map uid | uid in (set p | p in pods :: p.uid) :: RankByPlace(pods, uid)
  }

  /** A pod stands in one place only. */
  lemma OnePlace(pods: seq<Pod>, node: string, i: nat, other: string, j: nat)
    requires DistinctUids(pods) && i < |NodeOrder(pods, node)|
    requires Stands(pods, NodeOrder(pods, node)[i].uid, other, j)
    ensures other == node && j == i
  {
    OnNodeMeaning(pods, node);
    OnNodeMeaning(pods, other);
    SortOfSorts(UNRANKED, OnNode(pods, node));
    SortOfSorts(UNRANKED, OnNode(pods, other));
    SortKeepsUids(NodeOrder(pods, node), OnNode(pods, node));
    SortKeepsUids(NodeOrder(pods, other), OnNode(pods, other));
    var p, q := NodeOrder(pods, node)[i], NodeOrder(pods, other)[j];
    assert p in NodeOrder(pods, node) && q in NodeOrder(pods, other);
  }

  lemma PlacesRank(pods: seq<Pod>)
    requires DistinctUids(pods)
    ensures RanksNodes(pods, RanksByPlace(pods))
  {
    forall node | node != "" ensures RanksNode(pods, RanksByPlace(pods), node) {
      var group := NodeOrder(pods, node);
      SortOfSorts(UNRANKED, OnNode(pods, node));
      OnNodeMeaning(pods, node);
      forall i | 0 <= i < |group| ensures RankIn(RanksByPlace(pods), group[i]) == |group| - 1 - i {
        assert group[i] in multiset(group);
        assert group[i] in pods;
        assert Stands(pods, group[i].uid, node, i);
        forall other: string, j: nat | Stands(pods, group[i].uid, other, j) ensures other == node && j == i {
          OnePlace(pods, node, i, other, j);
        }
      }
      assert RanksGroup(RanksByPlace(pods), group);
    }
  }

  lemma SomeChoice(pods: seq<Pod>, diff: nat) returns (chosen: seq<Pod>)
    requires DistinctUids(pods)
    ensures Chosen(pods, diff, chosen)
  {
    if diff < |pods| {
      var ranks := RanksByPlace(pods);
      var sorted := SortOf(Ranked(ranks), pods);
      PlacesRank(pods);
      SortOfSorts(Ranked(ranks), pods);
      assert |sorted| == |multiset(sorted)| == |multiset(pods)| == |pods|;
      chosen := sorted[..diff];
    } else {
      chosen := pods;
    }
  }

  // ---------- A scaling step always completes ----------

  lemma {:induction false} DeletionsLawful(pods: seq<Pod>, list: seq<Pod>)
    ensures Lawful(pods, Deletions(list))
  {
    if list != [] {
      var front := list[..|list| - 1];
      DeletionsLawful(pods, front);
      assert Deletions(list)[..|list| - 1] == Deletions(front);
    }
  }

  function LabelIds(pods: seq<Pod>): set<string> {
    set p | p in pods && InstanceIDKey in p.labels :: p.labels[InstanceIDKey]
  }

  /** An id that no listed pod uses and whose name is free. */
  lemma SomeId(iu: Inplaceu, pods: seq<Pod>) returns (id: string)
    ensures id != "" && (forall p | p in pods :: !UsesId(p, id)) && !HasName(pods, iu.name + "-" + id)
  {
    var n := LongerThanAll(LabelIds(pods) + PodNames(pods));
    id := seq(n + 1, _ => 'x');
    forall p | p in pods ensures !UsesId(p, id) && p.name != iu.name + "-" + id {
      assert p.name in LabelIds(pods) + PodNames(pods);
      if InstanceIDKey in p.labels {
        assert p.labels[InstanceIDKey] in LabelIds(pods) + PodNames(pods);
      }
    }
  }

  /** Some number of clean batches makes all the calls. */
  lemma {:induction false} CleanBatches(count: nat, k: nat) returns (batches: nat)
    requires Done(count, 1, k) < count
    ensures batches > 0 && Done(count, 1, batches) == count && Done(count, 1, batches - 1) < count
    decreases count - Done(count, 1, k)
  {
    if Done(count, 1, k + 1) == count {
      batches := k + 1;
    } else {
      batches := CleanBatches(count, k + 1);
    }
  }

  lemma CleanRun(ids: seq<string>) returns (outcomes: seq<bool>, batches: nat)
    requires ids != []
    ensures Ran(Creating(ids, outcomes, batches), true, false)
    ensures |outcomes| == |ids| && AllOk(outcomes)
  {
    outcomes := seq(|ids|, _ => true);
    batches := CleanBatches(|ids|, 0);
    SuccessesBound(outcomes);
  }

  /** Creating under free and distinct names is lawful. */
  lemma {:induction false} CreationsLawful(pods: seq<Pod>, queue: seq<Pod>, outcomes: seq<bool>)
    requires |outcomes| <= |queue| && DistinctNames(queue) && forall p | p in queue :: !HasName(pods, p.name)
    ensures Lawful(pods, Creations(queue, outcomes))
  {
    if outcomes != [] {
      var last := |outcomes| - 1;
      var front := Creations(queue, outcomes[..last]);
      CreationsLawful(pods, queue, outcomes[..last]);
      Floors.CreationsApply(pods, queue, outcomes[..last]);
      NewNameIsFree(pods, queue, outcomes[..last]);
      var w := if outcomes[last] then [Created(queue[last])] else [];
      LawfulAppend(pods, front, w);
      if outcomes[last] {
        assert w[..0] == [];
      } else {
        assert front + [] == front;
      }
    }
  }

  lemma NewNameIsFree(pods: seq<Pod>, queue: seq<Pod>, outcomes: seq<bool>)
    requires |outcomes| < |queue| && DistinctNames(queue) && forall p | p in queue :: !HasName(pods, p.name)
    ensures !HasName(pods + Floors.CreatedPods(queue, outcomes), queue[|outcomes|].name)
  {
    CreatedAreEarlier(queue, outcomes);
    var created := Floors.CreatedPods(queue, outcomes);
    assert queue[|outcomes|] in queue;
    forall i | 0 <= i < |created| ensures created[i].name != queue[|outcomes|].name {
      assert created[i] in created;
    }
  }

  lemma {:induction false} CreatedAreEarlier(queue: seq<Pod>, outcomes: seq<bool>)
    requires |outcomes| <= |queue|
    ensures forall p | p in Floors.CreatedPods(queue, outcomes) :: p in queue[..|outcomes|]
  {
    if outcomes != [] {
      var last := |outcomes| - 1;
      CreatedAreEarlier(queue, outcomes[..last]);
      assert queue[..last + 1] == queue[..last] + [queue[last]];
    }
  }

  lemma CreationCompletes(iu: Inplaceu, pods: seq<Pod>, revision: string) returns (step: Scaling.Step)
    requires PlanOf(iu.spec, pods, revision).scaleUpNum > 0
    ensures Decided(iu.spec, pods, revision, step) && Ran(step, true, false)
    ensures Lawful(pods, StepWrites(iu, revision, step))
  {
    var ids := SomeIds(iu, pods, PlanOf(iu.spec, pods, revision).scaleUpNum);
    var outcomes, batches := CleanRun(ids);
    NewPodsAreFresh(iu, revision, ids, PlanOf(iu.spec, pods, revision).scaleUpNum, pods);
    CreationsLawful(pods, NewPods(iu, revision, ids), outcomes);
    step := Creating(ids, outcomes, batches);
  }

  lemma SomeIds(iu: Inplaceu, pods: seq<Pod>, num: int) returns (ids: seq<string>)
    requires num > 0
    ensures AvailableIds(ids, num, pods) && ids != []
    ensures forall id | id in ids :: !HasName(pods, iu.name + "-" + id)
  {
    var id := SomeId(iu, pods);
    ids := [id];
  }

  lemma StepCompletes(iu: Inplaceu, pods: seq<Pod>, revision: string) returns (step: Scaling.Step, modified: bool)
    requires DistinctUids(pods)
    ensures Decided(iu.spec, pods, revision, step) && Ran(step, modified, false)
    ensures Lawful(pods, StepWrites(iu, revision, step))
  {
    var plan := PlanOf(iu.spec, pods, revision);
    var deletable := Affordable(Select(MARKED, pods, revision), plan.deleteReadyLimit, true);
    if plan.scaleUpNum > 0 {
      step := CreationCompletes(iu, pods, revision);
      modified := true;
    } else if deletable != [] {
      step, modified := Deleting(deletable, |deletable|), true;
      DeletionsLawful(pods, deletable[..|deletable|]);
    } else if plan.scaleDownNum > 0 {
      SelectDistinctUids(UPDATED, pods, revision);
      var chosen := SomeChoice(Select(UPDATED, pods, revision), plan.scaleDownNum);
      var list := Affordable(chosen, plan.deleteReadyLimit, false);
      step, modified := Deleting(list, |list|), |list| > 0;
      DeletionsLawful(pods, list[..|list|]);
    } else {
      step, modified := Idle, false;
    }
  }

  // ---------- An update run always completes ----------

  lemma {:induction false} SomeCandidates(pods: seq<Pod>, revision: string, n: nat) returns (wait: seq<nat>)
    requires n <= |pods|
    ensures Indexes(wait, pods) && Distinct(wait)
    ensures forall i :: i in wait <==> 0 <= i < n && CanUpdate(pods[i], revision)
  {
    if n == 0 {
      wait := [];
    } else {
      wait := SomeCandidates(pods, revision, n - 1);
      assert n - 1 !in wait;
      if CanUpdate(pods[n - 1], revision) {
        wait := wait + [n - 1];
      }
    }
  }

  lemma {:induction false} SomePrefix(candidates: seq<nat>, updateNum: nat, limit: int, pods: seq<Pod>,
                                      revision: string, n: nat) returns (wait: seq<nat>)
    requires Indexes(candidates, pods) && n <= |candidates| && n <= updateNum
    requires forall k | n < k <= |candidates| && k <= updateNum ::
      !WithinCaps(k, RunningOf(candidates[..k], pods), limit, pods, revision)
    ensures LongestPrefix(wait, candidates, updateNum, limit, pods, revision)
  {
    if WithinCaps(n, RunningOf(candidates[..n], pods), limit, pods, revision) {
      wait := candidates[..n];
    } else {
      wait := SomePrefix(candidates, updateNum, limit, pods, revision, n - 1);
    }
  }

  /** What becomes of a pod the server still holds as listed: the update or the mark its way calls for. */
  function EffectOf(revisions: seq<Revision>, update: Revision, p: Pod, now: Time, marshal: State -> string): Effect {
    var from := OldRevision(revisions, p);
    if from.Some? && Updatable(from.value.data, update.data) then
      Stored(p, InPlaceResult(p, SpecFor(from.value, update), now, marshal))
    else if IsSpecifiedDelete(p) then Nothing
    else Stored(p, p.(labels := p.labels[SpecifiedDeleteKey := "true"]))
  }

  lemma EffectIsEffective(revisions: seq<Revision>, update: Revision, p: Pod, now: Time, marshal: State -> string)
    ensures
      && var e := EffectOf(revisions, update, p, now, marshal);
      && Effective(WayOf(revisions, update, p), update, p, e, now, marshal)
      && (e.Stored? ==> e.before == p && e.after.name == p.name)
  {
  }

  function EffectsOf(targets: seq<Pod>, revisions: seq<Revision>, update: Revision, now: Time,
                     marshal: State -> string): (effects: seq<Effect>)
    ensures |effects| == |targets|
    ensures forall i | 0 <= i < |targets| :: effects[i] == EffectOf(revisions, update, targets[i], now, marshal)
  {
    seq(|targets|, i requires 0 <= i < |targets| => EffectOf(revisions, update, targets[i], now, marshal))
  }

  lemma {:induction false} EffectsComplete(targets: seq<Pod>, revisions: seq<Revision>, update: Revision,
                                           start: seq<Pod>, n: nat, now: Time, marshal: State -> string)
    requires DistinctNames(targets) && (forall p | p in targets :: p in start) && n <= |targets|
    ensures
      && var effects := EffectsOf(targets, revisions, update, now, marshal)[..n];
      && Carried(targets, revisions, update, start, effects, now, marshal)
      && Lawful(start, WritesOf(effects))
      && forall i | n <= i < |targets| :: targets[i] in Apply(start, WritesOf(effects))
  {
    if n == 0 {
      assert EffectsOf(targets, revisions, update, now, marshal)[..n] == [];
      assert WritesOf([]) == [] && Apply(start, []) == start && Lawful(start, []);
      assert forall i | 0 <= i < |targets| :: targets[i] in targets;
    } else {
      EffectsComplete(targets, revisions, update, start, n - 1, now, marshal);
      var effects := EffectsOf(targets, revisions, update, now, marshal);
      assert effects[..n] == effects[..n - 1] + [EffectOf(revisions, update, targets[n - 1], now, marshal)];
      OneMoreCompletes(targets, revisions, update, start, effects[..n - 1], n, now, marshal);
    }
  }

  lemma OneMoreCompletes(targets: seq<Pod>, revisions: seq<Revision>, update: Revision, start: seq<Pod>,
                         front: seq<Effect>, n: nat, now: Time, marshal: State -> string)
    requires DistinctNames(targets) && 0 < n <= |targets| && |front| == n - 1
    requires Carried(targets, revisions, update, start, front, now, marshal) && Lawful(start, WritesOf(front))
    requires forall i | n - 1 <= i < |targets| :: targets[i] in Apply(start, WritesOf(front))
    ensures
      && var effects := front + [EffectOf(revisions, update, targets[n - 1], now, marshal)];
      && Carried(targets, revisions, update, start, effects, now, marshal)
      && Lawful(start, WritesOf(effects))
      && forall i | n <= i < |targets| :: targets[i] in Apply(start, WritesOf(effects))
  {
    var e := EffectOf(revisions, update, targets[n - 1], now, marshal);
    EffectIsEffective(revisions, update, targets[n - 1], now, marshal);
    CarriedStep(targets, revisions, update, start, front, e, now, marshal);
    EffectStep(targets, start, front, e, n);
  }

  lemma EffectStep(targets: seq<Pod>, start: seq<Pod>, front: seq<Effect>, e: Effect, n: nat)
    requires DistinctNames(targets) && 0 < n <= |targets|
    requires e.Stored? ==> e.before == targets[n - 1] && e.after.name == targets[n - 1].name
    requires Lawful(start, WritesOf(front))
    requires forall i | n - 1 <= i < |targets| :: targets[i] in Apply(start, WritesOf(front))
    ensures Lawful(start, WritesOf(front + [e]))
    ensures forall i | n <= i < |targets| :: targets[i] in Apply(start, WritesOf(front + [e]))
  {
    assert (front + [e])[..|front|] == front;
    var w := if e.Stored? then [Replaced(e.after)] else [];
    var pods := Apply(start, WritesOf(front));
    StoredApplies(start, WritesOf(front), w);
    LawfulAppend(start, WritesOf(front), w);
    if e.Stored? {
      assert w[..0] == [];
      PutNames(pods, e.after);
      forall i | n <= i < |targets| ensures targets[i] in Put(pods, e.after) {
        var j :| 0 <= j < |pods| && pods[j] == targets[i];
        assert Put(pods, e.after)[j] == targets[i];
      }
    } else {
      assert WritesOf(front) + [] == WritesOf(front);
    }
  }

  lemma UpdateCompletes(spec: Spec, update: Revision, revisions: seq<Revision>, pods: seq<Pod>, start: seq<Pod>,
                        now: Time, marshal: State -> string)
    returns (run: UpdateRun)
    requires DistinctNames(pods) && (forall p | p in pods :: p in start && IsPodAvailable(p))
    ensures UpdateSound(spec, update, revisions, pods, start, run, false, now, marshal)
    ensures Lawful(start, WritesOf(run.effects))
  {
    var plan := PlanOf(spec, pods, update.name);
    if plan.updateNum == 0 {
      run := NO_UPDATE;
    } else {
      var candidates := SomeCandidates(pods, update.name, |pods|);
      assert DownFirst(candidates, pods) by {
        assert forall i | 0 <= i < |candidates| :: IsPodAvailable(pods[candidates[i]]);
      }
      var chosen := SomePrefix(candidates, plan.updateNum, plan.updateMaxUnavailable, pods, update.name,
                               Min(|candidates|, plan.updateNum));
      var targets := At(pods, chosen);
      var effects := EffectsOf(targets, revisions, update, now, marshal);
      ChosenAreListed(pods, candidates, chosen);
      EffectsComplete(targets, revisions, update, start, |targets|, now, marshal);
      assert effects[..|targets|] == effects;
      run := UpdateRun(candidates, chosen, effects);
    }
  }

  // ---------- Runs exist ----------

  /** From any settled pods a pass completes without an error, whatever the pods, the plan and the history. */
  lemma PassCompletes(g: Goal, revisions: seq<Revision>, pods: seq<Pod>, now: Time, marshal: State -> string)
    returns (after: seq<Pod>, r: PassRecord)
    requires !g.iu.deleting && Compatible(revisions, g.update) && Settled(pods) && DistinctUids(pods)
    ensures Passed(g, pods, after, r) && r.revisions == revisions
  {
    var iu := ApplyRevision(g.iu, g.update);
    var step, modified := StepCompletes(iu, pods, g.update.name);
    var run := NO_UPDATE;
    if !modified {
      forall p | p in pods ensures IsPodAvailable(p) {
      }
      run := UpdateCompletes(iu.spec, g.update, revisions, pods, pods, now, marshal);
    }
    var t := Trace(step, modified, false, run, false);
    WritesOfOneHalf(iu, g.update, t);
    after := Apply(pods, TraceWrites(iu, g.update, t));
    r := PassRecord(pods, revisions, t, now, marshal);
  }

  /** The pods once they have settled, with the uids the server gave them. */
  function SettledForm(pods: seq<Pod>): (next: seq<Pod>)
    ensures |next| == |pods|
    ensures forall i | 0 <= i < |pods| ::
      next[i] == pods[i].(uid := pods[i].name, phase := Running, availableSince := true)
  {
    seq(|pods|, i requires 0 <= i < |pods| => pods[i].(uid := pods[i].name, phase := Running, availableSince := true))
  }

  /** A round of a pass that finds these revisions recorded. */
  ghost predicate RoundWith(g: Goal, revisions: seq<Revision>, before: seq<Pod>, next: seq<Pod>) {
    exists after, r :: Passed(g, before, after, r) && r.revisions == revisions && Settles(after, next)
  }

  ghost predicate Ready(pods: seq<Pod>) {
    Settled(pods) && DistinctUids(pods)
  }

  ghost predicate Leads(g: Goal, revisions: seq<Revision>, pods: seq<Pod>, next: seq<Pod>) {
    RoundWith(g, revisions, pods, next) && Ready(next)
  }

  lemma RoundCompletes(g: Goal, revisions: seq<Revision>, pods: seq<Pod>, now: Time, marshal: State -> string)
    returns (next: seq<Pod>)
    requires !g.iu.deleting && Compatible(revisions, g.update) && Ready(pods)
    ensures Leads(g, revisions, pods, next)
  {
    var after, r := PassCompletes(g, revisions, pods, now, marshal);
    LawfulKeepsNames(pods, TraceWrites(ApplyRevision(g.iu, g.update), g.update, r.t));
    next := SettledForm(after);
    assert Settles(after, next);
  }

  ghost function NextRound(g: Goal, revisions: seq<Revision>, pods: seq<Pod>): seq<Pod> {
    if next: seq<Pod> :| Leads(g, revisions, pods, next) then next else pods
  }

  ghost function Rounds(g: Goal, history: nat -> seq<Revision>, pods: seq<Pod>, i: nat): seq<Pod> {
    if i == 0 then pods else NextRound(g, history(i - 1), Rounds(g, history, pods, i - 1))
  }

  ghost predicate AllCompatible(g: Goal, history: nat -> seq<Revision>) {
    forall i: nat :: Compatible(history(i), g.update)
  }

  lemma {:induction false} RoundsReady(g: Goal, history: nat -> seq<Revision>, pods: seq<Pod>, i: nat,
                                       marshal: State -> string)
    requires !g.iu.deleting && AllCompatible(g, history) && Ready(pods)
    ensures Leads(g, history(i), Rounds(g, history, pods, i), Rounds(g, history, pods, i + 1))
  {
    if i > 0 {
      RoundsReady(g, history, pods, i - 1, marshal);
    }
    assert Rounds(g, history, pods, i + 1) == NextRound(g, history(i), Rounds(g, history, pods, i));
    var next := RoundCompletes(g, history(i), Rounds(g, history, pods, i), 0, marshal);
    assert Leads(g, history(i), Rounds(g, history, pods, i), next);
  }

  /** Round i of the run is a pass that finds the revisions recorded at that time. */
  ghost predicate RoundUnder(g: Goal, history: nat -> seq<Revision>, run: nat -> seq<Pod>, i: nat) {
    RoundWith(g, history(i), run(i), run(i + 1))
  }

  lemma RunHappens(g: Goal, history: nat -> seq<Revision>, pods: seq<Pod>, run: nat -> seq<Pod>,
                   marshal: State -> string)
    requires !g.iu.deleting && AllCompatible(g, history) && Ready(pods)
    requires run == ((i: nat) => Rounds(g, history, pods, i))
    ensures run(0) == pods && Run(g, run) && forall i: nat :: RoundUnder(g, history, run, i)
  {
    forall i: nat ensures RoundAt(g, run, i) && RoundUnder(g, history, run, i) {
      RoundsReady(g, history, pods, i, marshal);
    }
  }

  /**
   * From any settled pods, and whatever revisions each pass finds recorded, an endless run of such passes starts,
   * and with room for progress it reaches the goal and stays there.
   */
  lemma RolloutCompletes(g: Goal, history: nat -> seq<Revision>, pods: seq<Pod>, marshal: State -> string)
    returns (run: nat -> seq<Pod>)
    requires Live(g) && Room(g) >= 1 && AllCompatible(g, history) && Settled(pods) && DistinctUids(pods)
    ensures run(0) == pods && Run(g, run) && forall i: nat :: RoundUnder(g, history, run, i)
    ensures exists n: nat :: AtGoalFrom(g, run, n)
  {
    run := (i: nat) => Rounds(g, history, pods, i);
    RunHappens(g, history, pods, run, marshal);
    Converges(g, run);
  }
}
