/** The availability floor of whole passes and of whole runs: what no call of the controller touches. */
module RunFloors {
  import opened Kube
  import opened Templates
  import opened Planner
  import opened Api
  import opened Batches
  import opened ScaleIn
  import opened Scaling
  import opened Updating
  import opened InPlace
  import opened Reconcile
  import opened Floors
  import opened Convergence

  // ---------- What writes leave alone ----------

  /** The names of stored pods that some write replaces or deletes. */
  ghost function Touched(writes: seq<Write>): set<string> {
    set w | w in writes && !w.Created? :: if w.Deleted? then w.name else w.pod.name
  }

  function Untouched(pods: seq<Pod>, names: set<string>): seq<Pod> {
    if pods == [] then []
    else
      var front, last := Untouched(pods[..|pods| - 1], names), pods[|pods| - 1];
      if last.name in names then front else front + [last]
  }

  /** The running pods that the writes leave alone: what keeps running if every touched pod goes down. */
  ghost function Spared(pods: seq<Pod>, writes: seq<Write>, revision: string): nat {
    Count(RUNNING, Untouched(pods, Touched(writes)), revision)
  }

  lemma {:induction false} UntouchedAll(pods: seq<Pod>)
    ensures Untouched(pods, {}) == pods
  {
    if pods != [] {
      UntouchedAll(pods[..|pods| - 1]);
    }
  }

  lemma {:induction false} UntouchedWithout(pods: seq<Pod>, names: set<string>, name: string)
    ensures Untouched(pods, names + {name}) == Without(Untouched(pods, names), name)
  {
    if pods != [] {
      var front, last := pods[..|pods| - 1], pods[|pods| - 1];
      UntouchedWithout(front, names, name);
      assert (Untouched(front, names) + [last])[..|Untouched(front, names)|] == Untouched(front, names);
    }
  }

  lemma {:induction false} UntouchedMonotone(pods: seq<Pod>, few: set<string>, many: set<string>, revision: string)
    requires few <= many
    ensures Count(RUNNING, Untouched(pods, many), revision) <= Count(RUNNING, Untouched(pods, few), revision)
    ensures |Untouched(pods, few)| <= |pods|
  {
    if pods != [] {
      var front, last := pods[..|pods| - 1], pods[|pods| - 1];
      UntouchedMonotone(front, few, many, revision);
      CountAppend(RUNNING, Untouched(front, few), [last], revision);
      CountAppend(RUNNING, Untouched(front, many), [last], revision);
    }
  }

  /** Leaving names alone and deleting them leave the same pods. */
  lemma {:induction false} DeletedUntouched(pods: seq<Pod>, list: seq<Pod>)
    ensures Untouched(pods, PodNames(list)) == Apply(pods, Deletions(list))
  {
    if list == [] {
      UntouchedAll(pods);
      assert PodNames(list) == {} && Deletions(list) == [];
    } else {
      var front, last := list[..|list| - 1], list[|list| - 1];
      DeletedUntouched(pods, front);
      PodNamesStep(list, |front|);
      assert list[..|front| + 1] == list;
      UntouchedWithout(pods, PodNames(front), last.name);
      assert Deletions(list) == Deletions(front) + [Deleted(last.name)];
      StoredApplies(pods, Deletions(front), [Deleted(last.name)]);
    }
  }

  lemma UntouchedCount(pods: seq<Pod>, list: seq<Pod>, revision: string)
    requires DistinctNames(pods) && DistinctNames(list) && forall p | p in list :: p in pods
    ensures Count(RUNNING, Untouched(pods, PodNames(list)), revision)
         == Count(RUNNING, pods, revision) - Count(RUNNING, list, revision)
  {
    DeletedUntouched(pods, list);
    DeletionsCount(RUNNING, pods, list, revision);
  }

  // ---------- What one pass touches ----------

  lemma {:induction false} CreationsTouchNothing(queue: seq<Pod>, outcomes: seq<bool>)
    requires |outcomes| <= |queue|
    ensures Touched(Creations(queue, outcomes)) == {}
  {
    if outcomes != [] {
      CreationsTouchNothing(queue, outcomes[..|outcomes| - 1]);
    }
  }

  lemma DeletionsTouch(list: seq<Pod>)
    ensures Touched(Deletions(list)) == PodNames(list)
  {
    forall p | p in list ensures p.name in Touched(Deletions(list)) {
      var i :| 0 <= i < |list| && list[i] == p;
      assert Deletions(list)[i] == Deleted(p.name);
      assert Deleted(p.name) in Deletions(list);
    }
  }

  lemma {:induction false} EffectsTouch(targets: seq<Pod>, revisions: seq<Revision>, update: Revision, start: seq<Pod>,
                                        effects: seq<Effect>, now: Time, marshal: State -> string)
    requires |effects| <= |targets| && Carried(targets, revisions, update, start, effects, now, marshal)
    ensures Touched(WritesOf(effects)) <= PodNames(targets[..|effects|])
  {
    if effects != [] {
      var last := |effects| - 1;
      CarriedFront(targets, revisions, update, start, effects, now, marshal);
      EffectsTouch(targets, revisions, update, start, effects[..last], now, marshal);
      PodNamesStep(targets, last);
      var e := effects[last];
      assert Effective(WayOf(revisions, update, targets[last]), update, targets[last], e, now, marshal);
      assert e.Stored? ==> e.after.name == targets[last].name;
    }
  }

  lemma {:induction false} RunningAt(pods: seq<Pod>, chosen: seq<nat>, k: nat, revision: string)
    requires Indexes(chosen, pods) && k <= |chosen|
    ensures Count(RUNNING, At(pods, chosen)[..k], revision) == RunningOf(chosen[..k], pods)
  {
    if k > 0 {
      RunningAt(pods, chosen, k - 1, revision);
      RunningStep(chosen, pods, k - 1);
      assert At(pods, chosen)[..k] == At(pods, chosen)[..k - 1] + [pods[chosen[k - 1]]];
      CountAppend(RUNNING, At(pods, chosen)[..k - 1], [pods[chosen[k - 1]]], revision);
      CountOne(RUNNING, pods[chosen[k - 1]], revision);
    }
  }

  /** The list a pass works from is complete, in some order. */
  lemma CompleteList(listed: seq<Pod>, pods: seq<Pod>, revision: string)
    requires DistinctNames(pods) && multiset(listed) == multiset(pods)
    ensures DistinctNames(listed) && Count(RUNNING, listed, revision) == Count(RUNNING, pods, revision)
    ensures forall p | p in listed :: p in pods
  {
    NamesPermuted(listed, pods);
    CountPermuted(RUNNING, listed, pods, revision);
    forall p | p in listed ensures p in pods {
      assert p in multiset(listed);
    }
  }

  lemma DeletionSpares(spec: Spec, listed: seq<Pod>, pods: seq<Pod>, revision: string, step: Scaling.Step)
    requires DistinctNames(pods) && multiset(listed) == multiset(pods)
    requires Decided(spec, listed, revision, step) && step.Deleting? && step.k <= |step.list|
    ensures Spared(pods, Deletions(step.list[..step.k]), revision) >= Floor(spec, listed, revision)
  {
    CompleteList(listed, pods, revision);
    DeletionList(spec, listed, revision, step);
    PrefixMembers(step.list, step.k);
    DeletionsTouch(step.list[..step.k]);
    UntouchedCount(pods, step.list[..step.k], revision);
    DeletionFloor(spec, listed, revision, step);
  }

  lemma StepSpares(iu: Inplaceu, listed: seq<Pod>, pods: seq<Pod>, revision: string, step: Scaling.Step,
                   modified: bool, err: bool)
    requires DistinctNames(pods) && multiset(listed) == multiset(pods)
    requires Decided(iu.spec, listed, revision, step) && Ran(step, modified, err)
    ensures Spared(pods, StepWrites(iu, revision, step), revision) >= Floor(iu.spec, listed, revision)
  {
    match step
    case Deleting(_, _) => DeletionSpares(iu.spec, listed, pods, revision, step);
    case Creating(ids, outcomes, _) =>
      CreationsTouchNothing(NewPods(iu, revision, ids), outcomes);
      NothingTouched(pods, StepWrites(iu, revision, step), revision);
      PlainFloor(iu.spec, listed, pods, revision);
    case Idle =>
      NothingTouched(pods, [], revision);
      PlainFloor(iu.spec, listed, pods, revision);
  }

  lemma NothingTouched(pods: seq<Pod>, writes: seq<Write>, revision: string)
    requires Touched(writes) == {}
    ensures Spared(pods, writes, revision) == Count(RUNNING, pods, revision)
  {
    UntouchedAll(pods);
  }

  /** The plain floor is no lower than the general one, and is the same when every marked pod is available. */
  lemma PlainFloor(spec: Spec, listed: seq<Pod>, pods: seq<Pod>, revision: string)
    requires multiset(listed) == multiset(pods)
    ensures
      && var s := SplitOf(listed, revision);
      && var plain := Min(Count(RUNNING, pods, revision), spec.replicas - MaxUnavailable(spec));
      && Floor(spec, listed, revision) <= plain
      && (s.markedDown + s.markedUnready == 0 ==> Floor(spec, listed, revision) == plain)
  {
    CountPermuted(RUNNING, listed, pods, revision);
    SplitMeaning(listed, revision);
  }

  lemma UpdateSpares(spec: Spec, update: Revision, revisions: seq<Revision>, listed: seq<Pod>, pods: seq<Pod>,
                     run: UpdateRun, err: bool, now: Time, marshal: State -> string)
    requires DistinctNames(pods) && multiset(listed) == multiset(pods)
    requires UpdateSound(spec, update, revisions, listed, pods, run, err, now, marshal)
    ensures Spared(pods, WritesOf(run.effects), update.name)
         >= Min(Count(RUNNING, pods, update.name), spec.replicas - MaxUnavailable(spec))
  {
    var targets, k := At(listed, run.chosen), |run.effects|;
    CompleteList(listed, pods, update.name);
    ChosenAreListed(listed, run.candidates, run.chosen);
    PrefixMembers(targets, k);
    EffectsTouch(targets, revisions, update, pods, run.effects, now, marshal);
    UntouchedMonotone(pods, Touched(WritesOf(run.effects)), PodNames(targets[..k]), update.name);
    UntouchedCount(pods, targets[..k], update.name);
    RunningAt(listed, run.chosen, k, update.name);
    TouchedRunning(spec, listed, update.name, run, k);
  }

  /** Some calls of a pass over a complete list may fail. */
  ghost predicate Tried(g: Goal, before: seq<Pod>, after: seq<Pod>, r: PassRecord) {
    && multiset(r.listed) == multiset(before)
    && PodsSynced(g.iu, g.update, r.revisions, r.listed, before, after, r.t, r.now, r.marshal)
  }

  /** The running pods no call of the pass touched. */
  ghost function SparedBy(g: Goal, before: seq<Pod>, r: PassRecord): nat
    requires Ran(r.t.step, r.t.modified, r.t.scaleErr)
  {
    Spared(before, TraceWrites(ApplyRevision(g.iu, g.update), g.update, r.t), g.update.name)
  }

  /**
   * Whatever the pass decides and wherever its calls fail, the running pods it leaves alone are at least the floor,
   * and the plain floor if every marked pod is available: all running pods, or replicas - maxUnavailable of them.
   */
  lemma PassFloor(g: Goal, before: seq<Pod>, after: seq<Pod>, r: PassRecord)
    requires DistinctNames(before) && Tried(g, before, after, r)
    ensures SparedBy(g, before, r) >= Floor(g.iu.spec, r.listed, g.update.name)
    ensures
      && var s := SplitOf(r.listed, g.update.name);
      && (s.markedDown + s.markedUnready == 0 ==>
            SparedBy(g, before, r)
            >= Min(Count(RUNNING, before, g.update.name), g.iu.spec.replicas - MaxUnavailable(g.iu.spec)))
  {
    PlainFloor(g.iu.spec, r.listed, before, g.update.name);
    PassSpares(g, before, after, r);
  }

  lemma PassSpares(g: Goal, before: seq<Pod>, after: seq<Pod>, r: PassRecord)
    requires DistinctNames(before) && Tried(g, before, after, r)
    ensures SparedBy(g, before, r) >= Floor(g.iu.spec, r.listed, g.update.name)
  {
    var iu, writes := ApplyRevision(g.iu, g.update), TraceWrites(ApplyRevision(g.iu, g.update), g.update, r.t);
    if g.iu.deleting {
      NothingTouched(before, writes, g.update.name);
      PlainFloor(iu.spec, r.listed, before, g.update.name);
    } else {
      WritesOfOneHalf(iu, g.update, r.t);
      if r.t.modified {
        StepSpares(iu, r.listed, before, g.update.name, r.t.step, r.t.modified, r.t.scaleErr);
      } else {
        UpdateSpares(iu.spec, g.update, r.revisions, r.listed, before, r.t.run, r.t.updateErr, r.now, r.marshal);
        PlainFloor(iu.spec, r.listed, before, g.update.name);
      }
    }
  }

  // ---------- Whole runs ----------

  /** A pass in which calls may fail, after which the pods settle. */
  ghost predicate Attempt(g: Goal, before: seq<Pod>, next: seq<Pod>) {
    exists after, r :: Tried(g, before, after, r) && Settles(after, next)
  }

  ghost predicate Attempts(g: Goal, run: nat -> seq<Pod>) {
    Settled(run(0)) && forall i: nat :: AttemptAt(g, run, i)
  }

  ghost predicate AttemptAt(g: Goal, run: nat -> seq<Pod>, i: nat) {
    Attempt(g, run(i), run(i + 1))
  }

  /** Settled pods are all running, and none is marked and unavailable. */
  lemma SettledRunning(g: Goal, pods: seq<Pod>, listed: seq<Pod>)
    requires Settled(pods) && multiset(listed) == multiset(pods)
    ensures Count(RUNNING, pods, g.update.name) == |pods|
    ensures SplitOf(listed, g.update.name).markedDown == 0 && SplitOf(listed, g.update.name).markedUnready == 0
  {
    SettledList(g, pods, listed);
    forall i | 0 <= i < |pods| ensures InClass(RUNNING, pods[i], g.update.name) {
      assert IsPodAvailable(pods[i]);
    }
    CountAll(RUNNING, pods, g.update.name);
    CountNone(Class(Any, Yes, No, No), listed, g.update.name);
    CountNone(Class(Any, Yes, Yes, No), listed, g.update.name);
  }

  /** Over settled pods a pass, wherever it fails, leaves replicas - maxUnavailable pods alone, or all there are. */
  lemma SettledPassFloor(g: Goal, before: seq<Pod>, after: seq<Pod>, r: PassRecord)
    requires Settled(before) && Tried(g, before, after, r)
    ensures SparedBy(g, before, r) >= Min(|before|, g.iu.spec.replicas - MaxUnavailable(g.iu.spec))
  {
    SettledRunning(g, before, r.listed);
    PassFloor(g, before, after, r);
  }

  lemma {:induction false} UntouchedMembers(pods: seq<Pod>, names: set<string>, p: Pod)
    ensures p in Untouched(pods, names) <==> p in pods && p.name !in names
  {
    if pods != [] {
      UntouchedMembers(pods[..|pods| - 1], names, p);
      assert pods == pods[..|pods| - 1] + [pods[|pods| - 1]];
    }
  }

  /** What writes leave alone is still there after them. */
  lemma {:induction false} UntouchedStays(pods: seq<Pod>, writes: seq<Write>, p: Pod)
    requires p in pods && p.name !in Touched(writes) && DistinctNames(pods) && Lawful(pods, writes)
    ensures p in Apply(pods, writes)
  {
    if writes != [] {
      var front, last := writes[..|writes| - 1], writes[|writes| - 1];
      assert last in writes && forall w | w in front :: w in writes;
      UntouchedStays(pods, front, p);
      LawfulKeepsNames(pods, front);
      var now := Apply(pods, front);
      match last
      case Created(_) =>
      case Deleted(name) => WithoutDistinct(now, name);
      case Replaced(q) =>
        PutNames(now, q);
        var i :| 0 <= i < |now| && now[i] == p;
        assert Put(now, q)[i] == p;
    }
  }

  lemma SubListSize(a: seq<Pod>, b: seq<Pod>)
    requires DistinctNames(a) && DistinctNames(b) && forall p | p in a :: p in b
    ensures |a| <= |b|
  {
    DeletionsCount(EVERY, b, a, "");
    CountAll(EVERY, a, "");
    CountAll(EVERY, b, "");
  }

  lemma {:induction false} UntouchedDistinct(pods: seq<Pod>, names: set<string>)
    requires DistinctNames(pods)
    ensures DistinctNames(Untouched(pods, names))
  {
    if pods != [] {
      var front, last := pods[..|pods| - 1], pods[|pods| - 1];
      var left := Untouched(front, names);
      UntouchedDistinct(front, names);
      forall k | 0 <= k < |left| ensures left[k].name != last.name {
        UntouchedMembers(front, names, left[k]);
        NameNotLast(pods, left[k]);
      }
      DistinctExtend(left, last);
    }
  }

  /** At least as many pods are left as were running and left alone. */
  lemma SparedStay(pods: seq<Pod>, writes: seq<Write>, revision: string)
    requires DistinctNames(pods) && Lawful(pods, writes)
    ensures |Apply(pods, writes)| >= Spared(pods, writes, revision)
  {
    var left := Untouched(pods, Touched(writes));
    LawfulKeepsNames(pods, writes);
    UntouchedDistinct(pods, Touched(writes));
    forall p | p in left ensures p in Apply(pods, writes) {
      UntouchedMembers(pods, Touched(writes), p);
      UntouchedStays(pods, writes, p);
    }
    SubListSize(left, Apply(pods, writes));
    CountBound(RUNNING, left, revision);
  }

  lemma AttemptKeepsFloor(g: Goal, before: seq<Pod>, next: seq<Pod>)
    requires Settled(before) && Attempt(g, before, next)
    ensures Settled(next)
    ensures |next| >= Min(|before|, g.iu.spec.replicas - MaxUnavailable(g.iu.spec))
  {
    var after: seq<Pod>, r: PassRecord :| Tried(g, before, after, r) && Settles(after, next);
    var writes := TraceWrites(ApplyRevision(g.iu, g.update), g.update, r.t);
    SettledPassFloor(g, before, after, r);
    SparedStay(before, writes, g.update.name);
    LawfulKeepsNames(before, writes);
  }

  lemma {:induction false} AttemptsKeepFloor(g: Goal, run: nat -> seq<Pod>, i: nat)
    requires Attempts(g, run)
    ensures Settled(run(i))
    ensures |run(i)| >= Min(|run(0)|, g.iu.spec.replicas - MaxUnavailable(g.iu.spec))
  {
    if i > 0 {
      AttemptsKeepFloor(g, run, i - 1);
      assert AttemptAt(g, run, i - 1);
      AttemptKeepsFloor(g, run(i - 1), run(i));
    }
  }

  /**
   * Over a whole run of settled passes, whatever they decide and wherever their calls fail, every pass leaves at
   * least replicas - maxUnavailable running pods alone, or as many as the run began with.
   */
  lemma RolloutFloor(g: Goal, run: nat -> seq<Pod>, i: nat, after: seq<Pod>, r: PassRecord)
    requires Attempts(g, run) && Tried(g, run(i), after, r)
    ensures SparedBy(g, run(i), r) >= Min(|run(0)|, g.iu.spec.replicas - MaxUnavailable(g.iu.spec))
  {
    AttemptsKeepFloor(g, run, i);
    SettledPassFloor(g, run(i), after, r);
  }

  /** The runs that convergence is about are among these. */
  lemma ConvergingRunsAreAttempts(g: Goal, run: nat -> seq<Pod>)
    requires Run(g, run)
    ensures Attempts(g, run)
  {
    forall i: nat ensures AttemptAt(g, run, i) {
      assert RoundAt(g, run, i);
      var after: seq<Pod>, r: PassRecord :| Passed(g, run(i), after, r) && Settles(after, run(i + 1));
      assert Tried(g, run(i), after, r);
    }
  }
}
