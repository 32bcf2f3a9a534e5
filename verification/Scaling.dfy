/** The scaling half of a pass: create, or delete the marked pods, or scale in, in that order. */
module Scaling {
  import opened Kube
  import opened Templates
  import opened Planner
  import opened Api
  import opened Batches
  import opened PodOrder
  import opened ScaleIn
  import E = Expectations
  import EventHandler

  datatype Inplaceu = Inplaceu(name: string, spec: Spec, template: Template, deleting: bool)

  // ---------- New pods ----------

  function NewPod(iu: Inplaceu, revision: string, id: string): Pod {
    Pod(iu.name + "-" + id, "", "",
        WriteRevisionHash(iu.template.labels, revision)[InstanceIDKey := id],
        iu.template.annotations,
        Some(OwnerRef(Some(EventHandler.GROUP), EventHandler.KIND, iu.name)),
        0, false, "", iu.template.containers, Pending, [], [], false)
  }

  function NewPods(iu: Inplaceu, revision: string, ids: seq<string>): (pods: seq<Pod>)
    ensures |pods| == |ids|
    ensures forall i | 0 <= i < |ids| :: pods[i] == NewPod(iu, revision, ids[i])
  {
    seq(|ids|, i requires 0 <= i < |ids| => NewPod(iu, revision, ids[i]))
  }

  predicate UsesId(p: Pod, id: string) {
    InstanceIDKey in p.labels && p.labels[InstanceIDKey] == id
  }

  /** Ids for a creation: distinct, on no listed pod, and at most as many as asked for. */
  ghost predicate AvailableIds(ids: seq<string>, num: nat, pods: seq<Pod>) {
    && Distinct(ids)
    && |ids| <= num && (num > 0 ==> |ids| > 0)
    && forall id | id in ids :: id != "" && forall p | p in pods :: !UsesId(p, id)
  }

  lemma NewPodNames(iu: Inplaceu, a: string, b: string)
    ensures iu.name + "-" + a == iu.name + "-" + b ==> a == b
  {
    assert (iu.name + "-" + a)[|iu.name| + 1..] == a;
    assert (iu.name + "-" + b)[|iu.name| + 1..] == b;
  }

  /** New pods have distinct names, carry the revision and their own id, and no listed pod has that id. */
  lemma NewPodsAreFresh(iu: Inplaceu, revision: string, ids: seq<string>, num: nat, pods: seq<Pod>)
    requires AvailableIds(ids, num, pods)
    ensures
      && var created := NewPods(iu, revision, ids);
      && |created| <= num && DistinctNames(created)
      && forall i | 0 <= i < |created| ::
           && EqualToRevisionHash(created[i], revision) && UsesId(created[i], ids[i])
           && forall p | p in pods :: !UsesId(p, ids[i])
  {
    var created := NewPods(iu, revision, ids);
    forall i, j | 0 <= i < j < |created| ensures created[i].name != created[j].name {
      NewPodNames(iu, ids[i], ids[j]);
    }
    forall i | 0 <= i < |created| ensures EqualToRevisionHash(created[i], revision) && UsesId(created[i], ids[i]) {
      assert created[i] == NewPod(iu, revision, ids[i]);
      assert RevisionLabel(created[i]) == revision;
    }
    assert forall i | 0 <= i < |ids| :: ids[i] in ids;
  }

  /**
   * A new pod is what the template says: its containers, annotations and labels, beside the labels the controller
   * sets itself. It is named after the workload and its id, and the workload owns it.
   */
  lemma NewPodsFollowTemplate(iu: Inplaceu, revision: string, ids: seq<string>, i: nat)
    requires i < |ids|
    ensures
      && var p := NewPods(iu, revision, ids)[i];
      && p.name == iu.name + "-" + ids[i] && EventHandler.OwnerKey(p) == Some(iu.name)
      && p.containers == iu.template.containers && p.annotations == iu.template.annotations
      && (forall k | k !in {RevisionHashKey, PodTemplateHashKey, InstanceIDKey} ::
            Lookup(p.labels, k) == Lookup(iu.template.labels, k))
      && Lookup(p.labels, RevisionHashKey) == Some(revision) && Lookup(p.labels, InstanceIDKey) == Some(ids[i])
      && p.phase.Pending? && p.nodeName == "" && !p.deleting
  {
  }

  /** Under the name of a recorded revision a new pod carries the revision's hash as its short label. */
  lemma NewPodsCarryHash(iu: Inplaceu, parent: string, hash: string, ids: seq<string>, i: nat)
    requires i < |ids| && '-' !in hash
    ensures Lookup(NewPods(iu, ControllerRevisionName(parent, hash), ids)[i].labels, PodTemplateHashKey) == Some(hash)
  {
    ShortHashOfName(parent, hash);
  }

  /** Consumes ids until the wanted pods are made or the ids run out. */
  method NewVersionedPods(iu: Inplaceu, revision: string, replicas: int, ids: seq<string>) returns (pods: seq<Pod>)
    ensures pods == NewPods(iu, revision, ids[..Min(Max(replicas, 0), |ids|)])
  {
    pods := [];
    var available := ids;
    var i := 0;
    while i < replicas
      invariant 0 <= i <= Max(replicas, 0) && i <= |ids|
      invariant available == ids[i..]
      invariant pods == NewPods(iu, revision, ids[..i])
    {
      if |available| == 0 {
        return;
      }
      var id := available[0];
      available := available[1..];
      pods := pods + [NewPod(iu, revision, id)];
      i := i + 1;
    }
  }

  lemma {:induction false} LongerThanAll(ids: set<string>) returns (n: nat)
    ensures forall id | id in ids :: |id| < n
    decreases ids
  {
    if ids == {} {
      n := 0;
    } else {
      var id :| id in ids;
      var m := LongerThanAll(ids - {id});
      n := if |id| < m then m else |id| + 1;
      forall x | x in ids ensures |x| < n {
        if x != id {
          assert x in ids - {id};
        }
      }
    }
  }

  lemma FreshIdExists(ids: set<string>)
    ensures exists id :: id !in ids && id != ""
  {
    var n := LongerThanAll(ids);
    var id := seq(n + 1, _ => 'x');
    assert id !in ids;
  }

  method ExistingIds(pods: seq<Pod>) returns (ids: set<string>)
    ensures forall id :: id in ids <==> id != "" && exists p | p in pods :: UsesId(p, id)
  {
    ids := {};
    for i := 0 to |pods|
      invariant forall id :: id in ids <==> id != "" && exists j | 0 <= j < i :: UsesId(pods[j], id)
    {
      if InstanceIDKey in pods[i].labels && pods[i].labels[InstanceIDKey] != "" {
        ids := ids + {pods[i].labels[InstanceIDKey]};
      }
    }
    forall id ensures id in ids <==> id != "" && exists p | p in pods :: UsesId(p, id) {
      if p :| p in pods && UsesId(p, id) {
        var j :| 0 <= j < |pods| && pods[j] == p;
      }
    }
  }

  /** Each draw avoids the ids in use, but not the other draws: a repeated draw yields fewer ids than asked for. */
  method GetOrGenAvailableIDs(num: nat, pods: seq<Pod>) returns (ids: seq<string>)
    ensures AvailableIds(ids, num, pods)
  {
    var existing := ExistingIds(pods);
    ids := [];
    for i := 0 to num
      invariant Distinct(ids) && |ids| <= i && (i > 0 ==> |ids| > 0)
      invariant forall id | id in ids :: id !in existing && id != ""
    {
      FreshIdExists(existing);
      var id: string :| id !in existing && id != "";
      if id !in ids {
        ids := ids + [id];
      }
    }
  }

  // ---------- Creating ----------

  ghost function PodNames(pods: seq<Pod>): set<string> {
    set p | p in pods :: p.name
  }

  lemma PodNamesStep(pods: seq<Pod>, i: nat)
    requires i < |pods|
    ensures PodNames(pods[..i + 1]) == PodNames(pods[..i]) + {pods[i].name}
  {
  }

  lemma {:induction false} CreatedNamesAreNames(queue: seq<Pod>, results: seq<bool>)
    requires |results| <= |queue|
    ensures CreatedNames(queue, results) <= PodNames(queue)
  {
    if results != [] {
      CreatedNamesAreNames(queue, results[..|results| - 1]);
    }
  }

  method ExpectAll(key: string, pods: seq<Pod>, exp: E.ScaleExpectations)
    requires exp.Valid()
    modifies exp
    ensures exp.Valid()
    ensures exp.Names(key, E.Create) == old(exp.Names(key, E.Create)) + PodNames(pods)
    ensures forall k, a | (k, a) != (key, E.Create) :: exp.Names(k, a) == old(exp.Names(k, a))
  {
    for i := 0 to |pods|
      invariant exp.Valid()
      invariant exp.Names(key, E.Create) == old(exp.Names(key, E.Create)) + PodNames(pods[..i])
      invariant forall k, a | (k, a) != (key, E.Create) :: exp.Names(k, a) == old(exp.Names(k, a))
    {
      exp.ExpectScale(key, E.Create, pods[i].name);
      PodNamesStep(pods, i);
    }
    assert pods[..|pods|] == pods;
  }

  /** Withdraws the expectations of the pods that were not created: no event will come for them. */
  method RollBack(key: string, pods: seq<Pod>, succeeded: set<string>, exp: E.ScaleExpectations)
    requires exp.Valid()
    modifies exp
    ensures exp.Valid()
    ensures exp.Names(key, E.Create) == old(exp.Names(key, E.Create)) - (PodNames(pods) - succeeded)
    ensures forall k, a | (k, a) != (key, E.Create) :: exp.Names(k, a) == old(exp.Names(k, a))
  {
    for i := 0 to |pods|
      invariant exp.Valid()
      invariant exp.Names(key, E.Create) == old(exp.Names(key, E.Create)) - (PodNames(pods[..i]) - succeeded)
      invariant forall k, a | (k, a) != (key, E.Create) :: exp.Names(k, a) == old(exp.Names(k, a))
    {
      if pods[i].name !in succeeded {
        exp.ObserveScale(key, E.Create, pods[i].name);
      }
      PodNamesStep(pods, i);
    }
    assert pods[..|pods|] == pods;
  }

  /**
   * Whatever calls fail, the creations still awaited are those from before and the ones that succeeded, except
   * that a failed name is withdrawn even if it was awaited before.
   */
  method CreatePods(iu: Inplaceu, revision: string, expectedCreations: int, ids: seq<string>,
                    client: ApiServer, exp: E.ScaleExpectations)
    returns (modified: bool, err: bool, ghost outcomes: seq<bool>, ghost batches: nat)
    requires client.Valid() && exp.Valid()
    modifies client, exp
    ensures client.Valid() && exp.Valid()
    ensures
      && var pods := NewPods(iu, revision, ids[..Min(Max(expectedCreations, 0), |ids|)]);
      && SlowStart(|pods|, 1, outcomes, batches, err) && |outcomes| <= |pods|
      && client.writes == old(client.writes) + Creations(pods, outcomes)
      && modified == (Successes(outcomes) > 0)
      && exp.Names(iu.name, E.Create)
         == (old(exp.Names(iu.name, E.Create)) - (PodNames(pods) - CreatedNames(pods, outcomes)))
            + CreatedNames(pods, outcomes)
    ensures forall k, a | (k, a) != (iu.name, E.Create) :: exp.Names(k, a) == old(exp.Names(k, a))
  {
    var newPods := NewVersionedPods(iu, revision, expectedCreations, ids);
    ExpectAll(iu.name, newPods, exp);
    var fn := new CreateFn(client, exp, iu.name, newPods);
    var _, failed, b := DoItSlowly(|newPods|, 1, fn);
    outcomes, batches := fn.outcomes, b;
    CreatedNamesAreNames(newPods, outcomes);
    RollBack(iu.name, newPods, fn.successNames, exp);
    modified := fn.created > 0;
    err := failed;
  }

  // ---------- Deleting ----------

  function Deletions(pods: seq<Pod>): (writes: seq<Write>)
    ensures |writes| == |pods| && forall i | 0 <= i < |pods| :: writes[i] == Deleted(pods[i].name)
  {
    seq(|pods|, i requires 0 <= i < |pods| => Deleted(pods[i].name))
  }

  lemma DeletionsStep(before: seq<Write>, pods: seq<Pod>, i: nat)
    requires i < |pods|
    ensures before + Deletions(pods[..i + 1]) == before + Deletions(pods[..i]) + [Deleted(pods[i].name)]
  {
  }

  lemma DeletedNamesStep(before: set<string>, pods: seq<Pod>, i: nat)
    requires i < |pods|
    ensures before + PodNames(pods[..i + 1]) == before + PodNames(pods[..i]) + {pods[i].name}
  {
  }

  /** Announces one deletion, calls the server, and withdraws the announcement if the call failed. */
  method DeleteOne(key: string, name: string, client: ApiServer, exp: E.ScaleExpectations) returns (ok: bool)
    requires client.Valid() && exp.Valid()
    modifies client, exp
    ensures client.Valid() && exp.Valid()
    ensures client.writes == old(client.writes) + if ok then [Deleted(name)] else []
    ensures exp.Names(key, E.Delete)
         == if ok then old(exp.Names(key, E.Delete)) + {name} else old(exp.Names(key, E.Delete)) - {name}
    ensures forall k, a | (k, a) != (key, E.Delete) :: exp.Names(k, a) == old(exp.Names(k, a))
  {
    exp.ExpectScale(key, E.Delete, name);
    ok := client.Delete(name, exp.Names(key, E.Delete));
    if !ok {
      exp.ObserveScale(key, E.Delete, name);
    }
  }

  /** Deletes in order and stops at the first failure, whose expectation alone is withdrawn. */
  method DeletePods(iu: Inplaceu, podsToDelete: seq<Pod>, client: ApiServer, exp: E.ScaleExpectations)
    returns (modified: bool, err: bool, ghost k: nat)
    requires client.Valid() && exp.Valid()
    modifies client, exp
    ensures client.Valid() && exp.Valid()
    ensures k <= |podsToDelete| && (err <==> k < |podsToDelete|) && modified == (k > 0)
    ensures client.writes == old(client.writes) + Deletions(podsToDelete[..k])
    ensures exp.Names(iu.name, E.Delete)
         == old(exp.Names(iu.name, E.Delete)) + PodNames(podsToDelete[..k])
            - if err then {podsToDelete[k].name} else {}
    ensures forall key, a | (key, a) != (iu.name, E.Delete) :: exp.Names(key, a) == old(exp.Names(key, a))
  {
    modified, err, k := false, false, 0;
    ghost var names0, writes0 := exp.Names(iu.name, E.Delete), client.writes;
    for i := 0 to |podsToDelete|
      invariant client.Valid() && exp.Valid()
      invariant k == i && !err && modified == (k > 0)
      invariant client.writes == writes0 + Deletions(podsToDelete[..k])
      invariant exp.Names(iu.name, E.Delete) == names0 + PodNames(podsToDelete[..k])
      invariant forall key, a | (key, a) != (iu.name, E.Delete) :: exp.Names(key, a) == old(exp.Names(key, a))
    {
      DeletionsStep(writes0, podsToDelete, k);
      DeletedNamesStep(names0, podsToDelete, k);
      var ok := DeleteOne(iu.name, podsToDelete[i].name, client, exp);
      if !ok {
        err := true;
        assert client.writes == writes0 + Deletions(podsToDelete[..k]);
        return;
      }
      modified := true;
      k := k + 1;
    }
    assert podsToDelete[..|podsToDelete|] == podsToDelete;
  }

  // ---------- Scale ----------

  method GetPlannedDeletedPods(pods: seq<Pod>, ghost revision: string) returns (marked: seq<Pod>)
    ensures marked == Select(MARKED, pods, revision)
    ensures forall p :: p in marked <==> p in pods && SpecifiedDeleteKey in p.labels
  {
    marked := [];
    for i := 0 to |pods|
      invariant marked == Select(MARKED, pods[..i], revision)
    {
      assert pods[..i + 1][..i] == pods[..i];
      if IsSpecifiedDelete(pods[i]) {
        marked := marked + [pods[i]];
      }
    }
    assert pods[..|pods|] == pods;
    SelectMeaning(MARKED, pods, revision);
  }

  method GroupUpdateAndNotUpdatePods(pods: seq<Pod>, revision: string) returns (update: seq<Pod>, notUpdate: seq<Pod>)
    ensures update == Select(UPDATED, pods, revision) && notUpdate == Select(OUTDATED, pods, revision)
    ensures forall p :: p in update <==> p in pods && EqualToRevisionHash(p, revision)
    ensures forall p :: p in notUpdate <==> p in pods && !EqualToRevisionHash(p, revision)
  {
    update, notUpdate := [], [];
    for i := 0 to |pods|
      invariant update == Select(UPDATED, pods[..i], revision) && notUpdate == Select(OUTDATED, pods[..i], revision)
    {
      assert pods[..i + 1][..i] == pods[..i];
      if EqualToRevisionHash(pods[i], revision) {
        update := update + [pods[i]];
      } else {
        notUpdate := notUpdate + [pods[i]];
      }
    }
    assert pods[..|pods|] == pods;
    SelectMeaning(UPDATED, pods, revision);
    SelectMeaning(OUTDATED, pods, revision);
  }

  lemma {:induction false} SelectDistinctUids(c: Class, pods: seq<Pod>, revision: string)
    requires DistinctUids(pods)
    ensures DistinctUids(Select(c, pods, revision))
  {
    if pods != [] {
      var front, last := pods[..|pods| - 1], pods[|pods| - 1];
      var chosen := Select(c, front, revision);
      SelectDistinctUids(c, front, revision);
      forall k | 0 <= k < |chosen| ensures chosen[k].uid != last.uid {
        SelectSound(c, front, k, revision);
        var i :| 0 <= i < |front| && front[i] == chosen[k];
        assert pods[i] == front[i];
      }
    }
  }

  /** What one scaling step did: created pods, deleted from a list, or nothing. */
  datatype Step =
    | Creating(ids: seq<string>, outcomes: seq<bool>, batches: nat)
    | Deleting(list: seq<Pod>, k: nat)
    | Idle

  /** The list a scale-in deletes from: a choice among all pods at the update revision, cut by the ready limit. */
  ghost predicate ScaleInList(plan: Diffs, updated: seq<Pod>, list: seq<Pod>)
    requires plan.scaleDownNum > 0
  {
    exists chosen ::
      Chosen(updated, plan.scaleDownNum, chosen) && list == Affordable(chosen, plan.deleteReadyLimit, false)
  }

  /** Delete marked pods if any may go, else scale in, else nothing. */
  ghost predicate DeletionDecided(plan: Diffs, marked: seq<Pod>, updated: seq<Pod>, step: Step) {
    var deletable := Affordable(marked, plan.deleteReadyLimit, true);
    if deletable != [] then step.Deleting? && step.list == deletable
    else if plan.scaleDownNum > 0 then step.Deleting? && ScaleInList(plan, updated, step.list)
    else step.Idle?
  }

  /** The decisions of Scale: create if the plan says so, else see about deletions. */
  ghost predicate Decided(spec: Spec, pods: seq<Pod>, revision: string, step: Step) {
    var plan := PlanOf(spec, pods, revision);
    if plan.scaleUpNum > 0 then
      step.Creating? && AvailableIds(step.ids, plan.scaleUpNum, pods)
    else
      DeletionDecided(plan, Select(MARKED, pods, revision), Select(UPDATED, pods, revision), step)
  }

  /** A scale-in chooses among the updated pods, each at most once. */
  lemma ChosenMembers(updated: seq<Pod>, diff: nat, chosen: seq<Pod>)
    requires Chosen(updated, diff, chosen) && DistinctNames(updated)
    ensures DistinctNames(chosen) && forall p | p in chosen :: p in updated
    ensures |chosen| == Min(diff, |updated|)
  {
    if diff < |updated| {
      var ranks: map<string, int>, sorted: seq<Pod> :|
        RanksNodes(updated, ranks) && IsSortOf(Ranked(ranks), sorted, updated) && |sorted| >= diff
        && chosen == sorted[..diff];
      NamesPermuted(sorted, updated);
      forall p | p in chosen ensures p in updated {
        assert p in sorted && p in multiset(sorted);
      }
    }
  }

  /** The pods a step means to delete: listed pods, each once, all marked or all at the update revision. */
  lemma DeletionList(spec: Spec, pods: seq<Pod>, revision: string, step: Step)
    requires DistinctNames(pods) && Decided(spec, pods, revision, step) && step.Deleting?
    ensures DistinctNames(step.list) && forall p | p in step.list :: p in pods
    ensures || (forall p | p in step.list :: IsSpecifiedDelete(p))
            || (forall p | p in step.list :: EqualToRevisionHash(p, revision))
  {
    var plan := PlanOf(spec, pods, revision);
    var marked, updated := Select(MARKED, pods, revision), Select(UPDATED, pods, revision);
    SelectMeaning(MARKED, pods, revision);
    SelectMeaning(UPDATED, pods, revision);
    AffordableMembers(marked, plan.deleteReadyLimit, true);
    if Affordable(marked, plan.deleteReadyLimit, true) == [] {
      var chosen: seq<Pod> :|
        Chosen(updated, plan.scaleDownNum, chosen) && step.list == Affordable(chosen, plan.deleteReadyLimit, false);
      ChosenMembers(updated, plan.scaleDownNum, chosen);
      AffordableMembers(chosen, plan.deleteReadyLimit, false);
    }
  }

  /** How far the calls of a step got. */
  ghost predicate Ran(step: Step, modified: bool, err: bool) {
    match step
    case Creating(ids, outcomes, batches) =>
      SlowStart(|ids|, 1, outcomes, batches, err) && |outcomes| <= |ids| && modified == (Successes(outcomes) > 0)
    case Deleting(list, k) => k <= |list| && (err <==> k < |list|) && modified == (k > 0)
    case Idle => !modified && !err
  }

  function StepWrites(iu: Inplaceu, revision: string, step: Step): seq<Write>
    requires step.Creating? ==> |step.outcomes| <= |step.ids|
    requires step.Deleting? ==> step.k <= |step.list|
  {
    match step
    case Creating(ids, outcomes, _) => Creations(NewPods(iu, revision, ids), outcomes)
    case Deleting(list, k) => Deletions(list[..k])
    case Idle => []
  }

  /** The names a step leaves awaited for one action, given those awaited before. */
  ghost function StepAwaited(iu: Inplaceu, revision: string, step: Step, action: E.Action, before: set<string>)
    : set<string>
    requires step.Creating? ==> |step.outcomes| <= |step.ids|
    requires step.Deleting? ==> step.k <= |step.list|
  {
    match step
    case Creating(ids, outcomes, _) =>
      var pods := NewPods(iu, revision, ids);
      if action == E.Create then
        (before - (PodNames(pods) - CreatedNames(pods, outcomes))) + CreatedNames(pods, outcomes)
      else before
    case Deleting(list, k) =>
      if action == E.Delete then
        before + PodNames(list[..k]) - if k < |list| then {list[k].name} else {}
      else before
    case Idle => before
  }

  /** The names whose call succeeded, and those that were announced and failed. */
  ghost function SucceededNames(iu: Inplaceu, revision: string, step: Step, action: E.Action): set<string>
    requires step.Creating? ==> |step.outcomes| <= |step.ids|
    requires step.Deleting? ==> step.k <= |step.list|
  {
    match step
    case Creating(ids, outcomes, _) =>
      if action == E.Create then CreatedNames(NewPods(iu, revision, ids), outcomes) else {}
    case Deleting(list, k) => if action == E.Delete then PodNames(list[..k]) else {}
    case Idle => {}
  }

  ghost function FailedNames(iu: Inplaceu, revision: string, step: Step, action: E.Action): set<string>
    requires step.Creating? ==> |step.outcomes| <= |step.ids|
    requires step.Deleting? ==> step.k <= |step.list|
  {
    match step
    case Creating(ids, outcomes, _) =>
      var pods := NewPods(iu, revision, ids);
      if action == E.Create then PodNames(pods) - CreatedNames(pods, outcomes) else {}
    case Deleting(list, k) => if action == E.Delete && k < |list| then {list[k].name} else {}
    case Idle => {}
  }

  /**
   * A step leaves awaited what was awaited before and exactly the names whose call succeeded, if and only if no
   * name that failed was awaited already; before a pass nothing is, so it always does.
   */
  lemma StepConservesExpectations(iu: Inplaceu, revision: string, step: Step, action: E.Action, before: set<string>)
    requires step.Creating? ==> |step.outcomes| <= |step.ids|
    requires step.Deleting? ==> step.k <= |step.list| && DistinctNames(step.list)
    ensures StepAwaited(iu, revision, step, action, before) == before + SucceededNames(iu, revision, step, action)
       <==> before !! FailedNames(iu, revision, step, action)
    ensures SucceededNames(iu, revision, step, action) !! FailedNames(iu, revision, step, action)
  {
  }

  lemma {:induction false} CreatedNamesMeaning(queue: seq<Pod>, results: seq<bool>, n: string)
    requires |results| <= |queue|
    ensures n in CreatedNames(queue, results) <==> exists i | 0 <= i < |results| :: results[i] && queue[i].name == n
    ensures n in CreatedNames(queue, results)
       <==> exists w | w in Creations(queue, results) :: w.Created? && w.pod.name == n
  {
    if results != [] {
      var last := |results| - 1;
      CreatedNamesMeaning(queue, results[..last], n);
      var front := Creations(queue, results[..last]);
      assert forall w | w in front :: w in Creations(queue, results);
      assert results[last] ==> Created(queue[last]) in Creations(queue, results);
      assert forall i | 0 <= i < last :: results[..last][i] == results[i];
    }
  }

  /** The names whose call succeeded are those of the pods the step created, and of those it deleted. */
  lemma SucceededAreWritten(iu: Inplaceu, revision: string, step: Step, n: string)
    requires step.Creating? ==> |step.outcomes| <= |step.ids|
    requires step.Deleting? ==> step.k <= |step.list|
    ensures n in SucceededNames(iu, revision, step, E.Create)
       <==> exists w | w in StepWrites(iu, revision, step) :: w.Created? && w.pod.name == n
    ensures n in SucceededNames(iu, revision, step, E.Delete) <==> Deleted(n) in StepWrites(iu, revision, step)
  {
    match step
    case Creating(ids, outcomes, _) =>
      CreatedNamesMeaning(NewPods(iu, revision, ids), outcomes, n);
      OnlyCreations(NewPods(iu, revision, ids), outcomes);
    case Deleting(list, k) => DeletedNames(list[..k], n);
    case Idle =>
  }

  lemma {:induction false} OnlyCreations(queue: seq<Pod>, results: seq<bool>)
    requires |results| <= |queue|
    ensures forall w | w in Creations(queue, results) :: w.Created?
  {
    if results != [] {
      OnlyCreations(queue, results[..|results| - 1]);
    }
  }

  lemma DeletedNames(list: seq<Pod>, n: string)
    ensures n in PodNames(list) <==> Deleted(n) in Deletions(list)
  {
    if n in PodNames(list) {
      var i :| 0 <= i < |list| && list[i].name == n;
      assert Deletions(list)[i] == Deleted(n);
    }
  }

  /** Unless pods are created, every marked pod that is not available is in the list of the step's deletions. */
  lemma BrokenMarkedGo(spec: Spec, pods: seq<Pod>, revision: string, step: Step, p: Pod)
    requires Decided(spec, pods, revision, step) && !step.Creating?
    requires p in pods && SpecifiedDeleteKey in p.labels && !(p.phase.Running? && p.availableSince)
    ensures step.Deleting? && p in step.list
  {
    SelectMeaning(MARKED, pods, revision);
    assert p in Select(MARKED, pods, revision);
    AffordableMembers(Select(MARKED, pods, revision), PlanOf(spec, pods, revision).deleteReadyLimit, true);
  }

  /** The writes a step made and the names it leaves awaited are those of its record. */
  twostate predicate Recorded(iu: Inplaceu, revision: string, step: Step, client: ApiServer, exp: E.ScaleExpectations)
    requires step.Creating? ==> |step.outcomes| <= |step.ids|
    requires step.Deleting? ==> step.k <= |step.list|
    reads client, exp
  {
    && client.Valid() && exp.Valid()
    && client.writes == old(client.writes) + StepWrites(iu, revision, step)
    && (forall a :: exp.Names(iu.name, a) == StepAwaited(iu, revision, step, a, old(exp.Names(iu.name, a))))
    && (forall key, a | key != iu.name :: exp.Names(key, a) == old(exp.Names(key, a)))
  }

  method CreateStep(iu: Inplaceu, revision: string, num: nat, ids: seq<string>,
                    client: ApiServer, exp: E.ScaleExpectations)
    returns (modified: bool, err: bool, ghost step: Step)
    requires client.Valid() && exp.Valid() && |ids| <= num
    modifies client, exp
    ensures step.Creating? && step.ids == ids && Ran(step, modified, err)
    ensures Recorded(iu, revision, step, client, exp)
  {
    ghost var outcomes, batches;
    modified, err, outcomes, batches := CreatePods(iu, revision, num, ids, client, exp);
    assert ids[..Min(Max(num, 0), |ids|)] == ids;
    step := Creating(ids, outcomes, batches);
  }

  method DeleteStep(iu: Inplaceu, ghost revision: string, list: seq<Pod>, client: ApiServer, exp: E.ScaleExpectations)
    returns (modified: bool, err: bool, ghost step: Step)
    requires client.Valid() && exp.Valid()
    modifies client, exp
    ensures step.Deleting? && step.list == list && Ran(step, modified, err)
    ensures Recorded(iu, revision, step, client, exp)
    ensures list == [] ==>
      client.writes == old(client.writes) && forall a :: exp.Names(iu.name, a) == old(exp.Names(iu.name, a))
  {
    ghost var k;
    modified, err, k := DeletePods(iu, list, client, exp);
    step := Deleting(list, k);
  }

  /** Steps 4 and 5 of Scale: the marked pods that may go, or else the scale-in. */
  method DeleteOrScaleIn(iu: Inplaceu, ghost updateRevision: string, diffRes: Diffs,
                         podsSpecifiedToDelete: seq<Pod>, updatedPods: seq<Pod>,
                         client: ApiServer, exp: E.ScaleExpectations)
    returns (modified: bool, err: bool, ghost step: Step)
    requires client.Valid() && exp.Valid() && DistinctUids(updatedPods)
    modifies client, exp
    ensures DeletionDecided(diffRes, podsSpecifiedToDelete, updatedPods, step)
    ensures Ran(step, modified, err) && !step.Creating?
    ensures Recorded(iu, updateRevision, step, client, exp)
  {
    var limit := diffRes.deleteReadyLimit;
    if |podsSpecifiedToDelete| > 0 {
      var podsCanDelete;
      podsCanDelete, limit := CutByReadyLimit(podsSpecifiedToDelete, limit, true);
      modified, err, step := DeleteStep(iu, updateRevision, podsCanDelete, client, exp);
      if err || modified {
        return;
      }
    }
    if diffRes.scaleDownNum > 0 {
      var chosen := ChoosePodsToDelete(diffRes.scaleDownNum, updatedPods);
      var podsToDelete, _ := CutByReadyLimit(chosen, limit, false);
      modified, err, step := DeleteStep(iu, updateRevision, podsToDelete, client, exp);
      return;
    }
    modified, err, step := false, false, Idle;
  }

  method Scale(iu: Inplaceu, updateRevision: string, pods: seq<Pod>, client: ApiServer, exp: E.ScaleExpectations)
    returns (modified: bool, err: bool, ghost step: Step)
    requires client.Valid() && exp.Valid() && DistinctUids(pods)
    modifies client, exp
    ensures Decided(iu.spec, pods, updateRevision, step) && Ran(step, modified, err)
    ensures Recorded(iu, updateRevision, step, client, exp)
  {
    var podsSpecifiedToDelete := GetPlannedDeletedPods(pods, updateRevision);
    var diffRes := CalculateDiffsWithExpectation(iu.spec, pods, updateRevision);
    var updatedPods, _ := GroupUpdateAndNotUpdatePods(pods, updateRevision);
    if diffRes.scaleUpNum > 0 {
      var ids := GetOrGenAvailableIDs(diffRes.scaleUpNum, pods);
      modified, err, step := CreateStep(iu, updateRevision, diffRes.scaleUpNum, ids, client, exp);
      return;
    }
    SelectDistinctUids(UPDATED, pods, updateRevision);
    modified, err, step := DeleteOrScaleIn(iu, updateRevision, diffRes,
                                           podsSpecifiedToDelete, updatedPods, client, exp);
  }
}
