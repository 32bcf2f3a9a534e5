/** The update half of a pass: which old pods to update, how many of them, and how each is updated. */
module Updating {
  import opened Kube
  import opened Templates
  import opened Planner
  import opened Api
  import opened InPlace
  import V = Versions

  // ---------- Candidates ----------

  predicate CanUpdate(p: Pod, revision: string) {
    !EqualToRevisionHash(p, revision) && !p.phase.Succeeded? && !p.phase.Failed? && !p.phase.Unknown?
  }

  ghost predicate Indexes(wait: seq<nat>, pods: seq<Pod>) {
    forall i | 0 <= i < |wait| :: wait[i] < |pods|
  }

  ghost predicate Increasing(wait: seq<nat>) {
    forall i, j | 0 <= i < j < |wait| :: wait[i] < wait[j]
  }

  method FindCandidates(pods: seq<Pod>, revision: string) returns (wait: seq<nat>)
    ensures Indexes(wait, pods) && Increasing(wait)
    ensures forall i :: i in wait <==> 0 <= i < |pods| && CanUpdate(pods[i], revision)
    ensures forall i :: i in wait <==>
      && 0 <= i < |pods| && !EqualToRevisionHash(pods[i], revision)
      && (pods[i].phase.Pending? || pods[i].phase.Running?)
  {
    wait := [];
    for i := 0 to |pods|
      invariant Indexes(wait, pods) && Increasing(wait) && forall k | 0 <= k < |wait| :: wait[k] < i
      invariant forall k :: k in wait <==> 0 <= k < i && CanUpdate(pods[k], revision)
    {
      if CanUpdate(pods[i], revision) {
        wait := wait + [i];
      }
    }
  }

  /** What the order of the candidates is relied on for: pods that are not running come first. */
  ghost predicate DownFirst(wait: seq<nat>, pods: seq<Pod>)
    requires Indexes(wait, pods)
  {
    forall i, j | 0 <= i < j < |wait| :: IsRunning(pods[wait[i]]) ==> IsRunning(pods[wait[j]])
  }

  /** Stands for the sort by the external pod order; callers learn only that it permutes and puts down pods first. */
  method SortCandidates(wait: seq<nat>, pods: seq<Pod>) returns (sorted: seq<nat>)
    requires Indexes(wait, pods) && Distinct(wait)
    ensures Indexes(sorted, pods) && DownFirst(sorted, pods) && Distinct(sorted)
    ensures |sorted| == |wait| && forall i :: i in sorted <==> i in wait
  {
    var down: seq<nat>, up: seq<nat> := [], [];
    for k := 0 to |wait|
      invariant |down| + |up| == k && Distinct(down + up)
      invariant forall j | 0 <= j < |down| :: down[j] in wait[..k] && down[j] < |pods| && !IsRunning(pods[down[j]])
      invariant forall j | 0 <= j < |up| :: up[j] in wait[..k] && up[j] < |pods| && IsRunning(pods[up[j]])
      invariant forall j | 0 <= j < k :: wait[j] in down || wait[j] in up
    {
      var x := wait[k];
      assert wait[..k + 1] == wait[..k] + [x];
      assert forall l | 0 <= l < k :: wait[..k][l] != x;
      if IsRunning(pods[x]) {
        InsertBetween(down + up, [], x);
        assert down + (up + [x]) == (down + up) + [x] + [];
        up := up + [x];
      } else {
        InsertBetween(down, up, x);
        down := down + [x];
      }
    }
    assert wait[..|wait|] == wait;
    sorted := down + up;
    forall i | i in sorted ensures i in wait {
      assert i in down || i in up;
    }
  }

  lemma InsertBetween(a: seq<nat>, b: seq<nat>, x: nat)
    requires Distinct(a + b) && x !in a && x !in b
    ensures Distinct(a + [x] + b)
  {
    var s, t := a + b, a + [x] + b;
    forall i, j | 0 <= i < j < |t| ensures t[i] != t[j] {
      assert t[i] == if i < |a| then s[i] else if i == |a| then x else s[i - 1];
      assert t[j] == if j < |a| then s[j] else if j == |a| then x else s[j - 1];
    }
  }

  // ---------- The limit ----------

  /** How many pods of a candidate list are running. */
  function RunningOf(wait: seq<nat>, pods: seq<Pod>): nat
    requires forall i | 0 <= i < |wait| :: wait[i] < |pods|
  {
    if wait == [] then 0
    else RunningOf(wait[..|wait| - 1], pods) + if IsRunning(pods[wait[|wait| - 1]]) then 1 else 0
  }

  const DOWN := Class(Any, Any, No, Any)
  const UPDATED_DOWN := Class(Yes, Any, No, Any)

  /**
   * The two caps on updating `size` candidates of which `running` run: down pods already at the target revision
   * plus the updated ones, and all down pods plus the running ones that go down, stay within the limit. Updating
   * nothing, or no running pod, is never held against a cap.
   */
  predicate WithinCaps(size: nat, running: nat, limit: int, pods: seq<Pod>, revision: string) {
    && (size == 0 || Count(UPDATED_DOWN, pods, revision) + size <= limit)
    && (running == 0 || Count(DOWN, pods, revision) + running <= limit)
  }

  method CountDown(pods: seq<Pod>, revision: string) returns (down: nat, updatedDown: nat)
    ensures down == Count(DOWN, pods, revision) && updatedDown == Count(UPDATED_DOWN, pods, revision)
  {
    down, updatedDown := 0, 0;
    for i := 0 to |pods|
      invariant down == Count(DOWN, pods[..i], revision) && updatedDown == Count(UPDATED_DOWN, pods[..i], revision)
    {
      CountStep(DOWN, pods, i, revision);
      CountStep(UPDATED_DOWN, pods, i, revision);
      if !IsRunning(pods[i]) {
        down := down + 1;
        if EqualToRevisionHash(pods[i], revision) {
          updatedDown := updatedDown + 1;
        }
      }
    }
    assert pods[..|pods|] == pods;
  }

  lemma RunningStep(wait: seq<nat>, pods: seq<Pod>, k: nat)
    requires Indexes(wait, pods) && k < |wait|
    ensures RunningOf(wait[..k + 1], pods) == RunningOf(wait[..k], pods) + if IsRunning(pods[wait[k]]) then 1 else 0
  {
    assert wait[..k + 1][..k] == wait[..k];
  }

  lemma {:induction false} RunningMonotone(wait: seq<nat>, pods: seq<Pod>, k: nat, l: nat)
    requires Indexes(wait, pods) && k <= l <= |wait|
    ensures RunningOf(wait[..k], pods) <= RunningOf(wait[..l], pods) <= RunningOf(wait[..k], pods) + (l - k)
  {
    if k < l {
      RunningMonotone(wait, pods, k, l - 1);
      RunningStep(wait, pods, l - 1);
    }
  }

  /** The loop of the limit: how many of the candidates may be updated. */
  method CountUpdatable(wait: seq<nat>, limit: int, pods: seq<Pod>, revision: string) returns (canUpdate: nat)
    requires Indexes(wait, pods)
    ensures canUpdate <= |wait|
    ensures WithinCaps(canUpdate, RunningOf(wait[..canUpdate], pods), limit, pods, revision)
    ensures forall k | canUpdate < k <= |wait| :: !WithinCaps(k, RunningOf(wait[..k], pods), limit, pods, revision)
  {
    var unavailable, targetUnavailable := CountDown(pods, revision);
    ghost var down := unavailable;
    canUpdate := 0;
    while canUpdate < |wait|
      invariant canUpdate <= |wait|
      invariant unavailable == down + RunningOf(wait[..canUpdate], pods)
      invariant WithinCaps(canUpdate, RunningOf(wait[..canUpdate], pods), limit, pods, revision)
    {
      RunningStep(wait, pods, canUpdate);
      if targetUnavailable + canUpdate >= limit {
        break;
      }
      if IsRunning(pods[wait[canUpdate]]) {
        if unavailable >= limit {
          break;
        }
        unavailable := unavailable + 1;
      }
      canUpdate := canUpdate + 1;
    }
    forall k | canUpdate < k <= |wait|
      ensures !WithinCaps(k, RunningOf(wait[..k], pods), limit, pods, revision)
    {
      RunningStep(wait, pods, canUpdate);
      RunningMonotone(wait, pods, canUpdate + 1, k);
    }
  }

  /** The result is the longest prefix of at most updateNum candidates that stays within both caps. */
  ghost predicate LongestPrefix(wait: seq<nat>, wait0: seq<nat>, updateNum: nat, limit: int,
                                pods: seq<Pod>, revision: string)
    requires Indexes(wait0, pods)
  {
    && wait <= wait0 && |wait| <= updateNum
    && WithinCaps(|wait|, RunningOf(wait0[..|wait|], pods), limit, pods, revision)
    && forall k | |wait| < k <= |wait0| && k <= updateNum ::
         !WithinCaps(k, RunningOf(wait0[..k], pods), limit, pods, revision)
  }

  method LimitUpdateIndexes(updateNum: nat, limit: int, wait0: seq<nat>, pods: seq<Pod>, revision: string)
    returns (wait: seq<nat>)
    requires Indexes(wait0, pods)
    ensures LongestPrefix(wait, wait0, updateNum, limit, pods, revision)
  {
    wait := wait0;
    if updateNum < |wait| {
      wait := wait[..updateNum];
    }
    var canUpdate := CountUpdatable(wait, limit, pods, revision);
    forall k: nat | k <= |wait| ensures wait[..k] == wait0[..k] {
    }
    if canUpdate < |wait| {
      wait := wait[..canUpdate];
    }
  }

  // ---------- The greedy cut is optimal ----------

  ghost function RunningIn(chosen: set<nat>, pods: seq<Pod>): set<nat>
    requires forall i | i in chosen :: i < |pods|
  {
    set i | i in chosen && IsRunning(pods[i])
  }

  ghost function DownIn(chosen: set<nat>, pods: seq<Pod>): set<nat>
    requires forall i | i in chosen :: i < |pods|
  {
    set i | i in chosen && !IsRunning(pods[i])
  }

  lemma {:induction false} ElementsSize(wait: seq<nat>, pods: seq<Pod>)
    requires Indexes(wait, pods)
    ensures forall i | i in Elements(wait) :: i < |pods|
    ensures |Elements(wait)| <= |wait|
    ensures |DownIn(Elements(wait), pods)| <= |wait| - RunningOf(wait, pods)
  {
    if wait == [] {
      assert Elements(wait) == {};
    } else {
      var front, last := wait[..|wait| - 1], wait[|wait| - 1];
      ElementsSize(front, pods);
      assert wait == front + [last];
      assert Elements(wait) == Elements(front) + {last};
      if IsRunning(pods[last]) {
        assert DownIn(Elements(wait), pods) == DownIn(Elements(front), pods);
      } else {
        assert DownIn(Elements(wait), pods) == DownIn(Elements(front), pods) + {last};
      }
    }
  }

  /** Once a candidate runs, all later ones do. */
  lemma {:induction false} PrefixRunning(wait: seq<nat>, pods: seq<Pod>, k: nat, l: nat)
    requires Indexes(wait, pods) && DownFirst(wait, pods) && k <= l <= |wait|
    requires RunningOf(wait[..k], pods) > 0
    ensures RunningOf(wait[..l], pods) == RunningOf(wait[..k], pods) + (l - k)
  {
    if k < l {
      PrefixRunning(wait, pods, k, l - 1);
      RunningStep(wait, pods, l - 1);
      var i := SomeRunning(wait, pods, k);
    }
  }

  lemma {:induction false} SomeRunning(wait: seq<nat>, pods: seq<Pod>, k: nat) returns (i: nat)
    requires Indexes(wait, pods) && k <= |wait| && RunningOf(wait[..k], pods) > 0
    ensures i < k && IsRunning(pods[wait[i]])
  {
    RunningStep(wait, pods, k - 1);
    if IsRunning(pods[wait[k - 1]]) {
      i := k - 1;
    } else {
      i := SomeRunning(wait, pods, k - 1);
    }
  }

  /** With down pods first, no other choice of as many candidates updates fewer running pods. */
  lemma PrefixRunsFewest(wait: seq<nat>, pods: seq<Pod>, chosen: set<nat>)
    requires Indexes(wait, pods) && DownFirst(wait, pods) && chosen <= Elements(wait)
    ensures |chosen| <= |wait|
    ensures RunningOf(wait[..|chosen|], pods) <= |RunningIn(chosen, pods)|
  {
    ElementsSize(wait, pods);
    SubsetSize(chosen, Elements(wait));
    SubsetSize(DownIn(chosen, pods), DownIn(Elements(wait), pods));
    assert chosen == RunningIn(chosen, pods) + DownIn(chosen, pods);
    if RunningOf(wait[..|chosen|], pods) > 0 {
      PrefixRunning(wait, pods, |chosen|, |wait|);
      assert wait[..|wait|] == wait;
    }
  }

  /** Of all choices of candidates that stay within both caps, none is larger than the prefix the cut returns. */
  lemma GreedyCutIsOptimal(updateNum: nat, limit: int, wait0: seq<nat>, wait: seq<nat>, pods: seq<Pod>,
                           revision: string, chosen: set<nat>)
    requires Indexes(wait0, pods) && DownFirst(wait0, pods)
    requires LongestPrefix(wait, wait0, updateNum, limit, pods, revision)
    requires chosen <= Elements(wait0) && |chosen| <= updateNum
    requires WithinCaps(|chosen|, |RunningIn(chosen, pods)|, limit, pods, revision)
    ensures |chosen| <= |wait|
  {
    PrefixRunsFewest(wait0, pods, chosen);
  }

  // ---------- Updating one pod ----------

  /** The listed revision a pod belongs to: the first that its label matches. */
  function OldRevision(revisions: seq<Revision>, pod: Pod): Option<Revision> {
    if revisions == [] then None
    else if EqualToRevisionHash(pod, revisions[0].name) then Some(revisions[0])
    else OldRevision(revisions[1..], pod)
  }

  /** How a pod gets to a revision: in place from the revision it is at, or by being marked for re-creation. */
  datatype Way = InPlaceWay(from: Revision) | RecreateWay

  function WayOf(revisions: seq<Revision>, update: Revision, pod: Pod): Way {
    var from := OldRevision(revisions, pod);
    if from.Some? && Updatable(from.value.data, update.data) then InPlaceWay(from.value) else RecreateWay
  }

  /** What an update did on the server: nothing, or one pod replaced. */
  datatype Effect = Nothing | Stored(before: Pod, after: Pod)

  ghost predicate Effective(way: Way, update: Revision, pod: Pod, e: Effect, now: Time, marshal: State -> string) {
    && (e.Stored? ==> e.before.name == pod.name)
    && match way
       case InPlaceWay(from) =>
         && e.Stored? && |from.data.containers| == |update.data.containers|
         && e.after == InPlaceResult(e.before, SpecFor(from, update), now, marshal)
                         .(resourceVersion := e.after.resourceVersion)
       case RecreateWay =>
         if IsSpecifiedDelete(pod) then e.Nothing?
         else
           && e.Stored?
           && e.after == e.before.(labels := e.before.labels[SpecifiedDeleteKey := "true"],
                                   resourceVersion := e.after.resourceVersion)
  }

  function WritesOf(effects: seq<Effect>): seq<Write> {
    if effects == [] then []
    else
      var last := effects[|effects| - 1];
      WritesOf(effects[..|effects| - 1]) + if last.Stored? then [Replaced(last.after)] else []
  }

  /** Every stored pod becomes the least version a later pass may plan from. */
  function VersionsOf(effects: seq<Effect>, pods: seq<Pod>): seq<V.Event>
    requires |effects| <= |pods|
  {
    if effects == [] then []
    else
      var i := |effects| - 1;
      VersionsOf(effects[..i], pods)
      + if effects[i].Stored? then [V.Expected(pods[i].uid, effects[i].after.resourceVersion)] else []
  }

  /** The first listed revision the pod's label matches, or none when it matches none. */
  method FindOldRevision(revisions: seq<Revision>, pod: Pod) returns (r: Option<Revision>)
    ensures r == OldRevision(revisions, pod)
    ensures r.None? <==> forall i | 0 <= i < |revisions| :: !EqualToRevisionHash(pod, revisions[i].name)
    ensures r.Some? ==> exists i | 0 <= i < |revisions| ::
      r.value == revisions[i] && EqualToRevisionHash(pod, revisions[i].name)
      && forall j | 0 <= j < i :: !EqualToRevisionHash(pod, revisions[j].name)
  {
    for i := 0 to |revisions|
      invariant OldRevision(revisions[i..], pod) == OldRevision(revisions, pod)
      invariant forall j | 0 <= j < i :: !EqualToRevisionHash(pod, revisions[j].name)
    {
      assert revisions[i..][1..] == revisions[i + 1..];
      if EqualToRevisionHash(pod, revisions[i].name) {
        return Some(revisions[i]);
      }
    }
    return None;
  }

  method PatchPodSpecifiedDelete(client: ApiServer, pod: Pod, value: string)
    returns (patched: bool, stored: Option<Pod>, ghost e: Effect)
    requires client.Valid()
    modifies client
    ensures client.Valid()
    ensures stored.Some? <==> e.Stored?
    ensures e.Stored? ==> stored == Some(e.after)
    ensures client.writes == old(client.writes) + if e.Stored? then [Replaced(e.after)] else []
    ensures patched <==> !IsSpecifiedDelete(pod)
    ensures !patched ==> stored.None?
    ensures e.Stored? ==>
      && e.before in old(client.pods) && e.before.name == pod.name
      && e.after == e.before.(labels := e.before.labels[SpecifiedDeleteKey := value],
                              resourceVersion := e.after.resourceVersion)
  {
    e := Nothing;
    if SpecifiedDeleteKey in pod.labels {
      return false, None, e;
    }
    stored := client.PatchSpecifiedDelete(pod.name, value);
    if stored.Some? {
      ghost var p :| p in old(client.pods) && p.name == pod.name &&
        stored.value == p.(labels := p.labels[SpecifiedDeleteKey := value],
                           resourceVersion := stored.value.resourceVersion);
      e := Stored(p, stored.value);
    }
    return true, stored, e;
  }

  /** In place when the revisions allow it; otherwise the pod is marked, and the next pass deletes it. */
  method UpdatePod(update: Revision, revisions: seq<Revision>, pod: Pod, client: ApiServer,
                   versions: V.ResourceVersionExpectation, now: Time, marshal: State -> string,
                   jsonDiff: (Template, Template) -> seq<Operation>)
    returns (err: bool, ghost e: Effect, ghost version: seq<V.Event>)
    requires client.Valid() && versions.Valid()
    requires forall a, b :: IsDiff(jsonDiff(a, b), a, b)
    requires forall r | r in revisions :: UniqueNames(r.data.containers)
    modifies client, versions
    ensures client.Valid() && versions.Valid()
    ensures err ==> e.Nothing?
    ensures !err ==> Effective(WayOf(revisions, update, pod), update, pod, e, now, marshal)
    ensures e.Stored? ==> e.before in old(client.pods)
    ensures client.writes == old(client.writes) + if e.Stored? then [Replaced(e.after)] else []
    ensures version == if e.Stored? then [V.Expected(pod.uid, e.after.resourceVersion)] else []
    ensures versions.log == old(versions.log) + version
  {
    e, version := Nothing, [];
    var from := FindOldRevision(revisions, pod);
    OldRevisionMember(revisions, pod);
    var spec := CalculateSpec(from, Some(update),
                              if from.Some? then jsonDiff(from.value.data, update.data) else []);
    if spec.Some? {
      var stored := UpdatePodInPlace(client, pod.name, spec.value, now, marshal);
      if stored.None? {
        return true, e, version;
      }
      ghost var p :| p in old(client.pods) && p.name == pod.name &&
        stored.value == InPlaceResult(p, spec.value, now, marshal)
                          .(resourceVersion := stored.value.resourceVersion);
      e, version := Stored(p, stored.value), [V.Expected(pod.uid, stored.value.resourceVersion)];
      versions.Expect(pod.uid, stored.value.resourceVersion);
      return false, e, version;
    }
    var patched, stored;
    patched, stored, e := PatchPodSpecifiedDelete(client, pod, "true");
    if patched {
      if stored.None? {
        return true, e, version;
      }
      version := [V.Expected(pod.uid, stored.value.resourceVersion)];
      versions.Expect(pod.uid, stored.value.resourceVersion);
    }
    return false, e, version;
  }

  lemma {:induction false} OldRevisionMember(revisions: seq<Revision>, pod: Pod)
    ensures OldRevision(revisions, pod).Some? ==>
      OldRevision(revisions, pod).value in revisions && EqualToRevisionHash(pod, OldRevision(revisions, pod).value.name)
  {
    if revisions != [] {
      OldRevisionMember(revisions[1..], pod);
    }
  }

  /** The revision a pod is taken to be at is the first one listed that its label matches. */
  lemma {:induction false} OldRevisionIsFirst(revisions: seq<Revision>, pod: Pod, i: nat)
    requires i < |revisions| && EqualToRevisionHash(pod, revisions[i].name)
    requires forall j | 0 <= j < i :: !EqualToRevisionHash(pod, revisions[j].name)
    ensures OldRevision(revisions, pod) == Some(revisions[i])
  {
    if i > 0 {
      assert !EqualToRevisionHash(pod, revisions[0].name);
      forall j | 0 <= j < i - 1 ensures !EqualToRevisionHash(pod, revisions[1..][j].name) {
        assert revisions[1..][j] == revisions[j + 1];
      }
      OldRevisionIsFirst(revisions[1..], pod, i - 1);
    }
  }

  /** A pod whose revision is listed and updatable is updated in place, and any other is marked. */
  lemma InPlaceWhenPossible(revisions: seq<Revision>, update: Revision, pod: Pod, e: Effect, now: Time,
                            marshal: State -> string, i: nat)
    requires Effective(WayOf(revisions, update, pod), update, pod, e, now, marshal)
    requires i < |revisions| && EqualToRevisionHash(pod, revisions[i].name)
    requires forall j | 0 <= j < i :: !EqualToRevisionHash(pod, revisions[j].name)
    ensures Updatable(revisions[i].data, update.data) ==>
      && |revisions[i].data.containers| == |update.data.containers|
      && e.Stored? && e.before.name == pod.name
      && e.after == InPlaceResult(e.before, SpecFor(revisions[i], update), now, marshal)
                      .(resourceVersion := e.after.resourceVersion)
    ensures !Updatable(revisions[i].data, update.data) && SpecifiedDeleteKey !in pod.labels ==>
      && e.Stored? && e.before.name == pod.name
      && SpecifiedDeleteKey in e.after.labels && e.after.containers == e.before.containers
  {
    OldRevisionIsFirst(revisions, pod, i);
  }

  /** A stored update demands its version of every later list. */
  lemma {:induction false} StoredIsDemanded(log: seq<V.Event>, targets: seq<Pod>, effects: seq<Effect>, i: nat,
                                            version: string)
    requires i < |effects| <= |targets| && effects[i].Stored?
    requires V.ParseUint(effects[i].after.resourceVersion).Some?
    requires V.Reaches(version, V.Highest(log + VersionsOf(effects, targets), targets[i].uid))
    ensures V.Reaches(version, V.ParseUint(effects[i].after.resourceVersion))
  {
    var all := log + VersionsOf(effects, targets);
    var j := DemandedAt(targets, effects, i);
    assert all[|log| + j] == VersionsOf(effects, targets)[j];
    forall l | |log| + j < l < |all| ensures all[l] != V.Cleared(targets[i].uid) {
      assert all[l] == VersionsOf(effects, targets)[l - |log|];
    }
    V.HighestIsMaximum(all, targets[i].uid, |log| + j);
  }

  lemma {:induction false} DemandedAt(targets: seq<Pod>, effects: seq<Effect>, i: nat) returns (j: nat)
    requires i < |effects| <= |targets| && effects[i].Stored?
    ensures
      && var events := VersionsOf(effects, targets);
      && j < |events| && events[j] == V.Expected(targets[i].uid, effects[i].after.resourceVersion)
      && forall l | 0 <= l < |events| :: events[l].Expected?
  {
    var last := |effects| - 1;
    OnlyDemands(targets, effects);
    if i == last {
      j := |VersionsOf(effects[..last], targets)|;
    } else {
      j := DemandedAt(targets, effects[..last], i);
    }
  }

  lemma {:induction false} OnlyDemands(targets: seq<Pod>, effects: seq<Effect>)
    requires |effects| <= |targets|
    ensures forall l | 0 <= l < |VersionsOf(effects, targets)| :: VersionsOf(effects, targets)[l].Expected?
  {
    if effects != [] {
      OnlyDemands(targets, effects[..|effects| - 1]);
    }
  }

  // ---------- Update ----------

  /** The candidates, those that pass the limit, and what updating them did: one effect per finished candidate. */
  datatype UpdateRun = UpdateRun(candidates: seq<nat>, chosen: seq<nat>, effects: seq<Effect>)

  const NO_UPDATE := UpdateRun([], [], [])

  ghost predicate Candidates(wait: seq<nat>, pods: seq<Pod>, revision: string) {
    && Indexes(wait, pods) && Distinct(wait) && DownFirst(wait, pods)
    && forall i :: i in wait <==> 0 <= i < |pods| && CanUpdate(pods[i], revision)
  }

  /** The decisions of Update. Candidates may be marked for deletion; the number to update counts unmarked pods only. */
  ghost predicate UpdateDecided(spec: Spec, pods: seq<Pod>, revision: string, run: UpdateRun) {
    var plan := PlanOf(spec, pods, revision);
    if plan.updateNum == 0 then run.candidates == run.chosen == []
    else
      && Candidates(run.candidates, pods, revision)
      && LongestPrefix(run.chosen, run.candidates, plan.updateNum, plan.updateMaxUnavailable, pods, revision)
  }

  /**
   * Nothing but the number to update and the two caps holds back an old pod that is pending or running. As long as
   * a pending one is held back, no running pod is updated.
   */
  lemma OnlyCapsHoldBack(spec: Spec, pods: seq<Pod>, revision: string, run: UpdateRun, i: nat)
    requires UpdateDecided(spec, pods, revision, run) && Indexes(run.chosen, pods)
    requires i < |pods| && i !in run.chosen
    requires !EqualToRevisionHash(pods[i], revision) && (pods[i].phase.Pending? || pods[i].phase.Running?)
    ensures
      && var plan := PlanOf(spec, pods, revision);
      || |run.chosen| == plan.updateNum
      || Count(UPDATED_DOWN, pods, revision) + |run.chosen| + 1 > plan.updateMaxUnavailable
      || (pods[i].phase.Running?
          && Count(DOWN, pods, revision) + RunningOf(run.chosen, pods) + 1 > plan.updateMaxUnavailable)
    ensures pods[i].phase.Pending? ==> forall j | j in run.chosen :: !pods[j].phase.Running?
  {
    if PlanOf(spec, pods, revision).updateNum != 0 {
      assert CanUpdate(pods[i], revision);
      LeftOut(run.candidates, run.chosen, pods, i);
    }
  }

  /** A candidate that a prefix leaves out comes after it, and no pod before it is up unless it is. */
  lemma LeftOut(candidates: seq<nat>, chosen: seq<nat>, pods: seq<Pod>, i: nat)
    requires Indexes(candidates, pods) && DownFirst(candidates, pods) && chosen <= candidates
    requires i in candidates && i !in chosen
    ensures |chosen| < |candidates| && chosen == candidates[..|chosen|]
    ensures !IsRunning(pods[i]) ==> !IsRunning(pods[candidates[|chosen|]])
    ensures !IsRunning(pods[i]) ==> forall j | j in chosen :: j < |pods| && !IsRunning(pods[j])
    ensures RunningOf(candidates[..|chosen| + 1], pods)
         == RunningOf(candidates[..|chosen|], pods) + if IsRunning(pods[candidates[|chosen|]]) then 1 else 0
  {
    var n := |chosen|;
    var k :| 0 <= k < |candidates| && candidates[k] == i;
    assert k >= n by {
      assert forall l | 0 <= l < n :: candidates[l] == chosen[l] && chosen[l] in chosen;
    }
    assert chosen == candidates[..n];
    forall j | j in chosen ensures j < |pods| && (!IsRunning(pods[i]) ==> !IsRunning(pods[j])) {
      var l :| 0 <= l < n && chosen[l] == j;
      assert candidates[l] == j && l < k;
    }
    RunningStep(candidates, pods, |chosen|);
  }

  function At(pods: seq<Pod>, wait: seq<nat>): (r: seq<Pod>)
    requires forall i | 0 <= i < |wait| :: wait[i] < |pods|
    ensures |r| == |wait| && forall i | 0 <= i < |wait| :: r[i] == pods[wait[i]]
  {
    seq(|wait|, i requires 0 <= i < |wait| => pods[wait[i]])
  }

  lemma ChosenAreListed(pods: seq<Pod>, candidates: seq<nat>, chosen: seq<nat>)
    requires DistinctNames(pods) && Indexes(candidates, pods) && Distinct(candidates) && chosen <= candidates
    ensures Indexes(chosen, pods) && DistinctNames(At(pods, chosen)) && forall p | p in At(pods, chosen) :: p in pods
  {
    forall i, j | 0 <= i < j < |chosen| ensures pods[chosen[i]].name != pods[chosen[j]].name {
      assert candidates[i] != candidates[j];
    }
  }

  /** Each effect is the one its pod's way calls for, on the pod as the server held it at that moment. */
  ghost predicate Carried(targets: seq<Pod>, revisions: seq<Revision>, update: Revision, start: seq<Pod>,
                          effects: seq<Effect>, now: Time, marshal: State -> string)
    requires |effects| <= |targets|
  {
    forall i | 0 <= i < |effects| ::
      && Effective(WayOf(revisions, update, targets[i]), update, targets[i], effects[i], now, marshal)
      && (effects[i].Stored? ==> effects[i].before in Apply(start, WritesOf(effects[..i])))
  }

  lemma CarriedStep(targets: seq<Pod>, revisions: seq<Revision>, update: Revision, start: seq<Pod>,
                    effects: seq<Effect>, e: Effect, now: Time, marshal: State -> string)
    requires |effects| < |targets| && Carried(targets, revisions, update, start, effects, now, marshal)
    requires Effective(WayOf(revisions, update, targets[|effects|]), update, targets[|effects|], e, now, marshal)
    requires e.Stored? ==> e.before in Apply(start, WritesOf(effects))
    ensures Carried(targets, revisions, update, start, effects + [e], now, marshal)
  {
    forall i | 0 <= i <= |effects| ensures (effects + [e])[..i] == effects[..i] {
    }
    assert effects[..|effects|] == effects;
  }

  lemma CarriedFront(targets: seq<Pod>, revisions: seq<Revision>, update: Revision, start: seq<Pod>,
                     effects: seq<Effect>, now: Time, marshal: State -> string)
    requires effects != [] && |effects| <= |targets|
    requires Carried(targets, revisions, update, start, effects, now, marshal)
    ensures Carried(targets, revisions, update, start, effects[..|effects| - 1], now, marshal)
  {
    var front := effects[..|effects| - 1];
    forall i | 0 <= i < |front| ensures front[..i] == effects[..i] {
    }
  }

  /** The first pods have been worked through with these effects, and nothing else happened. */
  ghost predicate Progress(client: ApiServer, versions: V.ResourceVersionExpectation, start: seq<Pod>,
                           writes: seq<Write>, log: seq<V.Event>, targets: seq<Pod>, effects: seq<Effect>)
    requires |effects| <= |targets|
    reads client, versions
  {
    && client.Valid() && versions.Valid()
    && client.pods == Apply(start, WritesOf(effects))
    && client.writes == writes + WritesOf(effects)
    && versions.log == log + VersionsOf(effects, targets)
  }

  lemma StoredApplies(initial: seq<Pod>, writes: seq<Write>, w: seq<Write>)
    requires |w| <= 1
    ensures Apply(initial, writes + w)
         == if w == [] then Apply(initial, writes) else ApplyWrite(Apply(initial, writes), w[0])
  {
    ApplyAppend(initial, writes, w);
    if w != [] {
      assert w == [w[0]] && w[..0] == [];
    }
  }

  lemma Regroup<T>(a: seq<T>, b: seq<T>, c: seq<T>)
    ensures a + b + c == a + (b + c)
  {
  }

  /** What one more effect adds to the pods, the writes and the versions. */
  lemma OneMoreEffect(start: seq<Pod>, initial: seq<Pod>, all: seq<Write>, writes: seq<Write>, log: seq<V.Event>,
                      targets: seq<Pod>, effects: seq<Effect>, e: Effect)
    requires |effects| < |targets| && Apply(initial, all) == Apply(start, WritesOf(effects))
    ensures
      && var w := if e.Stored? then [Replaced(e.after)] else [];
      && var v := if e.Stored? then [V.Expected(targets[|effects|].uid, e.after.resourceVersion)] else [];
      && writes + WritesOf(effects) + w == writes + WritesOf(effects + [e])
      && log + VersionsOf(effects, targets) + v == log + VersionsOf(effects + [e], targets)
      && Apply(initial, all + w) == Apply(start, WritesOf(effects + [e]))
  {
    assert (effects + [e])[..|effects|] == effects;
    var w := if e.Stored? then [Replaced(e.after)] else [];
    var v := if e.Stored? then [V.Expected(targets[|effects|].uid, e.after.resourceVersion)] else [];
    assert WritesOf(effects + [e]) == WritesOf(effects) + w;
    assert VersionsOf(effects + [e], targets) == VersionsOf(effects, targets) + v;
    Regroup(writes, WritesOf(effects), w);
    Regroup(log, VersionsOf(effects, targets), v);
    StoredApplies(initial, all, w);
    StoredApplies(start, WritesOf(effects), w);
  }

  method UpdateAndRecord(update: Revision, revisions: seq<Revision>, targets: seq<Pod>, i: nat, client: ApiServer,
                         versions: V.ResourceVersionExpectation, now: Time, marshal: State -> string,
                         jsonDiff: (Template, Template) -> seq<Operation>,
                         ghost start: seq<Pod>, ghost writes: seq<Write>, ghost log: seq<V.Event>,
                         ghost before: seq<Effect>)
    returns (err: bool, ghost e: Effect)
    requires |before| == i < |targets| && Progress(client, versions, start, writes, log, targets, before)
    requires forall a, b :: IsDiff(jsonDiff(a, b), a, b)
    requires forall r | r in revisions :: UniqueNames(r.data.containers)
    modifies client, versions
    ensures err ==> Progress(client, versions, start, writes, log, targets, before)
    ensures !err ==>
      && Progress(client, versions, start, writes, log, targets, before + [e])
      && Effective(WayOf(revisions, update, targets[i]), update, targets[i], e, now, marshal)
      && (e.Stored? ==> e.before in Apply(start, WritesOf(before)))
  {
    ghost var version;
    err, e, version := UpdatePod(update, revisions, targets[i], client, versions, now, marshal, jsonDiff);
    if err {
      assert old(client.writes) + [] == old(client.writes) && old(versions.log) + [] == old(versions.log);
      return;
    }
    OneMoreEffect(start, client.initial, old(client.writes), writes, log, targets, before, e);
  }

  method UpdateNext(update: Revision, revisions: seq<Revision>, targets: seq<Pod>, i: nat, client: ApiServer,
                    versions: V.ResourceVersionExpectation, now: Time, marshal: State -> string,
                    jsonDiff: (Template, Template) -> seq<Operation>,
                    ghost start: seq<Pod>, ghost writes: seq<Write>, ghost log: seq<V.Event>,
                    ghost before: seq<Effect>)
    returns (err: bool, ghost effects: seq<Effect>)
    requires |before| == i < |targets| && Progress(client, versions, start, writes, log, targets, before)
    requires Carried(targets, revisions, update, start, before, now, marshal)
    requires forall a, b :: IsDiff(jsonDiff(a, b), a, b)
    requires forall r | r in revisions :: UniqueNames(r.data.containers)
    modifies client, versions
    ensures |effects| == (if err then i else i + 1) && Progress(client, versions, start, writes, log, targets, effects)
    ensures Carried(targets, revisions, update, start, effects, now, marshal)
  {
    ghost var e;
    err, e := UpdateAndRecord(update, revisions, targets, i, client, versions, now, marshal, jsonDiff,
                              start, writes, log, before);
    effects := before;
    if !err {
      CarriedStep(targets, revisions, update, start, before, e, now, marshal);
      effects := before + [e];
    }
  }

  /** Works through the chosen pods in order and stops at the first error. */
  method UpdateChosen(update: Revision, revisions: seq<Revision>, targets: seq<Pod>, client: ApiServer,
                      versions: V.ResourceVersionExpectation, now: Time, marshal: State -> string,
                      jsonDiff: (Template, Template) -> seq<Operation>)
    returns (err: bool, ghost effects: seq<Effect>)
    requires client.Valid() && versions.Valid()
    requires forall a, b :: IsDiff(jsonDiff(a, b), a, b)
    requires forall r | r in revisions :: UniqueNames(r.data.containers)
    modifies client, versions
    ensures |effects| <= |targets| && (err <==> |effects| < |targets|)
    ensures Progress(client, versions, old(client.pods), old(client.writes), old(versions.log), targets, effects)
    ensures Carried(targets, revisions, update, old(client.pods), effects, now, marshal)
  {
    effects := [];
    for i := 0 to |targets|
      invariant |effects| == i
      invariant Progress(client, versions, old(client.pods), old(client.writes), old(versions.log), targets, effects)
      invariant Carried(targets, revisions, update, old(client.pods), effects, now, marshal)
    {
      err, effects := UpdateNext(update, revisions, targets, i, client, versions, now, marshal, jsonDiff,
                                 old(client.pods), old(client.writes), old(versions.log), effects);
      if err {
        return;
      }
    }
    err := false;
  }

  /** The decisions of Update and what became of them. */
  ghost predicate UpdateSound(spec: Spec, update: Revision, revisions: seq<Revision>, pods: seq<Pod>, start: seq<Pod>,
                              run: UpdateRun, err: bool, now: Time, marshal: State -> string) {
    && UpdateDecided(spec, pods, update.name, run) && Indexes(run.chosen, pods)
    && |run.effects| <= |run.chosen| && (err <==> |run.effects| < |run.chosen|)
    && Carried(At(pods, run.chosen), revisions, update, start, run.effects, now, marshal)
  }

  /** The versions a later pass may not plan behind. */
  function RunVersions(run: UpdateRun, pods: seq<Pod>): seq<V.Event>
    requires forall i | 0 <= i < |run.chosen| :: run.chosen[i] < |pods|
    requires |run.effects| <= |run.chosen|
  {
    VersionsOf(run.effects, At(pods, run.chosen))
  }

  method Update(spec: Spec, update: Revision, revisions: seq<Revision>, pods: seq<Pod>, client: ApiServer,
                versions: V.ResourceVersionExpectation, now: Time, marshal: State -> string,
                jsonDiff: (Template, Template) -> seq<Operation>)
    returns (err: bool, ghost run: UpdateRun)
    requires client.Valid() && versions.Valid()
    requires forall a, b :: IsDiff(jsonDiff(a, b), a, b)
    requires forall r | r in revisions :: UniqueNames(r.data.containers)
    modifies client, versions
    ensures client.Valid() && versions.Valid()
    ensures UpdateSound(spec, update, revisions, pods, old(client.pods), run, err, now, marshal)
    ensures client.pods == Apply(old(client.pods), WritesOf(run.effects))
    ensures client.writes == old(client.writes) + WritesOf(run.effects)
    ensures versions.log == old(versions.log) + RunVersions(run, pods)
  {
    var diffRes := CalculateDiffsWithExpectation(spec, pods, update.name);
    if diffRes.updateNum == 0 {
      return false, NO_UPDATE;
    }
    var waitUpdateIndexes := FindCandidates(pods, update.name);
    waitUpdateIndexes := SortCandidates(waitUpdateIndexes, pods);
    ghost var candidates := waitUpdateIndexes;
    waitUpdateIndexes :=
      LimitUpdateIndexes(diffRes.updateNum, diffRes.updateMaxUnavailable, waitUpdateIndexes, pods, update.name);
    ghost var effects;
    err, effects := UpdateChosen(update, revisions, At(pods, waitUpdateIndexes), client, versions, now, marshal,
                                 jsonDiff);
    run := UpdateRun(candidates, waitUpdateIndexes, effects);
  }
}
