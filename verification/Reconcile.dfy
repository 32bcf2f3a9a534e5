/** One pass of the controller: the gates, the two halves of the sync, the status and the history. */
module Reconcile {
  import opened Kube
  import opened Templates
  import opened Api
  import opened Batches
  import opened ScaleIn
  import opened Scaling
  import opened Updating
  import opened InPlace
  import opened Revisions
  import Planner
  import E = Expectations
  import EventHandler
  import V = Versions

  // ---------- The sync ----------

  /** What one sync did: its scaling step and its update run, each with its error. */
  datatype Trace = Trace(step: Scaling.Step, modified: bool, scaleErr: bool, run: UpdateRun, updateErr: bool)

  const NO_TRACE := Trace(Idle, false, false, NO_UPDATE, false)

  /** The workload as the update revision records it. */
  function ApplyRevision(iu: Inplaceu, r: Revision): Inplaceu {
    iu.(template := r.data)
  }

  /** Update runs exactly when the scaling step changed nothing, also when that step ended in an error. */
  ghost predicate SyncDecided(iu: Inplaceu, update: Revision, revisions: seq<Revision>, pods: seq<Pod>,
                              start: seq<Pod>, t: Trace, now: Time, marshal: State -> string) {
    && Decided(iu.spec, pods, update.name, t.step) && Ran(t.step, t.modified, t.scaleErr)
    && if t.modified then t.run == NO_UPDATE && !t.updateErr
       else UpdateSound(iu.spec, update, revisions, pods, start, t.run, t.updateErr, now, marshal)
  }

  function TraceWrites(iu: Inplaceu, update: Revision, t: Trace): seq<Write>
    requires Ran(t.step, t.modified, t.scaleErr)
  {
    StepWrites(iu, update.name, t.step) + WritesOf(t.run.effects)
  }

  /** A sync decided as it should and turned the pods `before` into the pods `after`. */
  ghost predicate PodsSynced(iu: Inplaceu, update: Revision, revisions: seq<Revision>, pods: seq<Pod>,
                             before: seq<Pod>, after: seq<Pod>, t: Trace, now: Time, marshal: State -> string) {
    && Ran(t.step, t.modified, t.scaleErr)
    && (if iu.deleting then t == NO_TRACE
        else SyncDecided(ApplyRevision(iu, update), update, revisions, pods, before, t, now, marshal))
    && var writes := TraceWrites(ApplyRevision(iu, update), update, t);
       after == Apply(before, writes) && Lawful(before, writes)
  }

  lemma {:induction false} NothingCreated(queue: seq<Pod>, outcomes: seq<bool>)
    requires |outcomes| <= |queue| && Successes(outcomes) == 0
    ensures Creations(queue, outcomes) == [] && CreatedNames(queue, outcomes) == {}
  {
    if outcomes != [] {
      NothingCreated(queue, outcomes[..|outcomes| - 1]);
    }
  }

  /** A step that reports no change made no write. */
  lemma UnmodifiedWroteNothing(iu: Inplaceu, revision: string, step: Scaling.Step, err: bool)
    requires Ran(step, false, err)
    ensures StepWrites(iu, revision, step) == []
  {
    if step.Creating? {
      NothingCreated(NewPods(iu, revision, step.ids), step.outcomes);
    }
  }

  /** Only one half of a sync writes: the scaling step, or the update run when that step changed nothing. */
  lemma WritesOfOneHalf(iu: Inplaceu, update: Revision, t: Trace)
    requires Ran(t.step, t.modified, t.scaleErr) && (t.modified ==> t.run == NO_UPDATE)
    ensures TraceWrites(iu, update, t)
         == if t.modified then StepWrites(iu, update.name, t.step) else WritesOf(t.run.effects)
  {
    var writes := StepWrites(iu, update.name, t.step);
    if t.modified {
      assert writes + [] == writes;
    } else {
      UnmodifiedWroteNothing(iu, update.name, t.step, t.scaleErr);
      assert [] + WritesOf(t.run.effects) == WritesOf(t.run.effects);
    }
  }

  /** What the writes since a point did to the pods of that point. */
  lemma WritesSince(initial: seq<Pod>, before: seq<Write>, since: seq<Write>)
    requires Lawful(initial, before + since)
    ensures Apply(initial, before + since) == Apply(Apply(initial, before), since)
    ensures Lawful(Apply(initial, before), since)
  {
    ApplyAppend(initial, before, since);
    LawfulAppend(initial, before, since);
  }

  /** The scaling half; when it changed nothing, the server is as it was. */
  method ScaleHalf(updateSet: Inplaceu, revision: string, pods: seq<Pod>, client: ApiServer, exp: E.ScaleExpectations)
    returns (modified: bool, err: bool, ghost step: Scaling.Step)
    requires client.Valid() && exp.Valid() && DistinctUids(pods)
    modifies client, exp
    ensures Decided(updateSet.spec, pods, revision, step) && Ran(step, modified, err)
    ensures Recorded(updateSet, revision, step, client, exp)
    ensures !modified ==> StepWrites(updateSet, revision, step) == [] && client.pods == old(client.pods)
  {
    modified, err, step := Scale(updateSet, revision, pods, client, exp);
    if !modified {
      UnmodifiedWroteNothing(updateSet, revision, step, err);
      assert old(client.writes) + [] == old(client.writes);
    }
  }

  lemma JoinedWrites(before: seq<Write>, a: seq<Write>, b: seq<Write>)
    ensures before + (a + b) == before + a + b
    ensures before + (a + []) == before + a
  {
  }

  method SyncLive(updateSet: Inplaceu, update: Revision, revisions: seq<Revision>, filteredPods: seq<Pod>,
                  client: ApiServer, exp: E.ScaleExpectations, versions: V.ResourceVersionExpectation,
                  now: Time, marshal: State -> string, jsonDiff: (Template, Template) -> seq<Operation>)
    returns (err: bool, ghost t: Trace)
    requires client.Valid() && exp.Valid() && versions.Valid() && DistinctUids(filteredPods)
    requires forall a, b :: IsDiff(jsonDiff(a, b), a, b)
    requires forall r | r in revisions :: UniqueNames(r.data.containers)
    modifies client, exp, versions
    ensures client.Valid() && exp.Valid() && versions.Valid()
    ensures SyncDecided(updateSet, update, revisions, filteredPods, old(client.pods), t, now, marshal)
    ensures err == (t.scaleErr || t.updateErr)
    ensures client.writes == old(client.writes) + TraceWrites(updateSet, update, t)
    ensures versions.log == old(versions.log) + RunVersions(t.run, filteredPods)
    ensures forall a ::
      exp.Names(updateSet.name, a)
      == StepAwaited(updateSet, update.name, t.step, a, old(exp.Names(updateSet.name, a)))
  {
    var scaling, scaleErr;
    ghost var step;
    scaling, scaleErr, step := ScaleHalf(updateSet, update.name, filteredPods, client, exp);
    err := scaleErr;
    if scaling {
      t := Trace(step, scaling, scaleErr, NO_UPDATE, false);
      JoinedWrites(old(client.writes), StepWrites(updateSet, update.name, step), []);
      return;
    }
    var updateErr;
    ghost var run;
    updateErr, run := Update(updateSet.spec, update, revisions, filteredPods, client, versions, now, marshal, jsonDiff);
    t := Trace(step, scaling, scaleErr, run, updateErr);
    JoinedWrites(old(client.writes), StepWrites(updateSet, update.name, step), WritesOf(run.effects));
    if !err {
      err := updateErr;
    }
  }

  method SyncInplaceu(instance: Inplaceu, update: Revision, revisions: seq<Revision>, filteredPods: seq<Pod>,
                      client: ApiServer, exp: E.ScaleExpectations, versions: V.ResourceVersionExpectation,
                      now: Time, marshal: State -> string, jsonDiff: (Template, Template) -> seq<Operation>)
    returns (err: bool, ghost t: Trace)
    requires client.Valid() && exp.Valid() && versions.Valid() && DistinctUids(filteredPods)
    requires forall a, b :: IsDiff(jsonDiff(a, b), a, b)
    requires forall r | r in revisions :: UniqueNames(r.data.containers)
    modifies client, exp, versions
    ensures client.Valid() && exp.Valid() && versions.Valid()
    ensures err == (t.scaleErr || t.updateErr)
    ensures PodsSynced(instance, update, revisions, filteredPods, old(client.pods), client.pods, t, now, marshal)
    ensures client.writes == old(client.writes) + TraceWrites(ApplyRevision(instance, update), update, t)
    ensures Indexes(t.run.chosen, filteredPods) && |t.run.effects| <= |t.run.chosen|
    ensures versions.log == old(versions.log) + RunVersions(t.run, filteredPods)
    ensures forall a ::
      exp.Names(instance.name, a)
      == StepAwaited(ApplyRevision(instance, update), update.name, t.step, a, old(exp.Names(instance.name, a)))
  {
    var updateSet := ApplyRevision(instance, update);
    if instance.deleting {
      err, t := false, NO_TRACE;
      assert client.writes + [] == client.writes && versions.log + [] == versions.log;
    } else {
      err, t := SyncLive(updateSet, update, revisions, filteredPods, client, exp, versions, now, marshal, jsonDiff);
    }
    WritesSince(client.initial, old(client.writes), TraceWrites(updateSet, update, t));
  }

  /** Every pod a pass creates is the one the update revision's template describes, under that revision. */
  lemma PassCreatesFromUpdate(iu: Inplaceu, update: Revision, revisions: seq<Revision>, pods: seq<Pod>,
                              before: seq<Pod>, after: seq<Pod>, t: Trace, now: Time, marshal: State -> string,
                              w: Write)
    requires !iu.deleting && PodsSynced(iu, update, revisions, pods, before, after, t, now, marshal)
    requires w in TraceWrites(ApplyRevision(iu, update), update, t) && w.Created?
    ensures w.pod.containers == update.data.containers && w.pod.annotations == update.data.annotations
    ensures EqualToRevisionHash(w.pod, update.name) && EventHandler.OwnerKey(w.pod) == Some(iu.name)
  {
    var updateSet := ApplyRevision(iu, update);
    WritesOfOneHalf(updateSet, update, t);
    if t.modified {
      match t.step
      case Creating(ids, outcomes, _) =>
        var i := CreatedAt(NewPods(updateSet, update.name, ids), outcomes, w);
        NewPodsFollowTemplate(updateSet, update.name, ids, i);
    } else {
      UpdatesCreateNothing(t.run.effects);
    }
  }

  lemma {:induction false} CreatedAt(queue: seq<Pod>, outcomes: seq<bool>, w: Write) returns (i: nat)
    requires |outcomes| <= |queue| && w in Creations(queue, outcomes)
    ensures i < |queue| && w == Created(queue[i])
  {
    var last := |outcomes| - 1;
    if outcomes[last] && w == Created(queue[last]) {
      i := last;
    } else {
      i := CreatedAt(queue, outcomes[..last], w);
    }
  }

  lemma {:induction false} UpdatesCreateNothing(effects: seq<Effect>)
    ensures forall w | w in WritesOf(effects) :: w.Replaced?
  {
    if effects != [] {
      UpdatesCreateNothing(effects[..|effects| - 1]);
    }
  }

  // ---------- The gates ----------

  /** Works through the listed pods until one is older than the last write this controller made to it. */
  method FirstStalePod(pods: seq<Pod>, versions: V.ResourceVersionExpectation, now: Time)
    returns (stale: Option<nat>)
    requires versions.Valid() && DistinctUids(pods)
    modifies versions
    ensures versions.Valid()
    ensures stale.None? ==> forall i | 0 <= i < |pods| ::
      V.Reaches(pods[i].resourceVersion, V.Highest(old(versions.log), pods[i].uid))
    ensures stale.Some? ==>
      && stale.value < |pods|
      && !V.Reaches(pods[stale.value].resourceVersion, V.Highest(old(versions.log), pods[stale.value].uid))
      && forall i | 0 <= i < stale.value ::
           V.Reaches(pods[i].resourceVersion, V.Highest(old(versions.log), pods[i].uid))
  {
    for k := 0 to |pods|
      invariant versions.Valid()
      invariant forall i | k <= i < |pods| ::
        V.Highest(versions.log, pods[i].uid) == V.Highest(old(versions.log), pods[i].uid)
      invariant forall i | 0 <= i < k :: V.Reaches(pods[i].resourceVersion, V.Highest(old(versions.log), pods[i].uid))
    {
      var satisfied := ObserveAndTest(pods[k].uid, pods[k].resourceVersion, versions, now);
      if !satisfied {
        return Some(k);
      }
    }
    return None;
  }

  lemma {:induction false} ClearedStep(log: seq<V.Event>, uid: string)
    ensures log + [] == log
    ensures forall u :: V.Highest(log + [V.Cleared(uid)], u) == if u == uid then None else V.Highest(log, u)
  {
  }

  method ObserveAndTest(uid: string, version: string, versions: V.ResourceVersionExpectation, now: Time)
    returns (satisfied: bool)
    requires versions.Valid()
    modifies versions
    ensures versions.Valid()
    ensures satisfied <==> V.Reaches(version, V.Highest(old(versions.log), uid))
    ensures forall u | u != uid :: V.Highest(versions.log, u) == V.Highest(old(versions.log), u)
  {
    versions.Observe(uid, version);
    ClearedStep(old(versions.log), uid);
    var elapsed;
    satisfied, elapsed := versions.IsSatisfied(uid, version, now);
  }

  // ---------- One pass ----------

  /** How far a pass got, and what it did from there. */
  datatype Stage =
    | Gone
    | AwaitingScale
    | NoRevision
    | AwaitingPod(i: nat)
    | Synced(active: Active, activated: Store, t: Trace, statusWritten: bool, deleted: nat)

  /** What activating the revisions comes to: from a list of any age, and in full from a fresh one. */
  ghost predicate Activates(before: Store, after: Store, active: Active, template: Template, statusCurrent: string,
                            revisions: seq<Revision>, replies: Replies) {
    && TouchesOne(before, after, active.update, template)
    && (WellFormed(before) && FreshList(revisions, before) ==>
          Activated(before, after, active.update, template, replies))
    && active.current.name == if Listed(revisions, statusCurrent) then statusCurrent else active.update.name
  }

  /** What a pass that got through all gates did to the recorded revisions. */
  ghost predicate HistoryKept(before: Store, after: Store, template: Template, statusCurrent: string,
                              historyLimit: Option<nat>, revisions: seq<Revision>, replies: Replies,
                              pods: seq<Pod>, s: Stage)
    requires s.Synced?
  {
    var update := s.active.update;
    var historic := Historic(revisions, pods, s.active.current.name, update.name);
    var excess := Planner.Max(|historic| - if historyLimit.Some? then historyLimit.value else 10, 0);
    && Activates(before, s.activated, s.active, template, statusCurrent, revisions, replies)
    && s.deleted <= excess && (!s.statusWritten ==> s.deleted == 0)
    && after == s.activated - NamesOf(historic[..s.deleted])
  }

  /** The status write; when it fails nothing later in the pass runs. */
  method WriteStatus(replicas: int, pods: seq<Pod>, current: string, update: string) returns (r: Option<Status>)
    ensures r.Some? ==>
      r.value.currentRevision ==
      if |pods| == replicas && Count(OUTDATED, pods, update) == 0 then update else current
  {
    var status := CalculateStatus(replicas, pods, current, update);
    var written := *;
    r := if written then Some(status) else None;
  }

  /** A pass starts with nothing awaited, and ends awaiting exactly the pods it created and those it deleted. */
  lemma PassAwaitsItsSuccesses(iu: Inplaceu, update: Revision, revisions: seq<Revision>, pods: seq<Pod>,
                               start: seq<Pod>, t: Trace, now: Time, marshal: State -> string)
    requires DistinctNames(pods) && Ran(t.step, t.modified, t.scaleErr)
    requires if iu.deleting then t == NO_TRACE
             else SyncDecided(ApplyRevision(iu, update), update, revisions, pods, start, t, now, marshal)
    ensures forall a ::
      StepAwaited(ApplyRevision(iu, update), update.name, t.step, a, {})
      == SucceededNames(ApplyRevision(iu, update), update.name, t.step, a)
  {
    if t.step.Deleting? {
      DeletionList(iu.spec, pods, update.name, t.step);
    }
    forall a ensures StepAwaited(ApplyRevision(iu, update), update.name, t.step, a, {})
                  == SucceededNames(ApplyRevision(iu, update), update.name, t.step, a) {
      StepConservesExpectations(ApplyRevision(iu, update), update.name, t.step, a, {});
    }
  }

  /** What follows the sync whatever became of it: the status write and, if that succeeds, the truncation. */
  method FinishPass(iu: Inplaceu, active: Active, ghost replies: Replies, ghost t: Trace, ghost before: Store,
                    statusCurrent: string, historyLimit: Option<nat>, filteredPods: seq<Pod>, revisions: seq<Revision>,
                    server: RevisionServer)
    returns (status: Option<Status>, ghost stage: Stage)
    requires Activates(before, server.store, active, iu.template, statusCurrent, revisions, replies)
    modifies server
    ensures stage.Synced? && stage.active == active && stage.t == t
    ensures HistoryKept(before, server.store, iu.template, statusCurrent, historyLimit, revisions, replies,
                        filteredPods, stage)
    ensures stage.statusWritten <==> status.Some?
    ensures status.Some? ==> status.value.currentRevision in {active.current.name, active.update.name}
  {
    ghost var activated := server.store;
    status := WriteStatus(iu.spec.replicas, filteredPods, active.current.name, active.update.name);
    if status.None? {
      stage := Synced(active, activated, t, false, 0);
      return;
    }
    var ok;
    ghost var deleted;
    ok, deleted := TruncateHistory(server, filteredPods, revisions, active.current.name, active.update.name,
                                   historyLimit);
    stage := Synced(active, activated, t, true, deleted);
  }

  /** What is left of a pass once every gate is open: the sync, the status, the history. */
  method RunPass(iu: Inplaceu, active: Active, ghost replies: Replies, ghost before: Store, statusCurrent: string,
                 historyLimit: Option<nat>, filteredPods: seq<Pod>, revisions: seq<Revision>,
                 client: ApiServer, server: RevisionServer, exp: E.ScaleExpectations,
                 versions: V.ResourceVersionExpectation, now: Time,
                 marshal: State -> string, jsonDiff: (Template, Template) -> seq<Operation>)
    returns (err: bool, status: Option<Status>, ghost stage: Stage)
    requires client.Valid() && exp.Valid() && versions.Valid() && DistinctUids(filteredPods)
    requires forall a, b :: IsDiff(jsonDiff(a, b), a, b)
    requires forall r | r in revisions :: UniqueNames(r.data.containers)
    requires Activates(before, server.store, active, iu.template, statusCurrent, revisions, replies)
    modifies client, server, exp, versions
    ensures client.Valid() && exp.Valid() && versions.Valid()
    ensures stage.Synced? && stage.active == active
    ensures PodsSynced(iu, active.update, revisions, filteredPods, old(client.pods), client.pods, stage.t, now, marshal)
    ensures client.writes == old(client.writes) + TraceWrites(ApplyRevision(iu, active.update), active.update, stage.t)
    ensures HistoryKept(before, server.store, iu.template, statusCurrent, historyLimit, revisions, replies,
                        filteredPods, stage)
    ensures stage.statusWritten <==> status.Some?
    ensures status.Some? ==> status.value.currentRevision in {active.current.name, active.update.name}
    ensures err == (!stage.statusWritten || stage.t.scaleErr || stage.t.updateErr)
    ensures forall a ::
      exp.Names(iu.name, a) == StepAwaited(ApplyRevision(iu, active.update), active.update.name, stage.t.step, a,
                                           old(exp.Names(iu.name, a)))
  {
    var syncErr;
    ghost var t;
    syncErr, t := SyncInplaceu(iu, active.update, revisions, filteredPods, client, exp, versions, now, marshal,
                               jsonDiff);
    status, stage := FinishPass(iu, active, replies, t, before, statusCurrent, historyLimit, filteredPods, revisions,
                                server);
    err := status.None? || syncErr;
  }

  /** The gates in their order: expectations first, then the revisions, then the versions of the listed pods. */
  method PassGates(key: string, iu: Inplaceu, statusCurrent: string, statusCollisions: nat,
                   filteredPods: seq<Pod>, revisions: seq<Revision>, server: RevisionServer,
                   exp: E.ScaleExpectations, versions: V.ResourceVersionExpectation, now: Time, naming: Naming,
                   replies: Replies)
    returns (err: bool, active: Option<Active>, ghost stage: Stage)
    requires exp.Valid() && versions.Valid() && DistinctUids(filteredPods)
    requires Keyed(server.store) && SameData(revisions, server.store)
    requires DistinctProbes(iu.template, naming, statusCollisions, |server.store|)
    modifies server, exp, versions
    ensures exp.Valid() && versions.Valid()
    ensures active.None? ==> stage.AwaitingScale? || stage.NoRevision? || stage.AwaitingPod?
    ensures active.None? && stage.AwaitingScale? <==> exists a, n :: E.Awaited(old(exp.log), key, a, n)
    ensures active.None? && stage.AwaitingPod? ==>
      && stage.i < |filteredPods|
      && var p := filteredPods[stage.i]; !V.Reaches(p.resourceVersion, V.Highest(old(versions.log), p.uid))
    ensures active.None? && !stage.AwaitingPod? ==> server.store == old(server.store)
    ensures active.Some? ==> forall a :: exp.Names(key, a) == {}
    ensures active.Some? ==>
      && (forall i | 0 <= i < |filteredPods| ::
            V.Reaches(filteredPods[i].resourceVersion, V.Highest(old(versions.log), filteredPods[i].uid)))
      && Activates(old(server.store), server.store, active.value, iu.template, statusCurrent, revisions, replies)
  {
    active, stage := None, AwaitingScale;
    var satisfied, _, _ := exp.SatisfiedExpectations(key, now);
    if !satisfied {
      return false, None, AwaitingScale;
    }
    active := GetActiveRevisions(server, iu.template, statusCurrent, statusCollisions, revisions, naming, replies);
    if active.None? {
      return true, None, NoRevision;
    }
    var stale := FirstStalePod(filteredPods, versions, now);
    if stale.Some? {
      return false, None, AwaitingPod(stale.value);
    }
    err := false;
  }

  method Reconcile(key: string, instance: Option<Inplaceu>, statusCurrent: string, statusCollisions: nat,
                   historyLimit: Option<nat>, filteredPods: seq<Pod>, revisions: seq<Revision>,
                   client: ApiServer, server: RevisionServer, exp: E.ScaleExpectations,
                   versions: V.ResourceVersionExpectation, now: Time, naming: Naming, replies: Replies,
                   marshal: State -> string, jsonDiff: (Template, Template) -> seq<Operation>)
    returns (err: bool, status: Option<Status>, ghost stage: Stage)
    requires client.Valid() && exp.Valid() && versions.Valid() && DistinctUids(filteredPods)
    requires instance.Some? ==> instance.value.name == key
    requires Keyed(server.store) && SameData(revisions, server.store)
    requires instance.Some? ==> DistinctProbes(instance.value.template, naming, statusCollisions, |server.store|)
    requires forall a, b :: IsDiff(jsonDiff(a, b), a, b)
    requires forall r | r in revisions :: UniqueNames(r.data.containers)
    modifies client, server, exp, versions
    ensures client.Valid() && exp.Valid() && versions.Valid()
    ensures stage.Gone? <==> instance.None?
    ensures stage.Gone? ==> forall a :: exp.Names(key, a) == {}
    ensures stage.AwaitingScale? <==> instance.Some? && exists a, n :: E.Awaited(old(exp.log), key, a, n)
    ensures stage.AwaitingPod? ==>
      && stage.i < |filteredPods|
      && var p := filteredPods[stage.i]; !V.Reaches(p.resourceVersion, V.Highest(old(versions.log), p.uid))
    ensures !stage.Synced? ==> client.writes == old(client.writes) && client.pods == old(client.pods) && status.None?
    ensures stage.Gone? || stage.AwaitingScale? || stage.NoRevision? ==> server.store == old(server.store)
    ensures stage.Synced? ==>
      && var iu, update := instance.value, stage.active.update;
      && (forall i | 0 <= i < |filteredPods| ::
            V.Reaches(filteredPods[i].resourceVersion, V.Highest(old(versions.log), filteredPods[i].uid)))
      && PodsSynced(iu, update, revisions, filteredPods, old(client.pods), client.pods, stage.t, now, marshal)
      && client.writes == old(client.writes) + TraceWrites(ApplyRevision(iu, update), update, stage.t)
      && HistoryKept(old(server.store), server.store, iu.template, statusCurrent, historyLimit, revisions, replies,
                     filteredPods, stage)
      && (stage.statusWritten <==> status.Some?)
      && (status.Some? ==> status.value.currentRevision in {stage.active.current.name, update.name})
      && err == (!stage.statusWritten || stage.t.scaleErr || stage.t.updateErr)
      && (DistinctNames(filteredPods) ==>
            forall a :: exp.Names(key, a) == SucceededNames(ApplyRevision(iu, update), update.name, stage.t.step, a))
  {
    status := None;
    if instance.None? {
      exp.DeleteExpectations(key);
      return false, None, Gone;
    }
    var iu := instance.value;
    var active;
    err, active, stage := PassGates(key, iu, statusCurrent, statusCollisions, filteredPods, revisions, server,
                                    exp, versions, now, naming, replies);
    if active.None? {
      return;
    }
    err, status, stage := RunPass(iu, active.value, replies, old(server.store), statusCurrent, historyLimit,
                                  filteredPods, revisions, client, server, exp, versions, now, marshal, jsonDiff);
    if DistinctNames(filteredPods) {
      PassAwaitsItsSuccesses(iu, active.value.update, revisions, filteredPods, old(client.pods), stage.t, now, marshal);
    }
  }
}
