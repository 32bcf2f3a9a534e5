/** What the controller concludes from pod events: which expectations they settle and which owners they wake. */
module EventHandler {
  import opened Kube
  import E = Expectations
  import V = Versions

  const GROUP := "batch.inplace.kubebuilder.io"
  const KIND := "Inplaceu"

  /** An entry of the work queue; delayed entries wait for the rate limiter. */
  datatype Request = Request(key: string, delayed: bool)

  function ResolveControllerRef(ref: OwnerRef): Option<string> {
    if ref.group.Some? && ref.kind == KIND && ref.group.value == GROUP then Some(ref.name) else None
  }

  function OwnerKey(p: Pod): Option<string> {
    if p.owner.Some? then ResolveControllerRef(p.owner.value) else None
  }

  /** The expectation a pod settles by being seen deleted, as a log of observations. */
  function DeleteObservation(p: Pod): seq<E.Event> {
    if OwnerKey(p).Some? then [E.Observed(OwnerKey(p).value, E.Delete, p.name)] else []
  }

  /**
   * What a create event settles. A pod that appears already terminating counts as deleted, never as created.
   */
  function CreateObservation(p: Pod): seq<E.Event> {
    if p.deleting then DeleteObservation(p)
    else if OwnerKey(p).Some? then [E.Observed(OwnerKey(p).value, E.Create, p.name)]
    else []
  }

  /** What an update event settles: a terminating pod its deletion, anything else nothing. */
  function UpdateObservation(before: Pod, after: Pod): seq<E.Event> {
    if before.resourceVersion == after.resourceVersion || !after.deleting then []
    else DeleteObservation(after) + if before.labels != after.labels then DeleteObservation(before) else []
  }

  /** The owners an event wakes. `matching` are the workloads whose selector matches an orphan pod. */
  function UpdateWakes(before: Pod, after: Pod, matching: seq<string>): seq<string> {
    if before.resourceVersion == after.resourceVersion then []
    else if after.deleting then
      DeleteWakes(after) + if before.labels != after.labels then DeleteWakes(before) else []
    else
      (if before.owner != after.owner then DeleteWakes(before) else [])
      + if after.owner.Some? then DeleteWakes(after)
        else if before.labels != after.labels || before.owner != after.owner then matching
        else []
  }

  function DeleteWakes(p: Pod): seq<string> {
    if OwnerKey(p).Some? then [OwnerKey(p).value] else []
  }

  function Immediate(keys: seq<string>): seq<Request> {
    seq(|keys|, i requires 0 <= i < |keys| => Request(keys[i], false))
  }

  lemma ImmediateJoin(queue: seq<Request>, a: seq<string>, b: seq<string>)
    ensures queue + Immediate(a) + Immediate(b) == queue + Immediate(a + b)
    ensures queue + Immediate([]) == queue
  {
  }

  class PodEventHandler {
    const scale: E.ScaleExpectations
    const versions: V.ResourceVersionExpectation
    var queue: seq<Request>

    constructor (scale: E.ScaleExpectations, versions: V.ResourceVersionExpectation)
      ensures this.scale == scale && this.versions == versions && queue == []
    {
      this.scale := scale;
      this.versions := versions;
      queue := [];
    }

    ghost predicate Valid()
      reads this, scale, versions
    {
      scale.Valid() && versions.Valid()
    }

    method Create(pod: Pod, matching: seq<string>, now: Time)
      requires Valid()
      modifies this, scale, versions
      ensures Valid()
      ensures scale.log == old(scale.log) + CreateObservation(pod)
      ensures versions.log == old(versions.log) + if pod.deleting then [V.Cleared(pod.uid)] else []
      ensures queue == old(queue) +
        if !pod.deleting && OwnerKey(pod).Some? then
          [Request(OwnerKey(pod).value,
                   forall a, n :: !E.Awaited(old(scale.log), OwnerKey(pod).value, a, n))]
        else if pod.deleting then Immediate(DeleteWakes(pod))
        else if pod.owner.Some? then []
        else Immediate(matching)
    {
      if pod.deleting {
        Delete(pod);
        return;
      }
      if pod.owner.Some? {
        var req := ResolveControllerRef(pod.owner.value);
        if req.None? {
          return;
        }
        var isSatisfied, _, _ := scale.SatisfiedExpectations(req.value, now);
        scale.ObserveScale(req.value, E.Create, pod.name);
        queue := queue + [Request(req.value, isSatisfied)];
        return;
      }
      queue := queue + Immediate(matching);
    }

    method Update(before: Pod, after: Pod, matching: seq<string>)
      requires Valid()
      modifies this, scale, versions
      ensures Valid()
      ensures scale.log == old(scale.log) + UpdateObservation(before, after)
      ensures versions.log == old(versions.log) +
        if before.resourceVersion == after.resourceVersion || !after.deleting then []
        else [V.Cleared(after.uid)] + if before.labels != after.labels then [V.Cleared(before.uid)] else []
      ensures queue == old(queue) + Immediate(UpdateWakes(before, after, matching))
    {
      if before.resourceVersion == after.resourceVersion {
        return;
      }
      var labelChanged := before.labels != after.labels;
      if after.deleting {
        Delete(after);
        if labelChanged {
          Delete(before);
          ImmediateJoin(old(queue), DeleteWakes(after), DeleteWakes(before));
        }
        return;
      }
      UpdateLive(before, after, labelChanged, matching);
    }

    /** A pod that is not terminating wakes its owners, or the workloads that may adopt it. */
    method UpdateLive(before: Pod, after: Pod, labelChanged: bool, matching: seq<string>)
      requires before.resourceVersion != after.resourceVersion && !after.deleting
      requires labelChanged == (before.labels != after.labels)
      modifies this`queue
      ensures queue == old(queue) + Immediate(UpdateWakes(before, after, matching))
    {
      var ownerChanged := before.owner != after.owner;
      ghost var former := if ownerChanged then DeleteWakes(before) else [];
      if ownerChanged && before.owner.Some? {
        var req := ResolveControllerRef(before.owner.value);
        if req.Some? {
          queue := queue + [Request(req.value, false)];
        }
      }
      assert queue == old(queue) + Immediate(former);
      ImmediateJoin(old(queue), former, DeleteWakes(after));
      ImmediateJoin(old(queue), former, matching);
      ImmediateJoin(old(queue), former, []);
      if after.owner.Some? {
        var req := ResolveControllerRef(after.owner.value);
        if req.Some? {
          queue := queue + [Request(req.value, false)];
        }
        return;
      }
      if labelChanged || ownerChanged {
        queue := queue + Immediate(matching);
      }
    }

    method Delete(pod: Pod)
      requires Valid()
      modifies this, scale, versions
      ensures Valid()
      ensures scale.log == old(scale.log) + DeleteObservation(pod)
      ensures versions.log == old(versions.log) + [V.Cleared(pod.uid)]
      ensures queue == old(queue) + Immediate(DeleteWakes(pod))
    {
      versions.Delete(pod.uid);
      if pod.owner.None? {
        return;
      }
      var req := ResolveControllerRef(pod.owner.value);
      if req.None? {
        return;
      }
      scale.ObserveScale(req.value, E.Delete, pod.name);
      queue := queue + [Request(req.value, false)];
    }
  }

  /** Whichever event it is, only a live pod settles a creation, and only a terminating or gone pod a deletion. */
  lemma ObservationsAreSound(before: Pod, after: Pod, e: E.Event)
    ensures e in CreateObservation(after) ==>
      e.Observed? && e.name == after.name && (e.action == E.Delete <==> after.deleting)
    ensures e in UpdateObservation(before, after) ==>
      e.Observed? && after.deleting && e.action == E.Delete && e.name in {before.name, after.name}
  {
  }

  /** The owner is woken that the pod names as its controller, if that is a workload of this kind and group. */
  lemma OwnerKeyExactly(p: Pod, key: string)
    ensures OwnerKey(p) == Some(key) <==> p.owner == Some(OwnerRef(Some(GROUP), KIND, key))
  {
  }

  /**
   * Whom a changed pod wakes: the workload that owns it; the one that owned it, if the owner changed or the pod is
   * terminating under other labels; and, if it has no owner and its labels or its owner changed, every workload
   * that matches it. A resync wakes nobody.
   */
  lemma UpdateWakesExactly(before: Pod, after: Pod, matching: seq<string>, key: string)
    ensures key in UpdateWakes(before, after, matching)
       <==> && before.resourceVersion != after.resourceVersion
            && (|| OwnerKey(after) == Some(key)
                || (&& OwnerKey(before) == Some(key)
                    && if after.deleting then before.labels != after.labels else before.owner != after.owner)
                || (&& !after.deleting && after.owner.None? && key in matching
                    && (before.labels != after.labels || before.owner != after.owner)))
  {
  }

  /** The first sight of a live pod of a workload settles that pod's creation and no other expectation. */
  lemma CreationIsNotMissed(p: Pod, key: string, log: seq<E.Event>)
    requires !p.deleting && OwnerKey(p) == Some(key)
    ensures !E.Awaited(log + CreateObservation(p), key, E.Create, p.name)
    ensures forall k, a, n | (k, a, n) != (key, E.Create, p.name) ::
      E.Awaited(log + CreateObservation(p), k, a, n) <==> E.Awaited(log, k, a, n)
  {
    var seen := E.Observed(key, E.Create, p.name);
    assert CreateObservation(p) == [seen];
    forall k, a, n ensures E.Awaited(log + [seen], k, a, n)
                      <==> E.Awaited(log, k, a, n) && (k, a, n) != (key, E.Create, p.name)
    {
      E.AwaitedStep(log, seen, k, a, n);
    }
  }

  /** The first sight of a terminating pod owned by a workload always settles that pod's deletion. */
  lemma DeletionIsNotMissed(before: Pod, after: Pod, key: string, log: seq<E.Event>)
    requires after.deleting && OwnerKey(after) == Some(key)
    ensures !E.Awaited(log + CreateObservation(after), key, E.Delete, after.name)
    ensures before.resourceVersion != after.resourceVersion && before.name == after.name ==>
      !E.Awaited(log + UpdateObservation(before, after), key, E.Delete, after.name)
  {
    var seen := E.Observed(key, E.Delete, after.name);
    E.AwaitedStep(log, seen, key, E.Delete, after.name);
    assert CreateObservation(after) == [seen];
    if before.resourceVersion != after.resourceVersion && before.labels != after.labels && OwnerKey(before).Some? {
      var second := E.Observed(OwnerKey(before).value, E.Delete, before.name);
      assert log + UpdateObservation(before, after) == log + [seen] + [second];
      E.AwaitedStep(log + [seen], second, key, E.Delete, after.name);
    } else if before.resourceVersion != after.resourceVersion {
      assert UpdateObservation(before, after) == [seen];
    }
  }
}
