/** A pod from its template to its next revision: what is created, seen and updated fits together. */
module PodLife {
  import opened Kube
  import opened Templates
  import opened InPlace
  import opened InPlaceMeaning
  import opened Scaling
  import E = Expectations
  import EventHandler

  /** The event that shows a created pod, as the server stamped it, settles that creation and nothing else. */
  lemma CreatedIsObserved(iu: Inplaceu, revision: string, id: string, uid: string, version: string,
                          log: seq<E.Event>)
    ensures
      && var p := NewPod(iu, revision, id).(uid := uid, resourceVersion := version);
      && !E.Awaited(log + EventHandler.CreateObservation(p), iu.name, E.Create, p.name)
      && forall k, a, n | (k, a, n) != (iu.name, E.Create, p.name) ::
           E.Awaited(log + EventHandler.CreateObservation(p), k, a, n) <==> E.Awaited(log, k, a, n)
  {
    var p := NewPod(iu, revision, id).(uid := uid, resourceVersion := version);
    EventHandler.CreationIsNotMissed(p, iu.name, log);
  }

  /** Whether a label key that the controller sets itself ends as on a new pod: no template change overrules it. */
  predicate LabelAsNew(from: Revision, next: Revision, id: string, k: Key) {
    var a, b := Lookup(from.data.labels, k), Lookup(next.data.labels, k);
    k in {RevisionHashKey, PodTemplateHashKey, InstanceIDKey} ==>
      a == b || b == if k == InstanceIDKey then Some(id) else OwnLabel(next.name, k)
  }

  /**
   * Updating in place gives the pod that re-creating it under its name would give: the same containers and owner,
   * the same annotations but for the state record, and the same labels, except where a template change overrules
   * one that the controller sets.
   */
  lemma UpdatedIsAsNew(iu: Inplaceu, from: Revision, next: Revision, id: string, now: Time, marshal: State -> string)
    requires InPlaceMeaning.Step(from, next)
    ensures
      && var was := NewPod(iu.(template := from.data), from.name, id);
      && var anew := NewPod(iu.(template := next.data), next.name, id);
      && var updated := InPlaceResult(was, SpecFor(from, next), now, marshal);
      && updated.name == anew.name && updated.owner == anew.owner && updated.containers == anew.containers
      && (forall k | k != InPlaceStateKey :: Lookup(updated.annotations, k) == Lookup(anew.annotations, k))
      && forall k :: Lookup(updated.labels, k) == Lookup(anew.labels, k) <==> LabelAsNew(from, next, id, k)
  {
    var created := NewPod(iu.(template := from.data), from.name, id);
    var updated := InPlaceResult(created, SpecFor(from, next), now, marshal);
    TemplateContainersFollow(from, next);
    forall k | k != InPlaceStateKey
      ensures Lookup(updated.annotations, k) == Lookup(next.data.annotations, k)
    {
      AnnotationOfResult(created, from, next, now, marshal, k);
    }
    forall k ensures Lookup(updated.labels, k)
                     == Lookup(NewPod(iu.(template := next.data), next.name, id).labels, k)
                <==> LabelAsNew(from, next, id, k)
    {
      UpdatedLabelAsNew(iu, from, next, id, now, marshal, k);
    }
  }

  /** The labels of a new pod, key by key. */
  lemma NewLabel(iu: Inplaceu, revision: string, id: string, k: Key)
    ensures Lookup(NewPod(iu, revision, id).labels, k)
         == if k == InstanceIDKey then Some(id)
            else if OwnLabel(revision, k).Some? then OwnLabel(revision, k)
            else Lookup(iu.template.labels, k)
  {
  }

  lemma UpdatedLabelAsNew(iu: Inplaceu, from: Revision, next: Revision, id: string, now: Time,
                          marshal: State -> string, k: Key)
    requires InPlaceMeaning.Step(from, next)
    ensures
      && var was := NewPod(iu.(template := from.data), from.name, id);
      && var anew := NewPod(iu.(template := next.data), next.name, id);
      && (Lookup(InPlaceResult(was, SpecFor(from, next), now, marshal).labels, k) == Lookup(anew.labels, k)
          <==> LabelAsNew(from, next, id, k))
  {
    NewLabel(iu.(template := from.data), from.name, id, k);
    NewLabel(iu.(template := next.data), next.name, id, k);
    LabelOfResult(NewPod(iu.(template := from.data), from.name, id), from, next, now, marshal, k);
  }

  lemma TemplateContainersFollow(from: Revision, next: Revision)
    requires InPlaceMeaning.Step(from, next)
    ensures PatchContainers(from.data.containers, SpecFor(from, next).images) == next.data.containers
  {
    ImagesMeaning(from.data.containers, next.data.containers);
  }
}
