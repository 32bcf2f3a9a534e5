/** What an in-place update promises: the pod the new template would give, whatever was updated before. */
module InPlaceMeaning {
  import opened Kube
  import opened Templates
  import opened InPlace

  /** The pod runs the template's container: same name, image and everything else. */
  ghost predicate Runs(containers: seq<Container>, c: Container) {
    exists j | 0 <= j < |containers| :: containers[j] == c
  }

  /** Container names in a pod are unique, and each template container runs. Other containers may be injected. */
  ghost predicate AgreesOnContainers(pod: Pod, t: Template) {
    UniqueNames(pod.containers) && forall i | 0 <= i < |t.containers| :: Runs(pod.containers, t.containers[i])
  }

  ghost predicate InTemplate(name: string, t: Template) {
    exists i | 0 <= i < |t.containers| :: t.containers[i].name == name
  }

  ghost predicate AgreesOnMetadata(m: Metadata, t: Metadata) {
    forall k | k in t :: Lookup(m, k) == Lookup(t, k)
  }

  /** Two revisions an update may go between. Container names in a template are unique. */
  ghost predicate Step(from: Revision, next: Revision) {
    Updatable(from.data, next.data) && UniqueNames(from.data.containers)
  }

  lemma StepKeepsNames(from: Revision, next: Revision)
    requires Step(from, next)
    ensures UniqueNames(next.data.containers)
  {
  }

  // ---------- Containers ----------

  /** The update runs the new template's containers, and changes no container outside the template. */
  lemma ContainersFollow(pod: Pod, from: Revision, next: Revision, now: Time, marshal: State -> string)
    requires Step(from, next) && AgreesOnContainers(pod, from.data)
    ensures
      && var after := InPlaceResult(pod, SpecFor(from, next), now, marshal);
      && AgreesOnContainers(after, next.data)
      && |after.containers| == |pod.containers|
      && (forall j | 0 <= j < |pod.containers| ::
            && after.containers[j].name == pod.containers[j].name
            && (!InTemplate(pod.containers[j].name, next.data) ==> after.containers[j] == pod.containers[j]))
  {
    var a, b := from.data.containers, next.data.containers;
    var images := ImagesFor(a, b);
    var after := PatchContainers(pod.containers, images);
    ImagesMeaning(a, b);
    forall i | 0 <= i < |b| ensures Runs(after, b[i]) {
      assert Runs(pod.containers, a[i]);
      var j :| 0 <= j < |pod.containers| && pod.containers[j] == a[i];
      assert after[j] == b[i];
    }
    forall j | 0 <= j < |pod.containers| && !InTemplate(pod.containers[j].name, next.data)
      ensures after[j] == pod.containers[j]
    {
      forall i | 0 <= i < |a| ensures a[i].name != pod.containers[j].name {
        assert a[i].name == b[i].name;
      }
    }
    forall i, j | 0 <= i < j < |after| ensures after[i].name != after[j].name {
      assert after[i].name == pod.containers[i].name && after[j].name == pod.containers[j].name;
    }
  }

  /** The state record leaves nothing for a next batch and names the updated containers in its one batch. */
  lemma NothingLeftForNextBatch(pod: Pod, from: Revision, next: Revision, now: Time)
    requires Step(from, next) && AgreesOnContainers(pod, from.data)
    ensures
      && var state := FinalState(pod, SpecFor(from, next), now);
      && state.revision == next.name && state.nextImages == map[] && state.requiredReady == None
      && |state.batches| == 1
      && forall i | 0 <= i < |from.data.containers| ::
           from.data.containers[i].name in state.batches[0].containers
           <==> from.data.containers[i].image != next.data.containers[i].image
  {
    ImagesMeaning(from.data.containers, next.data.containers);
    forall i | 0 <= i < |from.data.containers|
      ensures from.data.containers[i].name in NamesToUpdate(pod.containers, SpecFor(from, next).images)
         <==> from.data.containers[i].image != next.data.containers[i].image
    {
      assert Runs(pod.containers, from.data.containers[i]);
      var j :| 0 <= j < |pod.containers| && pod.containers[j] == from.data.containers[i];
      assert pod.containers[j] in pod.containers;
    }
  }

  // ---------- Labels and annotations ----------

  /** The value the controller itself writes under a label key, if it owns the key. */
  function OwnLabel(revision: string, k: Key): Option<string> {
    if k == RevisionHashKey then Some(revision)
    else if k == PodTemplateHashKey then Some(ShortHash(revision))
    else None
  }

  /** Every label after an update, key by key: template changes first, then the controller's own, then the pod's. */
  lemma LabelsAfter(labels: Metadata, from: Revision, next: Revision, k: Key)
    requires |from.data.containers| == |next.data.containers|
    ensures
      && var a, b := Lookup(from.data.labels, k), Lookup(next.data.labels, k);
      && Lookup(UpdatedLabels(labels, SpecFor(from, next)), k)
         == if a != b then b
            else if OwnLabel(next.name, k).Some? then OwnLabel(next.name, k)
            else Lookup(labels, k)
  {
  }

  lemma AnnotationsAfter(annotations: Metadata, from: Revision, next: Revision, k: Key)
    requires |from.data.containers| == |next.data.containers|
    ensures
      && var a, b := Lookup(from.data.annotations, k), Lookup(next.data.annotations, k);
      && Lookup(PatchedAnnotations(annotations, SpecFor(from, next)), k) == if a != b then b else Lookup(annotations, k)
  {
  }

  lemma LabelOfResult(pod: Pod, from: Revision, next: Revision, now: Time, marshal: State -> string, k: Key)
    requires |from.data.containers| == |next.data.containers|
    ensures
      && var a, b := Lookup(from.data.labels, k), Lookup(next.data.labels, k);
      && Lookup(InPlaceResult(pod, SpecFor(from, next), now, marshal).labels, k)
         == if a != b then b
            else if OwnLabel(next.name, k).Some? then OwnLabel(next.name, k)
            else Lookup(pod.labels, k)
  {
    LabelsAfter(pod.labels, from, next, k);
  }

  lemma AnnotationOfResult(pod: Pod, from: Revision, next: Revision, now: Time, marshal: State -> string, k: Key)
    requires |from.data.containers| == |next.data.containers|
    ensures
      && var a, b := Lookup(from.data.annotations, k), Lookup(next.data.annotations, k);
      && var spec := SpecFor(from, next);
      && Lookup(InPlaceResult(pod, spec, now, marshal).annotations, k)
         == if k == InPlaceStateKey then Some(marshal(FinalState(pod, spec, now)))
            else if a != b then b
            else Lookup(pod.annotations, k)
  {
    var spec := SpecFor(from, next);
    AnnotationsAfter(pod.annotations[InPlaceStateKey := marshal(InitialState(spec, now))], from, next, k);
  }

  /** Whether a label key of the next template gets the template's value and not the controller's own. */
  predicate KeepsTemplateLabel(from: Revision, next: Revision, k: Key) {
    || Lookup(from.data.labels, k) != Lookup(next.data.labels, k)
    || OwnLabel(next.name, k).None?
    || OwnLabel(next.name, k) == Lookup(next.data.labels, k)
  }

  /**
   * The whole promise: a pod that agrees with the old template runs the new one's containers, and labels and
   * annotations outside both templates are untouched. It agrees with the new template's labels, or annotations,
   * exactly when no key the controller writes itself overrules one of them.
   */
  lemma InPlacePreservesMeaning(pod: Pod, from: Revision, next: Revision, now: Time, marshal: State -> string)
    requires Step(from, next) && AgreesOnContainers(pod, from.data)
    requires AgreesOnMetadata(pod.labels, from.data.labels)
    requires AgreesOnMetadata(pod.annotations, from.data.annotations)
    ensures
      && var after := InPlaceResult(pod, SpecFor(from, next), now, marshal);
      && AgreesOnContainers(after, next.data)
      && (AgreesOnMetadata(after.labels, next.data.labels)
          <==> forall k | k in next.data.labels :: KeepsTemplateLabel(from, next, k))
      && (AgreesOnMetadata(after.annotations, next.data.annotations)
          <==> InPlaceStateKey in next.data.annotations ==>
                 next.data.annotations[InPlaceStateKey] == marshal(FinalState(pod, SpecFor(from, next), now)))
      && (forall k | k !in from.data.labels && k !in next.data.labels && OwnLabel(next.name, k).None? ::
            Lookup(after.labels, k) == Lookup(pod.labels, k))
      && (forall k | k !in from.data.annotations && k !in next.data.annotations && k != InPlaceStateKey ::
            Lookup(after.annotations, k) == Lookup(pod.annotations, k))
  {
    ContainersFollow(pod, from, next, now, marshal);
    LabelsPreserved(pod, from, next, now, marshal);
    AnnotationsPreserved(pod, from, next, now, marshal);
  }

  lemma LabelsPreserved(pod: Pod, from: Revision, next: Revision, now: Time, marshal: State -> string)
    requires |from.data.containers| == |next.data.containers| && AgreesOnMetadata(pod.labels, from.data.labels)
    ensures
      && var after := InPlaceResult(pod, SpecFor(from, next), now, marshal);
      && (AgreesOnMetadata(after.labels, next.data.labels)
          <==> forall k | k in next.data.labels :: KeepsTemplateLabel(from, next, k))
      && (forall k | k !in from.data.labels && k !in next.data.labels && OwnLabel(next.name, k).None? ::
            Lookup(after.labels, k) == Lookup(pod.labels, k))
  {
    var after := InPlaceResult(pod, SpecFor(from, next), now, marshal);
    forall k | k in next.data.labels
      ensures Lookup(after.labels, k) == Lookup(next.data.labels, k) <==> KeepsTemplateLabel(from, next, k)
    {
      LabelOfResult(pod, from, next, now, marshal, k);
    }
    forall k | k !in from.data.labels && k !in next.data.labels && OwnLabel(next.name, k).None?
      ensures Lookup(after.labels, k) == Lookup(pod.labels, k)
    {
      LabelOfResult(pod, from, next, now, marshal, k);
    }
  }

  lemma AnnotationsPreserved(pod: Pod, from: Revision, next: Revision, now: Time, marshal: State -> string)
    requires |from.data.containers| == |next.data.containers|
    requires AgreesOnMetadata(pod.annotations, from.data.annotations)
    ensures
      && var after := InPlaceResult(pod, SpecFor(from, next), now, marshal);
      && (AgreesOnMetadata(after.annotations, next.data.annotations)
          <==> InPlaceStateKey in next.data.annotations ==>
                 next.data.annotations[InPlaceStateKey] == marshal(FinalState(pod, SpecFor(from, next), now)))
      && (forall k | k !in from.data.annotations && k !in next.data.annotations && k != InPlaceStateKey ::
            Lookup(after.annotations, k) == Lookup(pod.annotations, k))
  {
    var after := InPlaceResult(pod, SpecFor(from, next), now, marshal);
    forall k ensures k != InPlaceStateKey && k in next.data.annotations ==>
      Lookup(after.annotations, k) == Lookup(next.data.annotations, k)
    {
      AnnotationOfResult(pod, from, next, now, marshal, k);
    }
    AnnotationOfResult(pod, from, next, now, marshal, InPlaceStateKey);
    forall k | k !in from.data.annotations && k !in next.data.annotations && k != InPlaceStateKey
      ensures Lookup(after.annotations, k) == Lookup(pod.annotations, k)
    {
      AnnotationOfResult(pod, from, next, now, marshal, k);
    }
  }

  /**
   * The metadata patch is applied after the revision label is written, so the label survives exactly when the two
   * templates agree on its key or the new one happens to hold the same value.
   */
  lemma RevisionLabelSurvives(pod: Pod, from: Revision, next: Revision, now: Time, marshal: State -> string)
    requires |from.data.containers| == |next.data.containers|
    ensures
      && var a, b := Lookup(from.data.labels, RevisionHashKey), Lookup(next.data.labels, RevisionHashKey);
      && var after := InPlaceResult(pod, SpecFor(from, next), now, marshal);
      && (Lookup(after.labels, RevisionHashKey) == Some(next.name) <==> a == b || b == Some(next.name))
  {
  }

  /** No recorded template sets the revision label differently from the update's. */
  predicate Compatible(revisions: seq<Revision>, update: Revision) {
    forall r | r in revisions :: Lookup(r.data.labels, RevisionHashKey) == Lookup(update.data.labels, RevisionHashKey)
  }

  /** A template that starts to set the key takes every pod it updates out of its own revision. */
  lemma TemplateCanHideRevision(pod: Pod, from: Revision, next: Revision, parent: string, mine: string, other: string,
                                now: Time, marshal: State -> string)
    requires Step(from, next) && '-' !in mine && '-' !in other && mine != other
    requires next.name == ControllerRevisionName(parent, mine)
    requires RevisionHashKey !in from.data.labels
    requires Lookup(next.data.labels, RevisionHashKey) == Some(ControllerRevisionName(parent, other))
    ensures !EqualToRevisionHash(InPlaceResult(pod, SpecFor(from, next), now, marshal), next.name)
  {
    var after := InPlaceResult(pod, SpecFor(from, next), now, marshal);
    LabelsAfter(pod.labels, from, next, RevisionHashKey);
    assert RevisionLabel(after) == ControllerRevisionName(parent, other);
    RevisionsOfOneOwner(after, parent, other, mine);
  }

  // ---------- Updates compose ----------

  /** The containers with the images of others. */
  function WithImages(containers: seq<Container>, images: seq<Container>): (r: seq<Container>)
    requires |containers| == |images|
    ensures |r| == |containers| && forall i | 0 <= i < |r| :: r[i] == containers[i].(image := images[i].image)
  {
    seq(|containers|, i requires 0 <= i < |containers| => containers[i].(image := images[i].image))
  }

  /**
   * Updatable in place means: the new template is the old one with other labels, annotations and images and no
   * other change, and every container that had an image has one, and no other.
   */
  lemma UpdatableExactly(prev: Template, next: Template)
    ensures Updatable(prev, next)
       <==> && |prev.containers| == |next.containers|
            && next == prev.(labels := next.labels, annotations := next.annotations,
                             containers := WithImages(prev.containers, next.containers))
            && forall i | 0 <= i < |prev.containers| ::
                 prev.containers[i].image == "" <==> next.containers[i].image == ""
  {
    if Updatable(prev, next) {
      assert next.containers == WithImages(prev.containers, next.containers);
    }
  }

  /** Being updatable in place is an equivalence on templates. */
  lemma UpdatableIsEquivalence(a: Template, b: Template, c: Template)
    ensures Updatable(a, a)
    ensures Updatable(a, b) <==> Updatable(b, a)
    ensures Updatable(a, b) && Updatable(b, c) ==> Updatable(a, c)
  {
  }

  lemma UpdatableSymmetric(a: Template, b: Template)
    requires Updatable(a, b)
    ensures Updatable(b, a)
  {
  }

  /** Updating through b gives the same containers as going straight to c. */
  lemma ContainersCompose(pod: Pod, a: Revision, b: Revision, c: Revision)
    requires Step(a, b) && Step(b, c) && AgreesOnContainers(pod, a.data)
    ensures |a.data.containers| == |b.data.containers| == |c.data.containers|
    ensures PatchContainers(PatchContainers(pod.containers, SpecFor(a, b).images), SpecFor(b, c).images)
         == PatchContainers(pod.containers, SpecFor(a, c).images)
  {
    var x, y, z := a.data.containers, b.data.containers, c.data.containers;
    var xy, yz, xz := ImagesFor(x, y), ImagesFor(y, z), ImagesFor(x, z);
    ImagesMeaning(x, y);
    ImagesMeaning(y, z);
    ImagesMeaning(x, z);
    forall j | 0 <= j < |pod.containers|
      ensures PatchContainers(PatchContainers(pod.containers, xy), yz)[j] == PatchContainers(pod.containers, xz)[j]
    {
      ContainerCompose(pod, a, b, c, j);
    }
  }

  lemma ContainerCompose(pod: Pod, a: Revision, b: Revision, c: Revision, j: nat)
    requires Step(a, b) && Step(b, c) && AgreesOnContainers(pod, a.data) && j < |pod.containers|
    ensures |a.data.containers| == |b.data.containers| == |c.data.containers|
    ensures
      && var x, y, z := a.data.containers, b.data.containers, c.data.containers;
      && PatchContainers(PatchContainers(pod.containers, ImagesFor(x, y)), ImagesFor(y, z))[j]
         == PatchContainers(pod.containers, ImagesFor(x, z))[j]
  {
    var x, y, z := a.data.containers, b.data.containers, c.data.containers;
    var p := pod.containers[j];
    ImagesMeaning(x, y);
    ImagesMeaning(y, z);
    ImagesMeaning(x, z);
    if i :| 0 <= i < |x| && x[i].name == p.name {
      assert Runs(pod.containers, x[i]);
      var l :| 0 <= l < |pod.containers| && pod.containers[l] == x[i];
      assert l == j;
      assert y[i].name == p.name && z[i].name == p.name;
    } else {
      forall i | 0 <= i < |y| ensures y[i].name != p.name {
        assert x[i].name == y[i].name;
      }
      assert p.name !in ImagesFor(x, y) && p.name !in ImagesFor(y, z) && p.name !in ImagesFor(x, z);
    }
  }

  /** When two updates in a row leave the same label under a key as the direct one. */
  predicate LabelComposes(labels: Metadata, a: Revision, b: Revision, c: Revision, k: Key) {
    var x, y, z := Lookup(a.data.labels, k), Lookup(b.data.labels, k), Lookup(c.data.labels, k);
    if OwnLabel(c.name, k).Some? then (x == z) != (y == z) ==> z == OwnLabel(c.name, k)
    else x == z && x != y ==> Lookup(labels, k) == x
  }

  lemma UpdatedLabelsCompose(labels: Metadata, a: Revision, b: Revision, c: Revision, k: Key)
    requires |a.data.containers| == |b.data.containers| == |c.data.containers|
    ensures Lookup(UpdatedLabels(UpdatedLabels(labels, SpecFor(a, b)), SpecFor(b, c)), k)
         == Lookup(UpdatedLabels(labels, SpecFor(a, c)), k)
       <==> LabelComposes(labels, a, b, c, k)
  {
    LabelsAfter(labels, a, b, k);
    LabelsAfter(UpdatedLabels(labels, SpecFor(a, b)), b, c, k);
    LabelsAfter(labels, a, c, k);
  }

  lemma LabelsOfResult(pod: Pod, spec: UpdateSpec, now: Time, marshal: State -> string)
    ensures InPlaceResult(pod, spec, now, marshal).labels == UpdatedLabels(pod.labels, spec)
  {
  }

  /**
   * Key by key, going through b ends with the same label as going straight to c, except that a key which only b
   * changed forgets what the pod had: exactly there the pod must have held what the outer templates say. A key of
   * the controller's own ends the same unless exactly one of a and b says otherwise than c, and c overrules it.
   */
  lemma LabelsCompose(pod: Pod, a: Revision, b: Revision, c: Revision, now: Time, marshal: State -> string, k: Key)
    requires |a.data.containers| == |b.data.containers| == |c.data.containers|
    ensures
      && var through := InPlaceResult(InPlaceResult(pod, SpecFor(a, b), now, marshal), SpecFor(b, c), now, marshal);
      && var direct := InPlaceResult(pod, SpecFor(a, c), now, marshal);
      && (Lookup(through.labels, k) == Lookup(direct.labels, k) <==> LabelComposes(pod.labels, a, b, c, k))
  {
    var middle := InPlaceResult(pod, SpecFor(a, b), now, marshal);
    LabelsOfResult(pod, SpecFor(a, b), now, marshal);
    LabelsOfResult(middle, SpecFor(b, c), now, marshal);
    LabelsOfResult(pod, SpecFor(a, c), now, marshal);
    UpdatedLabelsCompose(pod.labels, a, b, c, k);
  }

  /** The same for annotations, apart from the controller's own state record. */
  lemma AnnotationsCompose(pod: Pod, a: Revision, b: Revision, c: Revision, now: Time, marshal: State -> string, k: Key)
    requires |a.data.containers| == |b.data.containers| == |c.data.containers| && k != InPlaceStateKey
    ensures
      && var x, y, z := Lookup(a.data.annotations, k), Lookup(b.data.annotations, k), Lookup(c.data.annotations, k);
      && var through := InPlaceResult(InPlaceResult(pod, SpecFor(a, b), now, marshal), SpecFor(b, c), now, marshal);
      && var direct := InPlaceResult(pod, SpecFor(a, c), now, marshal);
      && (Lookup(through.annotations, k) == Lookup(direct.annotations, k)
          <==> (x == z && x != y ==> Lookup(pod.annotations, k) == x))
  {
    AnnotationOfResult(pod, a, b, now, marshal, k);
    AnnotationOfResult(InPlaceResult(pod, SpecFor(a, b), now, marshal), b, c, now, marshal, k);
    AnnotationOfResult(pod, a, c, now, marshal, k);
  }

  /** Rolling back restores the containers of any pod that agreed with the template. */
  lemma RollbackRestoresContainers(pod: Pod, a: Revision, b: Revision, now: Time, marshal: State -> string)
    requires Step(a, b) && AgreesOnContainers(pod, a.data)
    ensures
      && var middle := InPlaceResult(pod, SpecFor(a, b), now, marshal);
      && InPlaceResult(middle, SpecFor(b, a), now, marshal).containers == pod.containers
  {
    StepKeepsNames(a, b);
    UpdatableSymmetric(a.data, b.data);
    ContainersCompose(pod, a, b, a);
    NoImagesForSame(a.data.containers);
    assert PatchContainers(pod.containers, SpecFor(a, a).images) == pod.containers;
  }

  function RolledBackLabels(labels: Metadata, a: Revision, b: Revision): Metadata
    requires |a.data.containers| == |b.data.containers|
  {
    UpdatedLabels(UpdatedLabels(labels, SpecFor(a, b)), SpecFor(b, a))
  }

  lemma LabelRolledBack(labels: Metadata, a: Revision, b: Revision, k: Key)
    requires |a.data.containers| == |b.data.containers| && OwnLabel(a.name, k).None?
    requires AgreesOnMetadata(labels, a.data.labels)
    ensures Lookup(RolledBackLabels(labels, a, b), k) == Lookup(labels, k)
       <==> (k in b.data.labels && k !in a.data.labels ==> k !in labels)
  {
    LabelsAfter(labels, a, b, k);
    LabelsAfter(UpdatedLabels(labels, SpecFor(a, b)), b, a, k);
  }

  /**
   * It restores all labels but the controller's own exactly when the pod carried no label that only the other
   * template sets.
   */
  lemma RollbackRestoresLabels(labels: Metadata, a: Revision, b: Revision)
    requires |a.data.containers| == |b.data.containers| && AgreesOnMetadata(labels, a.data.labels)
    ensures (forall k | OwnLabel(a.name, k).None? :: Lookup(RolledBackLabels(labels, a, b), k) == Lookup(labels, k))
       <==> forall k | OwnLabel(a.name, k).None? && k in b.data.labels && k !in a.data.labels :: k !in labels
  {
    forall k | OwnLabel(a.name, k).None?
      ensures Lookup(RolledBackLabels(labels, a, b), k) == Lookup(labels, k)
         <==> (k in b.data.labels && k !in a.data.labels ==> k !in labels)
    {
      LabelRolledBack(labels, a, b, k);
    }
  }

  lemma AnnotationRolledBack(pod: Pod, a: Revision, b: Revision, now: Time, marshal: State -> string, k: Key)
    requires |a.data.containers| == |b.data.containers| && k != InPlaceStateKey
    requires AgreesOnMetadata(pod.annotations, a.data.annotations)
    ensures
      && var back := InPlaceResult(InPlaceResult(pod, SpecFor(a, b), now, marshal), SpecFor(b, a), now, marshal);
      && (Lookup(back.annotations, k) == Lookup(pod.annotations, k)
          <==> (k in b.data.annotations && k !in a.data.annotations ==> k !in pod.annotations))
  {
    AnnotationOfResult(pod, a, b, now, marshal, k);
    AnnotationOfResult(InPlaceResult(pod, SpecFor(a, b), now, marshal), b, a, now, marshal, k);
  }

  /** And all annotations but the state record, under the same condition. */
  lemma RollbackRestoresAnnotations(pod: Pod, a: Revision, b: Revision, now: Time, marshal: State -> string)
    requires |a.data.containers| == |b.data.containers| && AgreesOnMetadata(pod.annotations, a.data.annotations)
    ensures
      && var back := InPlaceResult(InPlaceResult(pod, SpecFor(a, b), now, marshal), SpecFor(b, a), now, marshal);
      && ((forall k | k != InPlaceStateKey :: Lookup(back.annotations, k) == Lookup(pod.annotations, k))
          <==> forall k | k != InPlaceStateKey && k in b.data.annotations && k !in a.data.annotations ::
                 k !in pod.annotations)
  {
    var back := InPlaceResult(InPlaceResult(pod, SpecFor(a, b), now, marshal), SpecFor(b, a), now, marshal);
    forall k | k != InPlaceStateKey
      ensures Lookup(back.annotations, k) == Lookup(pod.annotations, k)
         <==> (k in b.data.annotations && k !in a.data.annotations ==> k !in pod.annotations)
    {
      AnnotationRolledBack(pod, a, b, now, marshal, k);
    }
  }

  lemma {:induction false} NoImagesForSame(containers: seq<Container>)
    ensures ImagesFor(containers, containers) == map[]
  {
    if containers != [] {
      NoImagesForSame(containers[..|containers| - 1]);
    }
  }
}
