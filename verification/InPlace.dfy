/** In-place update: the difference between two templates, and what applying it does to a pod. */
module InPlace {
  import opened Kube
  import opened Templates
  import opened Api

  // ---------- JSON Patch operations between two recorded templates ----------

  datatype OpKind = AddOp | RemoveOp | ReplaceOp

  /** Where an operation points, with the leading /spec/template already dropped. */
  datatype Path = ImagePath(index: nat) | OtherPodSpecPath | MetadataPath | OutsidePath

  datatype Operation = Operation(kind: OpKind, path: Path, value: string)

  predicate MetadataDiffers(prev: Template, next: Template) {
    prev.labels != next.labels || prev.annotations != next.annotations
  }

  predicate ContainersAlike(prev: seq<Container>, next: seq<Container>) {
    |prev| == |next| && forall i | 0 <= i < |prev| :: prev[i].name == next[i].name && prev[i].rest == next[i].rest
  }

  predicate PodSpecDiffers(prev: Template, next: Template) {
    !ContainersAlike(prev.containers, next.containers) || prev.rest != next.rest
  }

  predicate ImageDiffers(prev: Template, next: Template, i: nat) {
    |prev.containers| == |next.containers| && i < |prev.containers|
    && prev.containers[i].image != next.containers[i].image
  }

  /** An absent image is added, a dropped one removed, any other change replaces it. */
  function ImageOpKind(prev: Template, next: Template, i: nat): OpKind
    requires ImageDiffers(prev, next, i)
  {
    if prev.containers[i].image == "" then AddOp
    else if next.containers[i].image == "" then RemoveOp
    else ReplaceOp
  }

  ghost predicate Describes(op: Operation, prev: Template, next: Template) {
    match op.path
    case ImagePath(i) =>
      && ImageDiffers(prev, next, i) && op.kind == ImageOpKind(prev, next, i)
      && (op.kind != RemoveOp ==> op.value == next.containers[i].image)
    case OtherPodSpecPath => PodSpecDiffers(prev, next)
    case MetadataPath => MetadataDiffers(prev, next)
    case OutsidePath => prev.beyond != next.beyond
  }

  ghost predicate Mentions(ops: seq<Operation>, path: Path) {
    exists i | 0 <= i < |ops| :: ops[i].path == path
  }

  /** What the JSON diff of two recorded templates is taken to be: it says what differs, and nothing else. */
  ghost predicate IsDiff(ops: seq<Operation>, prev: Template, next: Template) {
    && (forall i | 0 <= i < |ops| :: Describes(ops[i], prev, next))
    && (MetadataDiffers(prev, next) ==> Mentions(ops, MetadataPath))
    && (PodSpecDiffers(prev, next) ==> Mentions(ops, OtherPodSpecPath))
    && (prev.beyond != next.beyond ==> Mentions(ops, OutsidePath))
    && (forall i: nat | ImageDiffers(prev, next, i) :: Mentions(ops, ImagePath(i)))
  }

  // ---------- CalculateSpec ----------

  /** A strategic merge patch of a string map: a value to set, or None to delete. */
  type Patch = map<Key, Option<string>>

  datatype UpdateSpec = UpdateSpec(revision: string, images: map<string, string>, metadata: Option<MetadataPatch>)

  datatype MetadataPatch = MetadataPatch(labels: Patch, annotations: Patch)

  function TwoWayMerge(prev: Metadata, next: Metadata): Patch {
    map k | k in prev.Keys + next.Keys && Lookup(prev, k) != Lookup(next, k) :: Lookup(next, k)
  }

  function ApplyPatch(m: Metadata, patch: Patch): Metadata {
    map k | k in m.Keys + patch.Keys && (k in patch ==> patch[k].Some?) ::
      if k in patch then patch[k].value else m[k]
  }

  /** The templates differ in images and metadata only, and no image appears or disappears. */
  predicate Updatable(prev: Template, next: Template) {
    && ContainersAlike(prev.containers, next.containers)
    && prev.rest == next.rest && prev.beyond == next.beyond
    && forall i | 0 <= i < |prev.containers| ::
         prev.containers[i].image == "" <==> next.containers[i].image == ""
  }

  /** The changed images by container name. */
  function ImagesFor(prev: seq<Container>, next: seq<Container>): map<string, string>
    requires |prev| == |next|
  {
    if prev == [] then map[]
    else
      var last := |prev| - 1;
      var before := ImagesFor(prev[..last], next[..last]);
      if prev[last].image != next[last].image then before[prev[last].name := next[last].image] else before
  }

  function SpecFor(prev: Revision, next: Revision): UpdateSpec
    requires |prev.data.containers| == |next.data.containers|
  {
    UpdateSpec(next.name,
               ImagesFor(prev.data.containers, next.data.containers),
               if MetadataDiffers(prev.data, next.data) then
                 Some(MetadataPatch(TwoWayMerge(prev.data.labels, next.data.labels),
                                    TwoWayMerge(prev.data.annotations, next.data.annotations)))
               else None)
  }

  lemma {:induction false} ImagesMeaning(prev: seq<Container>, next: seq<Container>)
    requires |prev| == |next| && UniqueNames(prev)
    ensures forall i | 0 <= i < |prev| ::
      && (prev[i].name in ImagesFor(prev, next) <==> prev[i].image != next[i].image)
      && (prev[i].image != next[i].image ==> ImagesFor(prev, next)[prev[i].name] == next[i].image)
    ensures forall name | name in ImagesFor(prev, next) :: exists i | 0 <= i < |prev| :: prev[i].name == name
  {
    if prev != [] {
      var last := |prev| - 1;
      ImagesMeaning(prev[..last], next[..last]);
      forall name | name in ImagesFor(prev, next) ensures exists i | 0 <= i < |prev| :: prev[i].name == name {
        if name in ImagesFor(prev[..last], next[..last]) {
          var i :| 0 <= i < last && prev[..last][i].name == name;
          assert prev[i].name == name;
        } else {
          assert prev[last].name == name;
        }
      }
    }
  }

  ghost predicate ReadFrom(name: string, image: string, prev: Template, next: Template) {
    exists i: nat | ImageDiffers(prev, next, i) ::
      prev.containers[i].name == name && next.containers[i].image == image
  }

  /** The images read so far: each is a changed one, and each operation passed has been recorded. */
  ghost predicate ImagesRead(images: map<string, string>, ops: seq<Operation>, prev: Template, next: Template) {
    && (forall name | name in images :: ReadFrom(name, images[name], prev, next))
    && (forall k | 0 <= k < |ops| && ops[k].path.ImagePath? ::
          ops[k].path.index < |prev.containers| && prev.containers[ops[k].path.index].name in images)
  }

  lemma ReadImageIsChanged(name: string, image: string, prev: Template, next: Template)
    requires |prev.containers| == |next.containers| && UniqueNames(prev.containers) && ReadFrom(name, image, prev, next)
    ensures
      && var images := ImagesFor(prev.containers, next.containers);
      && name in images && images[name] == image
  {
    ImagesMeaning(prev.containers, next.containers);
    var i: nat :| ImageDiffers(prev, next, i) && prev.containers[i].name == name && next.containers[i].image == image;
  }

  lemma ChangedImageIsRead(images: map<string, string>, ops: seq<Operation>, prev: Template, next: Template,
                           name: string)
    requires IsDiff(ops, prev, next) && UniqueNames(prev.containers) && |prev.containers| == |next.containers|
    requires ImagesRead(images, ops, prev, next) && name in ImagesFor(prev.containers, next.containers)
    ensures name in images
  {
    ImagesMeaning(prev.containers, next.containers);
    var i :| 0 <= i < |prev.containers| && prev.containers[i].name == name;
    assert ImageDiffers(prev, next, i);
    var k :| 0 <= k < |ops| && ops[k].path == ImagePath(i);
  }

  lemma ImagesReadAll(images: map<string, string>, ops: seq<Operation>, prev: Template, next: Template)
    requires IsDiff(ops, prev, next) && UniqueNames(prev.containers) && |prev.containers| == |next.containers|
    requires ImagesRead(images, ops, prev, next)
    ensures images == ImagesFor(prev.containers, next.containers)
  {
    var expected := ImagesFor(prev.containers, next.containers);
    forall name | name in images ensures name in expected && expected[name] == images[name] {
      ReadImageIsChanged(name, images[name], prev, next);
    }
    forall name | name in expected ensures name in images {
      ChangedImageIsRead(images, ops, prev, next, name);
    }
  }

  /** An operation the spec cannot hold: outside the template, under the pod spec but no image, or no replacement. */
  predicate Blocks(op: Operation, prev: Template) {
    || op.path.OutsidePath? || op.path.OtherPodSpecPath?
    || (op.path.ImagePath? && (op.kind != ReplaceOp || |prev.containers| <= op.path.index))
  }

  lemma BlockedIsNotUpdatable(op: Operation, prev: Template, next: Template)
    requires Describes(op, prev, next) && Blocks(op, prev)
    ensures !Updatable(prev, next)
  {
  }

  /** When no operation blocks, the templates are updatable. */
  lemma UnblockedIsUpdatable(ops: seq<Operation>, prev: Template, next: Template)
    requires IsDiff(ops, prev, next) && forall k | 0 <= k < |ops| :: !Blocks(ops[k], prev)
    ensures Updatable(prev, next)
    ensures MetadataDiffers(prev, next) <==> Mentions(ops, MetadataPath)
  {
    forall i | 0 <= i < |prev.containers| && ImageDiffers(prev, next, i)
      ensures prev.containers[i].image != "" && next.containers[i].image != ""
    {
      var k :| 0 <= k < |ops| && ops[k].path == ImagePath(i);
      assert Describes(ops[k], prev, next);
    }
  }

  lemma ImageReadStep(images: map<string, string>, ops: seq<Operation>, op: Operation, prev: Template, next: Template)
    requires ImagesRead(images, ops, prev, next) && Describes(op, prev, next) && !Blocks(op, prev)
    ensures ImagesRead(if op.path.ImagePath? then images[prev.containers[op.path.index].name := op.value] else images,
                       ops + [op], prev, next)
  {
  }

  method CalculateSpec(oldRevision: Option<Revision>, newRevision: Option<Revision>, patches: seq<Operation>)
    returns (r: Option<UpdateSpec>)
    requires oldRevision.Some? && newRevision.Some? ==>
      IsDiff(patches, oldRevision.value.data, newRevision.value.data)
    ensures r.Some? <==>
      oldRevision.Some? && newRevision.Some? && Updatable(oldRevision.value.data, newRevision.value.data)
    ensures r.Some? && UniqueNames(oldRevision.value.data.containers) ==>
      r.value == SpecFor(oldRevision.value, newRevision.value)
  {
    if oldRevision.None? || newRevision.None? {
      return None;
    }
    var prev, next := oldRevision.value.data, newRevision.value.data;
    var images: map<string, string> := map[];
    var metadataPatches := false;
    for k := 0 to |patches|
      invariant ImagesRead(images, patches[..k], prev, next)
      invariant metadataPatches <==> Mentions(patches[..k], MetadataPath)
      invariant forall j | 0 <= j < k :: !Blocks(patches[j], prev)
    {
      var op := patches[k];
      assert Describes(op, prev, next);
      if Blocks(op, prev) {
        BlockedIsNotUpdatable(op, prev, next);
      } else {
        ImageReadStep(images, patches[..k], op, prev, next);
      }
      MentionsStep(patches[..k], op);
      assert patches[..k + 1] == patches[..k] + [op];
      if op.path == MetadataPath || op.path == OutsidePath {
        if op.path == MetadataPath {
          metadataPatches := true;
          continue;
        }
        return None;
      }
      if op.kind != ReplaceOp {
        return None;
      }
      if op.path.ImagePath? {
        var idx := op.path.index;
        if |prev.containers| <= idx {
          return None;
        }
        images := images[prev.containers[idx].name := op.value];
        continue;
      }
      return None;
    }
    assert patches[..|patches|] == patches;
    UnblockedIsUpdatable(patches, prev, next);
    if UniqueNames(prev.containers) {
      ImagesReadAll(images, patches, prev, next);
    }
    r := Some(UpdateSpec(newRevision.value.name, images,
                         if metadataPatches then
                           Some(MetadataPatch(TwoWayMerge(prev.labels, next.labels),
                                              TwoWayMerge(prev.annotations, next.annotations)))
                         else None));
  }

  lemma MentionsStep(ops: seq<Operation>, op: Operation)
    ensures Mentions(ops + [op], MetadataPath) <==> Mentions(ops, MetadataPath) || op.path == MetadataPath
  {
    var all := ops + [op];
    assert all[|ops|] == op;
    forall i | 0 <= i < |ops| ensures all[i] == ops[i] {
    }
  }

  // ---------- Applying an update to a pod ----------

  datatype ContainerBatch = ContainerBatch(timestamp: Time, containers: set<string>)

  datatype State = State(
    revision: string,
    updateTimestamp: Time,
    updateImages: bool,
    lastImageIDs: map<string, string>,
    nextImages: map<string, string>,
    requiredReady: Option<set<string>>,
    batches: seq<ContainerBatch>)

  function PatchContainers(containers: seq<Container>, images: map<string, string>): (r: seq<Container>)
    ensures |r| == |containers|
    ensures forall i | 0 <= i < |r| ::
      var c := containers[i];
      r[i] == if c.name in images then c.(image := images[c.name]) else c
  {
    seq(|containers|, i requires 0 <= i < |containers| =>
      if containers[i].name in images then containers[i].(image := images[containers[i].name]) else containers[i])
  }

  function NamesToUpdate(containers: seq<Container>, images: map<string, string>): set<string> {
    set c | c in containers && c.name in images :: c.name
  }

  /** The image ids before the update, by container; of several statuses with one name the first counts. */
  function LastImageIDs(statuses: seq<ContainerStatus>, changed: set<string>): map<string, string> {
    if statuses == [] then map[]
    else
      var before := LastImageIDs(statuses[..|statuses| - 1], changed);
      var s := statuses[|statuses| - 1];
      if s.name in changed && s.name !in before then before[s.name := s.imageID] else before
  }

  function InitialState(spec: UpdateSpec, now: Time): State {
    State(spec.revision, now, spec.images != map[], map[], map[], None, [])
  }

  /** No container waits for a next batch, so nothing has to become ready first. */
  function FinalState(pod: Pod, spec: UpdateSpec, now: Time): State {
    var updated := NamesToUpdate(pod.containers, spec.images);
    InitialState(spec, now).(lastImageIDs := LastImageIDs(pod.statuses, updated),
                             batches := [ContainerBatch(now, updated)])
  }

  function UpdatedLabels(labels: Metadata, spec: UpdateSpec): Metadata {
    var labelled := WriteRevisionHash(labels, spec.revision);
    if spec.metadata.Some? then ApplyPatch(labelled, spec.metadata.value.labels) else labelled
  }

  function PatchedAnnotations(annotations: Metadata, spec: UpdateSpec): Metadata {
    if spec.metadata.Some? then ApplyPatch(annotations, spec.metadata.value.annotations) else annotations
  }

  /** The pod after one in-place update: labels first, then the metadata patch, the images, and the state record. */
  function InPlaceResult(pod: Pod, spec: UpdateSpec, now: Time, marshal: State -> string): Pod {
    var annotations := pod.annotations[InPlaceStateKey := marshal(InitialState(spec, now))];
    pod.(labels := UpdatedLabels(pod.labels, spec),
         annotations := PatchedAnnotations(annotations, spec)[InPlaceStateKey := marshal(FinalState(pod, spec, now))],
         containers := PatchContainers(pod.containers, spec.images))
  }

  /** The loop that collects the containers to update. */
  method ContainersToUpdate(containers: seq<Container>, images: map<string, string>) returns (names: set<string>)
    ensures names == NamesToUpdate(containers, images)
  {
    names := {};
    for i := 0 to |containers|
      invariant names == NamesToUpdate(containers[..i], images)
    {
      assert containers[..i + 1] == containers[..i] + [containers[i]];
      if containers[i].name in images {
        names := names + {containers[i].name};
      }
    }
    assert containers[..|containers|] == containers;
  }

  /** The loop that sets images, in place, for the containers to update and defers the others. */
  method UpdateImages(containers0: seq<Container>, images: map<string, string>, toUpdate: set<string>)
    returns (containers: seq<Container>, changed: set<string>, deferred: map<string, string>)
    requires toUpdate == NamesToUpdate(containers0, images)
    ensures containers == PatchContainers(containers0, images)
    ensures changed == toUpdate && deferred == map[]
  {
    containers, changed, deferred := containers0, {}, map[];
    for i := 0 to |containers|
      invariant |containers| == |containers0|
      invariant forall k | 0 <= k < i :: containers[k] == PatchContainers(containers0, images)[k]
      invariant forall k | i <= k < |containers| :: containers[k] == containers0[k]
      invariant changed == NamesToUpdate(containers0[..i], images)
      invariant deferred == map[]
    {
      var c := containers[i];
      assert c == containers0[i] && c in containers0;
      assert containers0[..i + 1] == containers0[..i] + [c];
      if c.name in images {
        if c.name in toUpdate {
          containers := containers[i := c.(image := images[c.name])];
          changed := changed + {c.name};
        } else {
          deferred := deferred[c.name := images[c.name]];
        }
      }
    }
    assert containers0[..|containers0|] == containers0;
  }

  /** Of several statuses with one changed container's name the first counts; nothing else is recorded. */
  lemma {:induction false} FirstStatusWins(statuses: seq<ContainerStatus>, changed: set<string>, name: string)
    ensures
      && var ids := LastImageIDs(statuses, changed);
      && (name in ids <==> name in changed && exists i | 0 <= i < |statuses| :: statuses[i].name == name)
      && forall i | 0 <= i < |statuses| ::
           name in changed && statuses[i].name == name && (forall j | 0 <= j < i :: statuses[j].name != name) ==>
             name in ids && ids[name] == statuses[i].imageID
  {
    if statuses != [] {
      var front, last := statuses[..|statuses| - 1], statuses[|statuses| - 1];
      FirstStatusWins(front, changed, name);
      assert forall i | 0 <= i < |front| :: front[i] == statuses[i];
      assert statuses[|front|] == last;
    }
  }

  /** The loop that records the image ids of the changed containers. */
  method RecordImageIDs(statuses: seq<ContainerStatus>, changed: set<string>) returns (ids: map<string, string>)
    ensures ids == LastImageIDs(statuses, changed)
  {
    ids := map[];
    for i := 0 to |statuses|
      invariant ids == LastImageIDs(statuses[..i], changed)
    {
      assert statuses[..i + 1][..i] == statuses[..i];
      if statuses[i].name in changed && statuses[i].name !in ids {
        ids := ids[statuses[i].name := statuses[i].imageID];
      }
    }
    assert statuses[..|statuses|] == statuses;
  }

  /**
   * What the state record of a pod tells: the revision and the moment, whether images change, one batch with the
   * containers that get a new image, and for each of those that has a status the image id of the first one.
   */
  lemma StateRecord(pod: Pod, spec: UpdateSpec, now: Time, name: string)
    ensures
      && var state := FinalState(pod, spec, now);
      && var updated := name in spec.images && exists c | c in pod.containers :: c.name == name;
      && state.revision == spec.revision && state.updateTimestamp == now
      && (state.updateImages <==> spec.images != map[])
      && state.nextImages == map[] && state.requiredReady == None
      && |state.batches| == 1 && state.batches[0].timestamp == now
      && (name in state.batches[0].containers <==> updated)
      && (name in state.lastImageIDs <==> updated && exists i | 0 <= i < |pod.statuses| :: pod.statuses[i].name == name)
      && forall i | 0 <= i < |pod.statuses| ::
           updated && pod.statuses[i].name == name && (forall j | 0 <= j < i :: pod.statuses[j].name != name) ==>
             name in state.lastImageIDs && state.lastImageIDs[name] == pod.statuses[i].imageID
  {
    FirstStatusWins(pod.statuses, NamesToUpdate(pod.containers, spec.images), name);
  }

  method DefaultPatchUpdateSpecToPod(pod0: Pod, spec: UpdateSpec, state0: State, now: Time, marshal: State -> string)
    returns (pod: Pod, state: State)
    requires state0 == InitialState(spec, now)
    ensures state == FinalState(pod0, spec, now)
    ensures pod == pod0.(
      labels := if spec.metadata.Some? then ApplyPatch(pod0.labels, spec.metadata.value.labels) else pod0.labels,
      annotations := PatchedAnnotations(pod0.annotations, spec)[InPlaceStateKey := marshal(state)],
      containers := PatchContainers(pod0.containers, spec.images))
  {
    pod, state := pod0, state0;
    if spec.metadata.Some? {
      pod := pod.(labels := ApplyPatch(pod.labels, spec.metadata.value.labels),
                  annotations := ApplyPatch(pod.annotations, spec.metadata.value.annotations));
    }
    var toUpdate := ContainersToUpdate(pod.containers, spec.images);
    var containers, changed, deferred := UpdateImages(pod.containers, spec.images, toUpdate);
    pod := pod.(containers := containers);
    var ids := RecordImageIDs(pod.statuses, changed);
    state := state.(nextImages := deferred,
                    lastImageIDs := ids,
                    requiredReady := if deferred != map[] then Some(toUpdate) else None,
                    batches := state.batches + [ContainerBatch(now, toUpdate)]);
    pod := pod.(annotations := pod.annotations[InPlaceStateKey := marshal(state)]);
  }

  /** Read-modify-write with up to four attempts on conflicts. Nothing is written unless it is the whole update. */
  method UpdatePodInPlace(server: ApiServer, name: string, spec: UpdateSpec, now: Time, marshal: State -> string)
    returns (stored: Option<Pod>)
    requires server.Valid()
    modifies server
    ensures server.Valid()
    ensures stored.None? ==> server.writes == old(server.writes) && server.pods == old(server.pods)
    ensures stored.Some? ==>
      && server.writes == old(server.writes) + [Replaced(stored.value)]
      && exists p | p in old(server.pods) && p.name == name ::
           stored.value == InPlaceResult(p, spec, now, marshal).(resourceVersion := stored.value.resourceVersion)
  {
    var attempt := 0;
    while attempt < 4
      invariant server.Valid() && server.writes == old(server.writes)
      decreases 4 - attempt
    {
      var got := server.Get(name);
      if got.None? {
        return None;
      }
      var clone := got.value.(labels := WriteRevisionHash(got.value.labels, spec.revision));
      var state := State(spec.revision, now, spec.images != map[], map[], map[], None, []);
      clone := clone.(annotations := clone.annotations[InPlaceStateKey := marshal(state)]);
      clone, state := DefaultPatchUpdateSpecToPod(clone, spec, state, now, marshal);
      assert clone == InPlaceResult(got.value, spec, now, marshal);
      stored := server.Replace(clone);
      if stored.Some? {
        return;
      }
      var conflict := *;
      if !conflict {
        return None;
      }
      attempt := attempt + 1;
    }
    return None;
  }
}
