/** The Kubernetes objects the controller reads and writes, and the tests it makes on one pod. */
module Kube {

  datatype Option<+T> = None | Some(value: T)

  datatype Phase = Pending | Running | Succeeded | Failed | Unknown

  /** A timestamp. Zero is the unset time. */
  type Time = int

  datatype Condition = Condition(ready: bool, isTrue: bool, lastTransition: Time)

  datatype ContainerStatus = ContainerStatus(name: string, imageID: string, restartCount: int)

  /** `rest` stands for every container field other than its name and image. */
  datatype Container = Container(name: string, image: string, rest: string)

  /** Label and annotation keys. The controller writes the named ones itself. */
  datatype Key =
    | RevisionHashKey
    | PodTemplateHashKey
    | InstanceIDKey
    | SpecifiedDeleteKey
    | InPlaceStateKey
    | OtherKey(text: string)

  type Metadata = map<Key, string>

  /** The controlling owner of a pod. `group` is None when its API version does not parse. */
  datatype OwnerRef = OwnerRef(group: Option<string>, kind: string, name: string)

  /**
   * `deleting` tells whether the deletion timestamp is set, and `availableSince` whether the pod has been ready
   * for minReadySeconds at the time of the pass.
   */
  datatype Pod = Pod(
    name: string,
    uid: string,
    resourceVersion: string,
    labels: Metadata,
    annotations: Metadata,
    owner: Option<OwnerRef>,
    created: Time,
    deleting: bool,
    nodeName: string,
    containers: seq<Container>,
    phase: Phase,
    conditions: seq<Condition>,
    statuses: seq<ContainerStatus>,
    availableSince: bool)

  predicate IsRunning(p: Pod) {
    p.phase.Running?
  }

  predicate IsPodAvailable(p: Pod) {
    p.phase.Running? && p.availableSince
  }

  predicate IsSpecifiedDelete(p: Pod) {
    SpecifiedDeleteKey in p.labels
  }

  // ---------- Revision hashes ----------

  /** The part of a revision name after its last dash. */
  function ShortHash(hash: string): string {
    if hash == "" || hash[|hash| - 1] == '-' then ""
    else ShortHash(hash[..|hash| - 1]) + [hash[|hash| - 1]]
  }

  lemma {:induction false} ShortHashHasNoDash(hash: string, i: nat)
    requires i < |ShortHash(hash)|
    ensures ShortHash(hash)[i] != '-'
  {
    var front := hash[..|hash| - 1];
    if i < |ShortHash(front)| {
      ShortHashHasNoDash(front, i);
    }
  }

  /** The short hash is the end of the name that starts after its last dash, or all of it. */
  lemma {:induction false} ShortHashIsSuffix(hash: string) returns (cut: nat)
    ensures cut <= |hash| && ShortHash(hash) == hash[cut..]
    ensures cut == 0 || hash[cut - 1] == '-'
  {
    if hash == "" || hash[|hash| - 1] == '-' {
      cut := |hash|;
    } else {
      cut := ShortHashIsSuffix(hash[..|hash| - 1]);
      assert hash[cut..] == hash[..|hash| - 1][cut..] + [hash[|hash| - 1]];
    }
  }

  function RevisionLabel(p: Pod): string {
    if RevisionHashKey in p.labels then p.labels[RevisionHashKey] else ""
  }

  /** Whether a pod belongs to the revision called `hash`; the prefix before the last dash is ignored. */
  predicate EqualToRevisionHash(p: Pod, hash: string) {
    RevisionLabel(p) == hash || ShortHash(hash) == ShortHash(RevisionLabel(p))
  }

  /** Labels a pod with its revision: the full name under one key, the short hash under the other. */
  function WriteRevisionHash(labels: Metadata, hash: string): (r: Metadata) {
    labels[RevisionHashKey := hash][PodTemplateHashKey := ShortHash(hash)]
  }

  function ControllerRevisionName(parent: string, hash: string): string {
    parent + "-" + hash
  }

  /** Dropping everything up to the last dash gives back the hash a revision name was built from. */
  lemma {:induction false} ShortHashOfName(parent: string, hash: string)
    requires '-' !in hash
    ensures ShortHash(ControllerRevisionName(parent, hash)) == hash
  {
    var name := ControllerRevisionName(parent, hash);
    if hash != "" {
      var front := hash[..|hash| - 1];
      assert name[..|name| - 1] == ControllerRevisionName(parent, front);
      ShortHashOfName(parent, front);
      assert hash == front + [hash[|hash| - 1]];
    }
  }

  /** For revisions of one owner the loose comparison by short hash is exact. */
  lemma RevisionsOfOneOwner(p: Pod, parent: string, mine: string, other: string)
    requires '-' !in mine && '-' !in other
    requires RevisionLabel(p) == ControllerRevisionName(parent, mine)
    ensures EqualToRevisionHash(p, ControllerRevisionName(parent, other)) <==> mine == other
  {
    ShortHashOfName(parent, mine);
    ShortHashOfName(parent, other);
  }

  /** A pod labelled with the bare hash, as older labels are, belongs to the revision too. */
  lemma ShortLabelMatches(p: Pod, parent: string, hash: string)
    requires '-' !in hash && RevisionLabel(p) in {hash, ControllerRevisionName(parent, hash)}
    ensures EqualToRevisionHash(p, ControllerRevisionName(parent, hash))
  {
    ShortHashOfName(parent, hash);
    ShortHashOfDashless(hash);
  }

  lemma {:induction false} ShortHashOfDashless(hash: string)
    requires '-' !in hash
    ensures ShortHash(hash) == hash
  {
    if hash != "" {
      assert hash == hash[..|hash| - 1] + [hash[|hash| - 1]];
      ShortHashOfDashless(hash[..|hash| - 1]);
    }
  }

  // ---------- Counting pods by kind ----------

  datatype Tri = Any | Yes | No

  /** A class of pods: at the update revision or not, marked for deletion or not, running or not, available or not. */
  datatype Class = Class(updated: Tri, marked: Tri, running: Tri, available: Tri)

  predicate Admits(t: Tri, b: bool) {
    t.Any? || (t.Yes? <==> b)
  }

  predicate InClass(c: Class, p: Pod, revision: string) {
    && Admits(c.updated, EqualToRevisionHash(p, revision))
    && Admits(c.marked, IsSpecifiedDelete(p))
    && Admits(c.running, IsRunning(p))
    && Admits(c.available, IsPodAvailable(p))
  }

  const EVERY := Class(Any, Any, Any, Any)
  const UPDATED := Class(Yes, Any, Any, Any)
  const OUTDATED := Class(No, Any, Any, Any)
  const MARKED := Class(Any, Yes, Any, Any)
  const KEPT_OUTDATED := Class(No, No, Any, Any)
  const KEPT_UPDATED := Class(Yes, No, Any, Any)
  const RUNNING := Class(Any, Any, Yes, Any)

  function One(c: Class, p: Pod, revision: string): nat {
    if InClass(c, p, revision) then 1 else 0
  }

  function Count(c: Class, pods: seq<Pod>, revision: string): nat {
    if pods == [] then 0
    else Count(c, pods[..|pods| - 1], revision) + One(c, pods[|pods| - 1], revision)
  }

  /** The pods of one class, in their listed order. */
  function Select(c: Class, pods: seq<Pod>, revision: string): seq<Pod> {
    if pods == [] then []
    else
      var front := Select(c, pods[..|pods| - 1], revision);
      if InClass(c, pods[|pods| - 1], revision) then front + [pods[|pods| - 1]] else front
  }

  ghost predicate DistinctNames(pods: seq<Pod>) {
    forall i, j | 0 <= i < j < |pods| :: pods[i].name != pods[j].name
  }

  lemma {:induction false} CountAppend(c: Class, a: seq<Pod>, b: seq<Pod>, revision: string)
    ensures Count(c, a + b, revision) == Count(c, a, revision) + Count(c, b, revision)
  {
    if b == [] {
      assert a + b == a;
    } else {
      var front := b[..|b| - 1];
      assert (a + b)[..|a + b| - 1] == a + front;
      CountAppend(c, a, front, revision);
    }
  }

  lemma {:induction false} CountOne(c: Class, p: Pod, revision: string)
    ensures Count(c, [p], revision) == One(c, p, revision)
  {
  }

  /** The places in the list that hold a pod of the class. */
  ghost function Places(c: Class, pods: seq<Pod>, revision: string): set<nat> {
    set i: nat | i < |pods| && InClass(c, pods[i], revision)
  }

  lemma PlacesStep(c: Class, pods: seq<Pod>, revision: string)
    requires pods != []
    ensures
      && var last := |pods| - 1;
      && Places(c, pods, revision)
         == Places(c, pods[..last], revision) + if InClass(c, pods[last], revision) then {last} else {}
  {
  }

  lemma {:induction false} CountIsCardinality(c: Class, pods: seq<Pod>, revision: string)
    ensures Count(c, pods, revision) == |Places(c, pods, revision)|
  {
    if pods == [] {
      assert Places(c, pods, revision) == {};
    } else {
      var last := |pods| - 1;
      CountIsCardinality(c, pods[..last], revision);
      PlacesStep(c, pods, revision);
      assert last !in Places(c, pods[..last], revision);
    }
  }

  /** Taking one pod out of a list lowers the count of each class it is in by one. */
  lemma CountWithout(c: Class, pods: seq<Pod>, i: nat, revision: string)
    requires i < |pods|
    ensures Count(c, pods, revision)
         == Count(c, pods[..i] + pods[i + 1..], revision) + One(c, pods[i], revision)
  {
    assert pods == pods[..i] + [pods[i]] + pods[i + 1..];
    CountAppend(c, pods[..i] + [pods[i]], pods[i + 1..], revision);
    CountAppend(c, pods[..i], [pods[i]], revision);
    CountAppend(c, pods[..i], pods[i + 1..], revision);
    CountOne(c, pods[i], revision);
  }

  ghost predicate Distinct<T>(s: seq<T>) {
    forall i, j | 0 <= i < j < |s| :: s[i] != s[j]
  }

  ghost function Elements<T(!new)>(s: seq<T>): set<T> {
    set x | x in s
  }

  lemma {:induction false} SubsetSize<T>(a: set<T>, b: set<T>)
    requires a <= b
    ensures |a| <= |b|
    decreases a
  {
    if a != {} {
      var x :| x in a;
      SubsetSize(a - {x}, b - {x});
    }
  }

  lemma MultisetWithout<T>(s: seq<T>, i: nat)
    requires i < |s|
    ensures multiset(s[..i] + s[i + 1..]) == multiset(s) - multiset{s[i]}
  {
    assert s == s[..i] + ([s[i]] + s[i + 1..]);
  }

  /** Removing the last element of one list and any equal element of a permutation leaves permutations. */
  lemma PermutationShrinks<T>(a: seq<T>, b: seq<T>) returns (i: nat)
    requires a != [] && multiset(a) == multiset(b)
    ensures i < |b| && b[i] == a[|a| - 1]
    ensures multiset(a[..|a| - 1]) == multiset(b[..i] + b[i + 1..])
  {
    var last := |a| - 1;
    assert a[last] in multiset(b);
    i :| 0 <= i < |b| && b[i] == a[last];
    MultisetWithout(a, last);
    MultisetWithout(b, i);
    assert a[..last] + a[last + 1..] == a[..last];
  }

  /** Counts do not depend on the order of the list. */
  lemma {:induction false} CountPermuted(c: Class, a: seq<Pod>, b: seq<Pod>, revision: string)
    requires multiset(a) == multiset(b)
    ensures Count(c, a, revision) == Count(c, b, revision)
    decreases |a|
  {
    if a == [] {
      assert |multiset(b)| == 0;
    } else {
      var i := PermutationShrinks(a, b);
      CountPermuted(c, a[..|a| - 1], b[..i] + b[i + 1..], revision);
      CountWithout(c, b, i, revision);
    }
  }

  /** Each attribute splits a count in two. */
  lemma {:induction false} CountSplit(c: Class, pods: seq<Pod>, revision: string)
    ensures
      && var n := Count(c, pods, revision);
      && (c.updated.Any? ==>
            n == Count(c.(updated := Yes), pods, revision) + Count(c.(updated := No), pods, revision))
      && (c.marked.Any? ==>
            n == Count(c.(marked := Yes), pods, revision) + Count(c.(marked := No), pods, revision))
      && (c.running.Any? ==>
            n == Count(c.(running := Yes), pods, revision) + Count(c.(running := No), pods, revision))
      && (c.available.Any? ==>
            n == Count(c.(available := Yes), pods, revision) + Count(c.(available := No), pods, revision))
  {
    if pods != [] {
      CountSplit(c, pods[..|pods| - 1], revision);
    }
  }

  lemma {:induction false} CountBound(c: Class, pods: seq<Pod>, revision: string)
    ensures Count(c, pods, revision) <= |pods|
    ensures c == EVERY ==> Count(c, pods, revision) == |pods|
  {
    if pods != [] {
      CountBound(c, pods[..|pods| - 1], revision);
    }
  }

  /** A class whose tests every pod passes counts them all. */
  lemma {:induction false} CountAll(c: Class, pods: seq<Pod>, revision: string)
    requires forall i | 0 <= i < |pods| :: InClass(c, pods[i], revision)
    ensures Count(c, pods, revision) == |pods|
  {
    if pods != [] {
      CountAll(c, pods[..|pods| - 1], revision);
      assert InClass(c, pods[|pods| - 1], revision);
    }
  }

  /** A class is empty exactly when its count is zero. */
  lemma {:induction false} CountNone(c: Class, pods: seq<Pod>, revision: string)
    requires forall i | 0 <= i < |pods| :: !InClass(c, pods[i], revision)
    ensures Count(c, pods, revision) == 0
  {
    if pods != [] {
      CountNone(c, pods[..|pods| - 1], revision);
      assert !InClass(c, pods[|pods| - 1], revision);
    }
  }

  lemma {:induction false} SelectLength(c: Class, pods: seq<Pod>, revision: string)
    ensures |Select(c, pods, revision)| == Count(c, pods, revision)
  {
    if pods != [] {
      SelectLength(c, pods[..|pods| - 1], revision);
    }
  }

  /** Every selected pod comes from the list and is in the class. */
  lemma {:induction false} SelectSound(c: Class, pods: seq<Pod>, k: nat, revision: string)
    requires k < |Select(c, pods, revision)|
    ensures Select(c, pods, revision)[k] in pods && InClass(c, Select(c, pods, revision)[k], revision)
  {
    var front := pods[..|pods| - 1];
    if k < |Select(c, front, revision)| {
      SelectSound(c, front, k, revision);
    }
  }

  lemma NameNotLast(pods: seq<Pod>, p: Pod)
    requires DistinctNames(pods) && pods != [] && p in pods[..|pods| - 1]
    ensures p.name != pods[|pods| - 1].name
  {
  }

  lemma DistinctExtend(pods: seq<Pod>, p: Pod)
    requires DistinctNames(pods) && forall k | 0 <= k < |pods| :: pods[k].name != p.name
    ensures DistinctNames(pods + [p])
  {
  }

  /** Unique names do not depend on the order of the list. */
  lemma {:induction false} NamesPermuted(a: seq<Pod>, b: seq<Pod>)
    requires multiset(a) == multiset(b) && DistinctNames(b)
    ensures DistinctNames(a)
    decreases |a|
  {
    if a != [] {
      var i := PermutationShrinks(a, b);
      var front, rest := a[..|a| - 1], b[..i] + b[i + 1..];
      NamesPermuted(front, rest);
      forall k | 0 <= k < |front| ensures front[k].name != b[i].name {
        assert front[k] in multiset(rest);
        assert front[k] in rest;
      }
      DistinctExtend(front, b[i]);
      assert a == front + [b[i]];
    }
  }

  lemma {:induction false} SelectDistinct(c: Class, pods: seq<Pod>, revision: string)
    requires DistinctNames(pods)
    ensures DistinctNames(Select(c, pods, revision))
  {
    if pods != [] {
      var front, last := pods[..|pods| - 1], pods[|pods| - 1];
      var chosen := Select(c, front, revision);
      SelectDistinct(c, front, revision);
      forall k | 0 <= k < |chosen| ensures chosen[k].name != last.name {
        SelectSound(c, front, k, revision);
        NameNotLast(pods, chosen[k]);
      }
      DistinctExtend(chosen, last);
      assert Select(c, pods, revision) == chosen || Select(c, pods, revision) == chosen + [last];
    }
  }

  lemma {:induction false} SelectContains(c: Class, pods: seq<Pod>, i: nat, revision: string)
    requires i < |pods| && InClass(c, pods[i], revision)
    ensures pods[i] in Select(c, pods, revision)
  {
    if i < |pods| - 1 {
      SelectContains(c, pods[..|pods| - 1], i, revision);
    }
  }

  /** Select returns exactly the pods of the class, each once. */
  lemma SelectMeaning(c: Class, pods: seq<Pod>, revision: string)
    ensures |Select(c, pods, revision)| == Count(c, pods, revision)
    ensures forall p :: p in Select(c, pods, revision) <==> p in pods && InClass(c, p, revision)
    ensures DistinctNames(pods) ==> DistinctNames(Select(c, pods, revision))
  {
    SelectLength(c, pods, revision);
    if DistinctNames(pods) {
      SelectDistinct(c, pods, revision);
    }
    forall p | p in Select(c, pods, revision) ensures p in pods && InClass(c, p, revision) {
      var k :| 0 <= k < |Select(c, pods, revision)| && Select(c, pods, revision)[k] == p;
      SelectSound(c, pods, k, revision);
    }
    forall p | p in pods && InClass(c, p, revision) ensures p in Select(c, pods, revision) {
      var i :| 0 <= i < |pods| && pods[i] == p;
      SelectContains(c, pods, i, revision);
    }
  }
}
