/** The order in which pods are given up: the eight-level comparator and what sorting by it means. */
module PodOrder {
  import opened Kube

  /** The optional parts of the comparator: a rank per pod uid, and a test that puts failing pods first. */
  datatype Order = Order(ranks: Option<map<string, int>>, available: Option<Pod -> bool>)

  const UNRANKED := Order(None, None)

  function FirstReady(conditions: seq<Condition>): Option<Condition> {
    if conditions == [] then None
    else if conditions[0].ready then Some(conditions[0])
    else FirstReady(conditions[1..])
  }

  predicate IsPodReady(p: Pod) {
    FirstReady(p.conditions).Some? && FirstReady(p.conditions).value.isTrue
  }

  /** When the pod became ready; zero when it is not. */
  function ReadyTime(p: Pod): Time {
    if IsPodReady(p) then FirstReady(p.conditions).value.lastTransition else 0
  }

  function MaxRestarts(statuses: seq<ContainerStatus>): nat {
    if statuses == [] then 0
    else
      var before := MaxRestarts(statuses[..|statuses| - 1]);
      var count := statuses[|statuses| - 1].restartCount;
      if count > before then count else before
  }

  /** Condition i is the first that tells of readiness. */
  predicate TellsReady(p: Pod, i: nat) {
    i < |p.conditions| && p.conditions[i].ready && forall j | 0 <= j < i :: !p.conditions[j].ready
  }

  lemma {:induction false} FirstReadyMeaning(conditions: seq<Condition>)
    ensures FirstReady(conditions).None? <==> forall i | 0 <= i < |conditions| :: !conditions[i].ready
    ensures FirstReady(conditions).Some? ==> exists i | 0 <= i < |conditions| ::
      && conditions[i] == FirstReady(conditions).value && conditions[i].ready
      && forall j | 0 <= j < i :: !conditions[j].ready
  {
    if conditions != [] && !conditions[0].ready {
      FirstReadyMeaning(conditions[1..]);
      if FirstReady(conditions[1..]).Some? {
        var i :| 0 <= i < |conditions[1..]| && conditions[1..][i] == FirstReady(conditions[1..]).value
                 && conditions[1..][i].ready && forall j | 0 <= j < i :: !conditions[1..][j].ready;
        assert conditions[i + 1] == conditions[1..][i];
        forall j | 0 <= j < i + 1 ensures !conditions[j].ready {
          if j > 0 {
            assert conditions[j] == conditions[1..][j - 1];
          }
        }
      }
    }
  }

  /** A pod is ready as its first condition on readiness says, and since the time given there. */
  lemma ReadyMeaning(p: Pod, i: nat)
    requires TellsReady(p, i)
    ensures IsPodReady(p) <==> p.conditions[i].isTrue
    ensures IsPodReady(p) ==> ReadyTime(p) == p.conditions[i].lastTransition
  {
    FirstReadyMeaning(p.conditions);
    var j :| 0 <= j < |p.conditions| && p.conditions[j] == FirstReady(p.conditions).value && p.conditions[j].ready
             && forall k | 0 <= k < j :: !p.conditions[k].ready;
    assert j == i;
  }

  method PodReadyTime(p: Pod) returns (t: Time)
    ensures t == ReadyTime(p)
    ensures IsPodReady(p) ==>
      exists i: nat :: TellsReady(p, i) && p.conditions[i].isTrue && t == p.conditions[i].lastTransition
    ensures !IsPodReady(p) ==> t == 0
  {
    FirstReadyMeaning(p.conditions);
    if IsPodReady(p) {
      for i := 0 to |p.conditions|
        invariant FirstReady(p.conditions[i..]) == FirstReady(p.conditions)
      {
        var c := p.conditions[i];
        if c.ready && c.isTrue {
          return c.lastTransition;
        }
        assert p.conditions[i..][1..] == p.conditions[i + 1..];
      }
    }
    return 0;
  }

  /** The largest restart count of the statuses, or zero when none is larger. */
  method MaxContainerRestarts(p: Pod) returns (n: nat)
    ensures n == MaxRestarts(p.statuses)
    ensures forall s | s in p.statuses :: s.restartCount <= n
    ensures n == 0 || exists s | s in p.statuses :: s.restartCount == n
  {
    n := 0;
    for i := 0 to |p.statuses|
      invariant n == MaxRestarts(p.statuses[..i])
      invariant forall j | 0 <= j < i :: p.statuses[j].restartCount <= n
      invariant n == 0 || exists j | 0 <= j < i :: p.statuses[j].restartCount == n
    {
      assert p.statuses[..i + 1][..i] == p.statuses[..i];
      if p.statuses[i].restartCount > n {
        n := p.statuses[i].restartCount;
      }
    }
    assert p.statuses[..|p.statuses|] == p.statuses;
  }

  /** Whether t1 is after t2, where the unset time is after every other. */
  predicate AfterOrZero(t1: Time, t2: Time) {
    if t1 == 0 || t2 == 0 then t1 == 0 else t1 > t2
  }

  function PhaseOrdinal(phase: Phase): int {
    match phase
    case Unknown => 1
    case Running => 2
    case _ => 0
  }

  function Rank(o: Order, p: Pod): int {
    if o.ranks.Some? && p.uid in o.ranks.value then o.ranks.value[p.uid] else 0
  }

  predicate Available(o: Order, p: Pod) {
    o.available.Some? && o.available.value(p)
  }

  /** The comparator, level by level. */
  predicate Less(o: Order, a: Pod, b: Pod) {
    if a.nodeName != b.nodeName && (a.nodeName == "" || b.nodeName == "") then a.nodeName == ""
    else if PhaseOrdinal(a.phase) != PhaseOrdinal(b.phase) then PhaseOrdinal(a.phase) < PhaseOrdinal(b.phase)
    else if o.available.Some? && o.available.value(a) != o.available.value(b) then !o.available.value(a)
    else if IsPodReady(a) != IsPodReady(b) then !IsPodReady(a)
    else if Rank(o, a) != Rank(o, b) then Rank(o, a) > Rank(o, b)
    else if IsPodReady(a) && IsPodReady(b) && ReadyTime(a) != ReadyTime(b) then AfterOrZero(ReadyTime(a), ReadyTime(b))
    else if MaxRestarts(a.statuses) != MaxRestarts(b.statuses) then MaxRestarts(a.statuses) > MaxRestarts(b.statuses)
    else if a.created != b.created then AfterOrZero(a.created, b.created)
    else false
  }

  /** A pod without a node goes before one that has a node. */
  lemma UnassignedGoFirst(o: Order, a: Pod, b: Pod)
    requires a.nodeName == "" && b.nodeName != ""
    ensures Less(o, a, b)
  {
  }

  /** Of pods with a node, pending and finished ones go before unknown ones, and all of those before running ones. */
  lemma PhasesGoInOrder(o: Order, a: Pod, b: Pod)
    requires a.nodeName != "" && b.nodeName != ""
    ensures !a.phase.Running? && b.phase.Running? ==> Less(o, a, b)
    ensures !a.phase.Running? && !a.phase.Unknown? && b.phase.Unknown? ==> Less(o, a, b)
  {
  }

  // ---------- The comparator is a lexicographic order on keys ----------

  function Bit(b: bool): int { if b then 1 else 0 }

  /** The levels as numbers, most significant first. A time takes two places: set or not, then latest first. */
  function KeyOf(o: Order, p: Pod): (key: seq<int>)
    ensures |key| == 10
  {
    [ Bit(p.nodeName != ""),
      PhaseOrdinal(p.phase),
      Bit(Available(o, p)),
      Bit(IsPodReady(p)),
      -Rank(o, p),
      Bit(ReadyTime(p) != 0), -ReadyTime(p),
      0 - MaxRestarts(p.statuses),
      Bit(p.created != 0), -p.created ]
  }

  /** The first difference from position i on decides. */
  predicate LexLess(a: seq<int>, b: seq<int>, i: nat)
    requires |a| == |b| && i <= |a|
    decreases |a| - i
  {
    i < |a| && (a[i] < b[i] || (a[i] == b[i] && LexLess(a, b, i + 1)))
  }

  lemma LessIsLexicographic(o: Order, a: Pod, b: Pod)
    ensures Less(o, a, b) <==> LexLess(KeyOf(o, a), KeyOf(o, b), 0)
  {
    var k, l := KeyOf(o, a), KeyOf(o, b);
    assert LexLess(k, l, 9) <==> k[9] < l[9];
    assert LexLess(k, l, 8) <==> a.created != b.created && AfterOrZero(a.created, b.created);
    assert LexLess(k, l, 7) <==> k[7] < l[7] || (k[7] == l[7] && LexLess(k, l, 8));
    assert LexLess(k, l, 5) <==> k[5] < l[5] || (k[5] == l[5] && (k[6] < l[6] || (k[6] == l[6] && LexLess(k, l, 7))));
    assert LexLess(k, l, 4) <==> k[4] < l[4] || (k[4] == l[4] && LexLess(k, l, 5));
    assert LexLess(k, l, 2) <==> k[2] < l[2] || (k[2] == l[2] && (k[3] < l[3] || (k[3] == l[3] && LexLess(k, l, 4))));
    assert LexLess(k, l, 1) <==> k[1] < l[1] || (k[1] == l[1] && LexLess(k, l, 2));
  }

  /** The comparator is a strict weak order whatever the ranks, the test and the pods are. */
  lemma LessIsStrictWeakOrder(o: Order, a: Pod, b: Pod, c: Pod)
    ensures !Less(o, a, a)
    ensures Less(o, a, b) ==> !Less(o, b, a)
    ensures Less(o, a, b) && Less(o, b, c) ==> Less(o, a, c)
    ensures !Less(o, a, b) && !Less(o, b, a) && !Less(o, b, c) && !Less(o, c, b)
        ==> !Less(o, a, c) && !Less(o, c, a)
  {
  }

  // ---------- Sorting ----------

  ghost predicate Sorted(o: Order, pods: seq<Pod>) {
    forall i, j | 0 <= i < j < |pods| :: !Less(o, pods[j], pods[i])
  }

  /** What a sort by the comparator may return: ties come out in any order. */
  ghost predicate IsSortOf(o: Order, sorted: seq<Pod>, pods: seq<Pod>) {
    multiset(sorted) == multiset(pods) && Sorted(o, sorted)
  }

  function Insert(o: Order, p: Pod, pods: seq<Pod>): seq<Pod> {
    if pods == [] || !Less(o, pods[0], p) then [p] + pods
    else [pods[0]] + Insert(o, p, pods[1..])
  }

  lemma {:induction false} InsertPermutes(o: Order, p: Pod, pods: seq<Pod>)
    ensures multiset(Insert(o, p, pods)) == multiset(pods) + multiset{p}
  {
    if pods != [] && Less(o, pods[0], p) {
      InsertPermutes(o, p, pods[1..]);
      assert pods == [pods[0]] + pods[1..];
    }
  }

  /** Sortedness seen from the front. */
  lemma SortedCons(o: Order, p: Pod, pods: seq<Pod>)
    requires Sorted(o, pods) && forall j | 0 <= j < |pods| :: !Less(o, pods[j], p)
    ensures Sorted(o, [p] + pods)
  {
  }

  lemma {:induction false} InsertSorts(o: Order, p: Pod, pods: seq<Pod>)
    requires Sorted(o, pods)
    ensures Sorted(o, Insert(o, p, pods))
  {
    if pods == [] {
    } else if !Less(o, pods[0], p) {
      forall j | 0 <= j < |pods| ensures !Less(o, pods[j], p) {
        assert j == 0 || !Less(o, pods[j], pods[0]);
        NotLessTransitive(o, pods[j], pods[0], p);
      }
      SortedCons(o, p, pods);
    } else {
      var rest := Insert(o, p, pods[1..]);
      InsertSorts(o, p, pods[1..]);
      InsertPermutes(o, p, pods[1..]);
      forall j | 0 <= j < |rest| ensures !Less(o, rest[j], pods[0]) {
        assert rest[j] in multiset(rest);
        if rest[j] == p {
          LessIsStrictWeakOrder(o, pods[0], p, pods[0]);
        } else {
          assert rest[j] in pods[1..];
        }
      }
      SortedCons(o, pods[0], rest);
    }
  }

  lemma NotLessTransitive(o: Order, a: Pod, b: Pod, c: Pod)
    requires (a == b || !Less(o, a, b)) && !Less(o, b, c)
    ensures !Less(o, a, c)
  {
  }

  /** Stands for sort.Sort: callers learn that the result is a permutation in order, and nothing about ties. */
  method Sort(o: Order, pods: seq<Pod>) returns (sorted: seq<Pod>)
    ensures IsSortOf(o, sorted, pods)
  {
    sorted := [];
    for i := 0 to |pods|
      invariant IsSortOf(o, sorted, pods[..i])
    {
      InsertSorts(o, pods[i], sorted);
      InsertPermutes(o, pods[i], sorted);
      sorted := Insert(o, pods[i], sorted);
      assert pods[..i + 1] == pods[..i] + [pods[i]];
    }
    assert pods[..|pods|] == pods;
  }
}
