/**
 * The API server as the controller uses it: every call may fail, and a failed call changes nothing. Creations and
 * deletions take the names their caller has announced as expected: announcing comes first.
 */
module Api {
  import opened Kube
  import E = Expectations

  /** A call that took effect. */
  datatype Write = Created(pod: Pod) | Deleted(name: string) | Replaced(pod: Pod)

  predicate HasName(pods: seq<Pod>, name: string) {
    exists i | 0 <= i < |pods| :: pods[i].name == name
  }

  function Without(pods: seq<Pod>, name: string): seq<Pod> {
    if pods == [] then []
    else
      var front := Without(pods[..|pods| - 1], name);
      if pods[|pods| - 1].name == name then front else front + [pods[|pods| - 1]]
  }

  function Put(pods: seq<Pod>, p: Pod): seq<Pod> {
    if pods == [] then []
    else
      var last := pods[|pods| - 1];
      Put(pods[..|pods| - 1], p) + [if last.name == p.name then p else last]
  }

  function ApplyWrite(pods: seq<Pod>, w: Write): seq<Pod> {
    match w
    case Created(p) => pods + [p]
    case Deleted(name) => Without(pods, name)
    case Replaced(p) => Put(pods, p)
  }

  /** The live pods after a list of writes, oldest first. */
  function Apply(pods: seq<Pod>, writes: seq<Write>): seq<Pod> {
    if writes == [] then pods
    else ApplyWrite(Apply(pods, writes[..|writes| - 1]), writes[|writes| - 1])
  }

  lemma {:induction false} ApplyAppend(pods: seq<Pod>, a: seq<Write>, b: seq<Write>)
    ensures Apply(pods, a + b) == Apply(Apply(pods, a), b)
  {
    if b == [] {
      assert a + b == a;
    } else {
      assert (a + b)[..|a + b| - 1] == a + b[..|b| - 1];
      ApplyAppend(pods, a, b[..|b| - 1]);
    }
  }

  lemma {:induction false} WithoutAbsent(pods: seq<Pod>, name: string)
    requires forall i | 0 <= i < |pods| :: pods[i].name != name
    ensures Without(pods, name) == pods
  {
    if pods != [] {
      WithoutAbsent(pods[..|pods| - 1], name);
    }
  }

  lemma {:induction false} WithoutIndex(pods: seq<Pod>, i: nat)
    requires DistinctNames(pods) && i < |pods|
    ensures Without(pods, pods[i].name) == pods[..i] + pods[i + 1..]
  {
    var front := pods[..|pods| - 1];
    if i == |pods| - 1 {
      WithoutAbsent(front, pods[i].name);
    } else {
      WithoutIndex(front, i);
      assert pods[i + 1..] == front[i + 1..] + [pods[|pods| - 1]];
    }
  }

  lemma {:induction false} PutAbsent(pods: seq<Pod>, p: Pod)
    requires forall i | 0 <= i < |pods| :: pods[i].name != p.name
    ensures Put(pods, p) == pods
  {
    if pods != [] {
      PutAbsent(pods[..|pods| - 1], p);
    }
  }

  lemma {:induction false} PutIndex(pods: seq<Pod>, i: nat, p: Pod)
    requires DistinctNames(pods) && i < |pods| && pods[i].name == p.name
    ensures Put(pods, p) == pods[i := p]
  {
    var front := pods[..|pods| - 1];
    if i == |pods| - 1 {
      PutAbsent(front, p);
    } else {
      PutIndex(front, i, p);
    }
  }

  lemma {:induction false} WithoutDistinct(pods: seq<Pod>, name: string)
    requires DistinctNames(pods)
    ensures DistinctNames(Without(pods, name))
    ensures forall p :: p in Without(pods, name) <==> p in pods && p.name != name
  {
    if pods != [] {
      var front, last := pods[..|pods| - 1], pods[|pods| - 1];
      WithoutDistinct(front, name);
      assert pods == front + [last];
      var left := Without(front, name);
      forall k | 0 <= k < |left| ensures left[k].name != last.name {
        NameNotLast(pods, left[k]);
      }
      DistinctExtend(left, last);
    }
  }

  lemma {:induction false} PutNames(pods: seq<Pod>, p: Pod)
    ensures |Put(pods, p)| == |pods|
    ensures forall i | 0 <= i < |pods| :: Put(pods, p)[i] == if pods[i].name == p.name then p else pods[i]
  {
    if pods != [] {
      PutNames(pods[..|pods| - 1], p);
    }
  }

  /** Every creation used a name that was free at its time. */
  predicate Lawful(pods: seq<Pod>, writes: seq<Write>) {
    writes == []
    || var last := writes[|writes| - 1];
       && Lawful(pods, writes[..|writes| - 1])
       && (last.Created? ==> !HasName(Apply(pods, writes[..|writes| - 1]), last.pod.name))
  }

  lemma {:induction false} LawfulAppend(pods: seq<Pod>, a: seq<Write>, b: seq<Write>)
    ensures Lawful(pods, a + b) <==> Lawful(pods, a) && Lawful(Apply(pods, a), b)
  {
    if b == [] {
      assert a + b == a;
    } else {
      assert (a + b)[..|a + b| - 1] == a + b[..|b| - 1];
      LawfulAppend(pods, a, b[..|b| - 1]);
      ApplyAppend(pods, a, b[..|b| - 1]);
    }
  }

  /** Lawful writes keep names unique. */
  lemma {:induction false} LawfulKeepsNames(pods: seq<Pod>, writes: seq<Write>)
    requires DistinctNames(pods) && Lawful(pods, writes)
    ensures DistinctNames(Apply(pods, writes))
  {
    if writes != [] {
      var front, last := writes[..|writes| - 1], writes[|writes| - 1];
      LawfulKeepsNames(pods, front);
      match last
      case Created(p) => DistinctExtend(Apply(pods, front), p);
      case Deleted(name) => WithoutDistinct(Apply(pods, front), name);
      case Replaced(p) => PutNames(Apply(pods, front), p);
    }
  }

  class ApiServer {
    /** The live pods: those not being deleted. */
    var pods: seq<Pod>
    ghost const initial: seq<Pod>
    ghost var writes: seq<Write>

    /** The live pods are the initial ones with every write applied, and no creation took a name in use. */
    ghost predicate Valid()
      reads this
    {
      pods == Apply(initial, writes) && Lawful(initial, writes)
    }

    constructor (pods: seq<Pod>)
      ensures Valid() && this.pods == pods && writes == []
    {
      this.pods := pods;
      initial := pods;
      writes := [];
    }

    method Create(p: Pod, ghost expected: set<string>) returns (ok: bool)
      requires Valid() && p.name in expected
      modifies this
      ensures Valid()
      ensures ok ==> !HasName(old(pods), p.name)
      ensures writes == old(writes) + if ok then [Created(p)] else []
    {
      ok := *;
      ok := ok && !HasName(pods, p.name);
      if ok {
        pods := pods + [p];
        Record(Created(p));
      }
    }

    method Delete(name: string, ghost expected: set<string>) returns (ok: bool)
      requires Valid() && name in expected
      modifies this
      ensures Valid()
      ensures ok ==> HasName(old(pods), name)
      ensures writes == old(writes) + if ok then [Deleted(name)] else []
    {
      ok := *;
      ok := ok && HasName(pods, name);
      if ok {
        pods := Without(pods, name);
        Record(Deleted(name));
      }
    }

    method Get(name: string) returns (r: Option<Pod>)
      ensures r.Some? ==> r.value in pods && r.value.name == name
    {
      var ok := *;
      r := None;
      for i := 0 to |pods| {
        if ok && pods[i].name == name {
          return Some(pods[i]);
        }
      }
    }

    /** Replaces a pod by name; the server stamps the stored copy with a new resource version. */
    method Replace(p: Pod) returns (stored: Option<Pod>)
      requires Valid()
      modifies this
      ensures Valid()
      ensures stored.Some? ==> HasName(old(pods), p.name)
      ensures stored.Some? ==> stored.value == p.(resourceVersion := stored.value.resourceVersion)
      ensures writes == old(writes) + if stored.Some? then [Replaced(stored.value)] else []
    {
      var ok, version := *, *;
      if ok && HasName(pods, p.name) {
        var q := p.(resourceVersion := version);
        pods := Put(pods, q);
        Record(Replaced(q));
        stored := Some(q);
      } else {
        stored := None;
      }
    }

    /** Adds the specified-delete label to the stored pod, whatever version the caller has seen. */
    method PatchSpecifiedDelete(name: string, value: string) returns (stored: Option<Pod>)
      requires Valid()
      modifies this
      ensures Valid()
      ensures stored.Some? ==>
        exists p | p in old(pods) && p.name == name ::
          stored.value == p.(labels := p.labels[SpecifiedDeleteKey := value],
                             resourceVersion := stored.value.resourceVersion)
      ensures writes == old(writes) + if stored.Some? then [Replaced(stored.value)] else []
    {
      var got := Get(name);
      if got.Some? {
        stored := Replace(got.value.(labels := got.value.labels[SpecifiedDeleteKey := value]));
      } else {
        stored := None;
      }
    }

    ghost method Record(w: Write)
      requires pods == ApplyWrite(Apply(initial, writes), w) && Lawful(initial, writes)
      requires w.Created? ==> !HasName(Apply(initial, writes), w.pod.name)
      modifies this`writes
      ensures Valid() && writes == old(writes) + [w]
    {
      assert (writes + [w])[..|writes|] == writes;
      writes := writes + [w];
    }
  }

  /** The closure that creates the queued pods one call at a time and remembers which calls succeeded. */
  class CreateFn {
    const server: ApiServer
    ghost const expectations: E.ScaleExpectations
    ghost const key: string
    var queue: seq<Pod>
    var created: nat
    var successNames: set<string>
    ghost var outcomes: seq<bool>

    /** Every queued creation has been announced. */
    ghost predicate Announced()
      reads this, expectations
    {
      forall i | 0 <= i < |queue| :: queue[i].name in expectations.Names(key, E.Create)
    }

    constructor (server: ApiServer, ghost expectations: E.ScaleExpectations, ghost key: string, queue: seq<Pod>)
      ensures this.server == server && this.expectations == expectations && this.key == key && this.queue == queue
      ensures created == 0 && successNames == {} && outcomes == []
    {
      this.server := server;
      this.expectations := expectations;
      this.key := key;
      this.queue := queue;
      created := 0;
      successNames := {};
      outcomes := [];
    }

    method Call() returns (ok: bool)
      requires queue != [] && server.Valid() && Announced()
      modifies this, server
      ensures server.Valid() && Announced()
      ensures queue == old(queue)[1..] && outcomes == old(outcomes) + [ok]
      ensures server.writes == old(server.writes) + if ok then [Created(old(queue)[0])] else []
      ensures created == old(created) + if ok then 1 else 0
      ensures successNames == old(successNames) + if ok then {old(queue)[0].name} else {}
    {
      var p := queue[0];
      queue := queue[1..];
      ok := server.Create(p, expectations.Names(key, E.Create));
      if ok {
        created := created + 1;
        successNames := successNames + {p.name};
      }
      outcomes := outcomes + [ok];
    }
  }
}
