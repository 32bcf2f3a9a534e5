/** Revision history: naming, activating and truncating the recorded templates of one workload. */
module Revisions {
  import opened Kube
  import opened Templates
  import Planner

  type Store = map<string, Revision>

  /** The name of a revision: a hash of its data and the collision count. Any function will do. */
  type Naming = (Template, nat) -> string

  datatype CreateOutcome = Stored | AlreadyExists | Refused

  /** What becomes of one attempt to write: `reread` says whether the object can be read after a conflict. */
  datatype Reply = Written | Rejected | Conflicted(reread: bool)

  /** The replies to one call with retries, of which there are four at most. */
  type Replies = r: seq<Reply> | |r| == 4 witness [Rejected, Rejected, Rejected, Rejected]

  class RevisionServer {
    var store: Store

    constructor (store: Store)
      ensures this.store == store
    {
      this.store := store;
    }

    method Create(r: Revision) returns (outcome: CreateOutcome)
      modifies this
      ensures outcome == Stored ==> r.name !in old(store) && store == old(store)[r.name := r]
      ensures outcome == AlreadyExists ==> r.name in old(store)
      ensures outcome != Stored ==> store == old(store)
    {
      var ok := *;
      if r.name in store {
        return AlreadyExists;
      }
      if !ok {
        return Refused;
      }
      store := store[r.name := r];
      return Stored;
    }

    method Get(name: string, answered: bool) returns (r: Option<Revision>)
      ensures r == if answered && name in store then Some(store[name]) else None
    {
      r := if answered && name in store then Some(store[name]) else None;
    }

    method Update(r: Revision, reply: Reply) returns (ok: bool)
      modifies this
      ensures ok <==> reply.Written? && r.name in old(store)
      ensures store == if ok then old(store)[r.name := r] else old(store)
    {
      ok := reply.Written? && r.name in store;
      if ok {
        store := store[r.name := r];
      }
    }

    method Delete(name: string) returns (ok: bool)
      modifies this
      ensures store == if ok then old(store) - {name} else old(store)
    {
      ok := *;
      if ok {
        store := store - {name};
      }
    }
  }

  /** Keys name their revisions. */
  ghost predicate Keyed(store: Store) {
    forall n | n in store :: store[n].name == n
  }

  // ---------- Creating a revision ----------

  /** Probing stops at a free name, or at one that already holds the data. */
  predicate Stops(store: Store, data: Template, naming: Naming, count: nat) {
    naming(data, count) !in store || store[naming(data, count)].data == data
  }

  ghost predicate FirstStop(store: Store, data: Template, naming: Naming, start: nat, count: nat) {
    start <= count && Stops(store, data, naming, count)
    && forall i | start <= i < count :: !Stops(store, data, naming, i)
  }

  /** The probes for one data value give distinct names, as far as collisions could last. */
  ghost predicate DistinctProbes(data: Template, naming: Naming, start: nat, tries: nat) {
    forall i, j | start <= i < j <= start + tries :: naming(data, i) != naming(data, j)
  }

  function WithRevision(store: Store, r: Revision): Store {
    if r.name in store then store else store[r.name := r]
  }

  /** The collision loop. With distinct probes it ends, because every collision uses up one stored name. */
  method CreateControllerRevision(server: RevisionServer, data: Template, number: int, start: nat, naming: Naming)
    returns (r: Option<Revision>, collisionCount: nat)
    requires DistinctProbes(data, naming, start, |server.store|)
    requires Keyed(server.store)
    modifies server
    ensures collisionCount >= start
    ensures r.None? ==> server.store == old(server.store)
    ensures r.Some? ==>
      && FirstStop(old(server.store), data, naming, start, collisionCount)
      && var name := naming(data, collisionCount);
      && server.store == WithRevision(old(server.store), Revision(name, number, data))
      && r.value == server.store[name]
  {
    collisionCount := start;
    while true
      invariant server.store == old(server.store)
      invariant start <= collisionCount <= start + |server.store|
      invariant forall i | start <= i < collisionCount :: !Stops(server.store, data, naming, i)
      decreases |server.store| + start - collisionCount
    {
      var clone := Revision(naming(data, collisionCount), number, data);
      var outcome := server.Create(clone);
      if outcome == AlreadyExists {
        var answered := *;
        var found := server.Get(clone.name, answered);
        if found.None? {
          return None, collisionCount;
        }
        if found.value.data == clone.data {
          return found, collisionCount;
        }
        collisionCount := collisionCount + 1;
        forall i | start <= i < collisionCount ensures naming(data, i) in server.store {
          assert !Stops(server.store, data, naming, i);
        }
        ProbesFit(server.store, data, naming, start, collisionCount);
        continue;
      }
      if outcome == Stored {
        return Some(clone), collisionCount;
      }
      return None, collisionCount;
    }
  }

  /** Distinct probes that all hit stored names are no more than the stored names. */
  lemma ProbesFit(store: Store, data: Template, naming: Naming, start: nat, count: nat)
    requires start <= count <= start + |store| + 1 && DistinctProbes(data, naming, start, |store|)
    requires forall i | start <= i < count :: naming(data, i) in store
    ensures count - start <= |store|
  {
    var probed := ProbedNames(data, naming, start, count, |store|);
    SubsetSize(probed, store.Keys);
  }

  lemma {:induction false} ProbedNames(data: Template, naming: Naming, start: nat, count: nat, tries: nat)
    returns (names: set<string>)
    requires start <= count <= start + tries + 1 && DistinctProbes(data, naming, start, tries)
    ensures |names| == count - start
    ensures forall name | name in names :: exists i | start <= i < count :: naming(data, i) == name
    decreases count - start
  {
    if start == count {
      names := {};
    } else {
      var before := ProbedNames(data, naming, start, count - 1, tries);
      forall name | name in before ensures name != naming(data, count - 1) {
        var i :| start <= i < count - 1 && naming(data, i) == name;
      }
      names := before + {naming(data, count - 1)};
    }
  }

  /** Creating the same data again from the same starting count finds the same revision and adds nothing. */
  lemma CreateIsIdempotent(before: Store, data: Template, naming: Naming, start: nat,
                           number: int, count: nat, number2: int, count2: nat)
    requires FirstStop(before, data, naming, start, count)
    ensures
      && var after := WithRevision(before, Revision(naming(data, count), number, data));
      && FirstStop(after, data, naming, start, count)
      && (FirstStop(after, data, naming, start, count2) ==>
            && count2 == count
            && WithRevision(after, Revision(naming(data, count2), number2, data)) == after
            && after[naming(data, count2)].data == data)
  {
    var after := WithRevision(before, Revision(naming(data, count), number, data));
    forall i | start <= i < count ensures !Stops(after, data, naming, i) {
      assert !Stops(before, data, naming, i);
    }
    if FirstStop(after, data, naming, start, count2) {
      assert Stops(after, data, naming, count) && Stops(after, data, naming, count2);
      assert count <= count2 <= count;
    }
  }

  // ---------- Renumbering a revision ----------

  /** Before attempt k every attempt conflicted and the revision was read again. */
  ghost predicate Retried(replies: Replies, k: nat) {
    k <= 4 && forall j | 0 <= j < k :: replies[j] == Conflicted(true)
  }

  /** Some attempt is written, and all before it conflicted and were read again. */
  ghost predicate WritesNumber(replies: Replies) {
    exists k | 0 <= k < 4 :: Retried(replies, k) && replies[k] == Written
  }

  /** The first conflict that is not read again comes before any other outcome, and an attempt is left after it. */
  ghost predicate LosesNumber(replies: Replies) {
    exists k | 0 <= k < 3 :: Retried(replies, k) && replies[k] == Conflicted(false)
  }

  /** The first attempt that did not just retry decides. */
  lemma FirstDecides(replies: Replies, k: nat)
    requires k < 4 && Retried(replies, k) && replies[k] != Conflicted(true)
    ensures WritesNumber(replies) <==> replies[k] == Written
    ensures LosesNumber(replies) <==> replies[k] == Conflicted(false) && k < 3
  {
    assert forall i | 0 <= i < 4 && Retried(replies, i) && replies[i] != Conflicted(true) :: !(i < k) && !(k < i);
  }

  /** A conflict at once, and then no answer to the re-read. */
  lemma FirstConflictLoses(replies: Replies)
    requires replies[0] == Conflicted(false)
    ensures LosesNumber(replies) && !WritesNumber(replies)
  {
    FirstDecides(replies, 0);
  }

  /**
   * Gives a revision a new number, with up to four attempts on conflicts. When a write conflicts and the revision
   * then cannot be read again, the next attempt takes its own unwritten copy for the stored one: the call reports
   * success and nothing was written.
   */
  method UpdateControllerRevision(server: RevisionServer, revision: Revision, newRevision: int, replies: Replies)
    returns (r: Option<Revision>)
    requires Keyed(server.store)
    requires revision.name in server.store ==> server.store[revision.name].data == revision.data
    modifies server
    ensures r.Some? ==> r.value == revision.(number := newRevision)
    ensures r.None? ==> server.store == old(server.store)
    ensures server.store == old(server.store)
         || (revision.name in old(server.store)
             && server.store == old(server.store)[revision.name := revision.(number := newRevision)])
    ensures revision.name in old(server.store) && old(server.store)[revision.name] == revision
            && revision.number != newRevision ==>
      && (r.Some? <==> WritesNumber(replies) || LosesNumber(replies))
      && server.store
         == if WritesNumber(replies) then old(server.store)[revision.name := revision.(number := newRevision)]
            else old(server.store)
  {
    var clone := revision;
    ghost var known := revision.name in server.store && server.store[revision.name] == revision
                       && revision.number != newRevision;
    for attempt := 0 to 4
      invariant server.store == old(server.store)
      invariant clone.name == revision.name && clone.data == revision.data
      invariant known && clone.number != newRevision ==> Retried(replies, attempt)
      invariant known && clone.number == newRevision ==>
        attempt > 0 && Retried(replies, attempt - 1) && replies[attempt - 1] == Conflicted(false)
      invariant known && clone.number != newRevision ==> clone == revision
      invariant known && attempt == 4 ==> !WritesNumber(replies) && !LosesNumber(replies)
    {
      if clone.number == newRevision {
        if known {
          FirstDecides(replies, attempt - 1);
        }
        return Some(clone);
      }
      if known && replies[attempt] != Conflicted(true) {
        FirstDecides(replies, attempt);
      }
      clone := clone.(number := newRevision);
      var ok := server.Update(clone, replies[attempt]);
      if ok {
        return Some(clone);
      }
      if !replies[attempt].Conflicted? || clone.name !in server.store {
        return None;
      }
      var got := server.Get(clone.name, replies[attempt].reread);
      if got.Some? {
        clone := got.value;
      }
    }
    return None;
  }

  // ---------- Activating the current template ----------

  /** Keys name their revisions, and no two revisions share a number or data. */
  ghost predicate WellFormed(store: Store) {
    && Keyed(store)
    && (forall m, n | m in store && n in store && m != n ::
          store[m].number != store[n].number && store[m].data != store[n].data)
  }

  /** A fresh list: every stored revision once, by increasing number. */
  ghost predicate FreshList(revisions: seq<Revision>, store: Store) {
    && (forall i | 0 <= i < |revisions| ::
          revisions[i].name in store && store[revisions[i].name] == revisions[i])
    && (forall n | n in store :: store[n] in revisions)
    && (forall i, j | 0 <= i < j < |revisions| ::
          revisions[i].name != revisions[j].name && revisions[i].number <= revisions[j].number)
  }

  function NextRevision(revisions: seq<Revision>): int {
    if revisions == [] then 1 else revisions[|revisions| - 1].number + 1
  }

  /** The last listed revision with this data. */
  function FindEqual(revisions: seq<Revision>, data: Template): Option<Revision> {
    if revisions == [] then None
    else
      var last := revisions[|revisions| - 1];
      if last.data == data then Some(last) else FindEqual(revisions[..|revisions| - 1], data)
  }

  lemma {:induction false} FindEqualMeaning(revisions: seq<Revision>, data: Template)
    ensures FindEqual(revisions, data).Some? ==> exists i | 0 <= i < |revisions| ::
      && revisions[i] == FindEqual(revisions, data).value && revisions[i].data == data
      && forall j | i < j < |revisions| :: revisions[j].data != data
    ensures FindEqual(revisions, data).None? ==> forall r | r in revisions :: r.data != data
  {
    if revisions != [] && revisions[|revisions| - 1].data != data {
      var front := revisions[..|revisions| - 1];
      FindEqualMeaning(front, data);
      assert revisions == front + [revisions[|revisions| - 1]];
      if FindEqual(front, data).Some? {
        var i :| 0 <= i < |front| && front[i] == FindEqual(front, data).value && front[i].data == data
                 && forall j | i < j < |front| :: front[j].data != data;
        assert revisions[i] == front[i];
      }
    }
  }

  function FindName(revisions: seq<Revision>, name: string): Option<Revision> {
    if revisions == [] then None
    else if revisions[0].name == name then Some(revisions[0])
    else FindName(revisions[1..], name)
  }

  lemma {:induction false} FindNameMeaning(revisions: seq<Revision>, name: string)
    ensures FindName(revisions, name).Some? ==>
      FindName(revisions, name).value in revisions && FindName(revisions, name).value.name == name
    ensures FindName(revisions, name).None? ==> forall r | r in revisions :: r.name != name
  {
    if revisions != [] {
      FindNameMeaning(revisions[1..], name);
    }
  }

  /** The revision's number is larger than every other in the store. */
  ghost predicate Newest(store: Store, r: Revision) {
    forall n | n in store && n != r.name :: store[n].number < r.number
  }

  datatype Active = Active(current: Revision, update: Revision, collisionCount: nat)

  /** The data of a revision never changes while it is stored, so a list of any age agrees with the store on it. */
  ghost predicate SameData(revisions: seq<Revision>, store: Store) {
    forall r | r in revisions && r.name in store :: store[r.name].data == r.data
  }

  predicate Listed(revisions: seq<Revision>, name: string) {
    exists i | 0 <= i < |revisions| :: revisions[i].name == name
  }

  /** Some listed revision holds the template, so none has to be created. */
  predicate HoldsTemplate(revisions: seq<Revision>, template: Template) {
    exists i | 0 <= i < |revisions| :: revisions[i].data == template
  }

  /**
   * The number of the update revision: its own, if it is stored as the newest; else one more than the largest
   * stored one, and one for the first revision.
   */
  ghost predicate Numbered(before: Store, update: Revision) {
    if update.name in before && Newest(before, before[update.name]) then update == before[update.name]
    else if before == map[] then update.number == 1
    else (exists n | n in before :: before[n].number + 1 == update.number)
         && forall n | n in before :: before[n].number < update.number
  }

  /** Activating a template touches one revision, and that one holds the template. */
  ghost predicate TouchesOne(before: Store, after: Store, update: Revision, template: Template) {
    && update.data == template && Keyed(after)
    && after.Keys <= before.Keys + {update.name}
    && (forall n | n in before :: n in after && (n != update.name ==> after[n] == before[n]))
    && (update.name in after ==> after[update.name].data == template)
  }

  /** The template is stored already, under a number that is not the largest. */
  ghost predicate RollsBack(store: Store, template: Template) {
    exists n | n in store :: store[n].data == template && !Newest(store, store[n])
  }

  /** Going back to an older template while the replies lose its new number. */
  ghost predicate Loses(store: Store, template: Template, replies: Replies) {
    RollsBack(store, template) && LosesNumber(replies)
  }

  /** What activating a template may do to the store: nothing, one new number, or one new revision. */
  ghost predicate Activated(before: Store, after: Store, update: Revision, template: Template, replies: Replies) {
    && update.data == template
    && update.name in after
    && (forall n | n in before && n != update.name :: n in after && after[n] == before[n])
    && after.Keys == before.Keys + {update.name}
    && Newest(after, update)
    && (if Loses(before, template, replies) then after == before else after[update.name] == update)
    && (update.name in before ==> before[update.name].data == template)
    && (update.name !in before ==> forall n | n in before :: before[n].data != template)
  }

  lemma NextIsLargest(revisions: seq<Revision>, store: Store)
    requires FreshList(revisions, store)
    ensures forall n | n in store :: store[n].number < NextRevision(revisions)
  {
  }

  lemma LastIsNewest(revisions: seq<Revision>, store: Store)
    requires WellFormed(store) && FreshList(revisions, store) && revisions != []
    ensures Newest(store, revisions[|revisions| - 1])
  {
  }

  lemma NextIsNumbered(before: Store, revisions: seq<Revision>, update: Revision)
    requires WellFormed(before) && FreshList(revisions, before) && update.number == NextRevision(revisions)
    requires update.name in before ==> !Newest(before, before[update.name])
    ensures Numbered(before, update)
  {
    NextIsLargest(revisions, before);
    if revisions == [] {
      assert forall n :: n !in before;
    } else {
      var last := revisions[|revisions| - 1];
      assert last.name in before && before[last.name].number + 1 == update.number;
    }
  }

  /** A new revision is only created under a name that was free. */
  lemma CreatedIsActivated(before: Store, template: Template, naming: Naming, start: nat, count: nat, number: int,
                           replies: Replies)
    requires WellFormed(before) && FirstStop(before, template, naming, start, count)
    requires forall n | n in before :: before[n].data != template && before[n].number < number
    ensures
      && var r := Revision(naming(template, count), number, template);
      && Activated(before, WithRevision(before, r), r, template, replies)
      && WithRevision(before, r)[r.name] == r
  {
  }

  /** A fresh list whose last revision holds the template: nothing is to be done. */
  lemma KeptIsActivated(before: Store, revisions: seq<Revision>, template: Template, replies: Replies)
    requires WellFormed(before) && FreshList(revisions, before)
    requires revisions != [] && revisions[|revisions| - 1].data == template
    ensures Activated(before, before, revisions[|revisions| - 1], template, replies)
  {
    LastIsNewest(revisions, before);
  }

  lemma EqualIsBehind(before: Store, revisions: seq<Revision>, equal: Revision)
    requires WellFormed(before) && FreshList(revisions, before)
    requires equal in revisions && revisions[|revisions| - 1].data != equal.data
    ensures equal.name in before && !Newest(before, before[equal.name])
  {
    var last := revisions[|revisions| - 1];
    assert before[equal.name] == equal && before[last.name] == last;
  }

  lemma GoesBack(before: Store, revisions: seq<Revision>, equal: Revision)
    requires WellFormed(before) && FreshList(revisions, before)
    requires equal in revisions && revisions[|revisions| - 1].data != equal.data
    ensures RollsBack(before, equal.data)
  {
    var last := revisions[|revisions| - 1];
    assert before[equal.name] == equal && before[last.name] == last;
    assert !Newest(before, before[equal.name]);
  }

  /** Rolling back gives the equal revision the next number; unwritten, it stays behind the newest one. */
  lemma BumpedIsActivated(before: Store, revisions: seq<Revision>, equal: Revision, replies: Replies)
    requires WellFormed(before) && FreshList(revisions, before)
    requires equal in revisions && revisions[|revisions| - 1].data != equal.data
    ensures equal.number != NextRevision(revisions)
    ensures
      && var bumped := equal.(number := NextRevision(revisions));
      && (LosesNumber(replies) ==> Activated(before, before, bumped, equal.data, replies))
      && (WritesNumber(replies) ==> Activated(before, before[equal.name := bumped], bumped, equal.data, replies))
  {
    GoesBack(before, revisions, equal);
    if WritesNumber(replies) {
      var k :| 0 <= k < 4 && Retried(replies, k) && replies[k] == Written;
      FirstDecides(replies, k);
    }
  }

  /**
   * The three ways to the update revision: keep the last one, renumber an older one, or create it. An old list
   * may number it wrongly, but cannot make it hold anything but the template.
   */
  method ActivateTemplate(server: RevisionServer, template: Template, statusCollisions: nat,
                          revisions: seq<Revision>, naming: Naming, replies: Replies)
    returns (update: Option<Revision>, collisionCount: nat)
    requires Keyed(server.store) && SameData(revisions, server.store)
    requires DistinctProbes(template, naming, statusCollisions, |server.store|)
    modifies server
    ensures update.None? ==> server.store == old(server.store)
    ensures update.Some? ==> TouchesOne(old(server.store), server.store, update.value, template)
    ensures update.Some? && WellFormed(old(server.store)) && FreshList(revisions, old(server.store)) ==>
      Activated(old(server.store), server.store, update.value, template, replies)
    ensures HoldsTemplate(revisions, template) ==> collisionCount == statusCollisions
    ensures update.Some? && !HoldsTemplate(revisions, template) ==>
      && FirstStop(old(server.store), template, naming, statusCollisions, collisionCount)
      && update.value.name == naming(template, collisionCount)
    ensures update.Some? && WellFormed(old(server.store)) && FreshList(revisions, old(server.store)) ==>
      Numbered(old(server.store), update.value)
  {
    collisionCount := statusCollisions;
    ghost var before := server.store;
    ghost var known := WellFormed(before) && FreshList(revisions, before);
    var number := NextRevision(revisions);
    var equal := FindEqual(revisions, template);
    FindEqualMeaning(revisions, template);
    if equal.Some? && revisions[|revisions| - 1].data == equal.value.data {
      update := Some(revisions[|revisions| - 1]);
      if known {
        KeptIsActivated(before, revisions, template, replies);
        LastIsNewest(revisions, before);
      }
    } else if equal.Some? {
      if known {
        BumpedIsActivated(before, revisions, equal.value, replies);
        EqualIsBehind(before, revisions, equal.value);
        NextIsNumbered(before, revisions, equal.value.(number := number));
      }
      update := UpdateControllerRevision(server, equal.value, number, replies);
    } else {
      update, collisionCount := CreateControllerRevision(server, template, number, statusCollisions, naming);
      if known && update.Some? {
        NextIsLargest(revisions, before);
        assert forall n | n in before :: before[n] in revisions;
        CreatedIsActivated(before, template, naming, statusCollisions, collisionCount, number, replies);
        NextIsNumbered(before, revisions, update.value);
      }
    }
  }

  method GetActiveRevisions(server: RevisionServer, template: Template, statusCurrent: string,
                            statusCollisions: nat, revisions: seq<Revision>, naming: Naming, replies: Replies)
    returns (active: Option<Active>)
    requires Keyed(server.store) && SameData(revisions, server.store)
    requires DistinctProbes(template, naming, statusCollisions, |server.store|)
    modifies server
    ensures active.None? ==> server.store == old(server.store)
    ensures active.Some? ==>
      && TouchesOne(old(server.store), server.store, active.value.update, template)
      && (WellFormed(old(server.store)) && FreshList(revisions, old(server.store)) ==>
            Activated(old(server.store), server.store, active.value.update, template, replies))
      && (WellFormed(old(server.store)) && FreshList(revisions, old(server.store)) ==>
            Numbered(old(server.store), active.value.update))
      && (if HoldsTemplate(revisions, template) then active.value.collisionCount == statusCollisions
          else
            && FirstStop(old(server.store), template, naming, statusCollisions, active.value.collisionCount)
            && active.value.update.name == naming(template, active.value.collisionCount))
      && active.value.current.name ==
           if Listed(revisions, statusCurrent) then statusCurrent else active.value.update.name
  {
    var update, collisionCount := ActivateTemplate(server, template, statusCollisions, revisions, naming, replies);
    if update.None? {
      return None;
    }
    FindNameMeaning(revisions, statusCurrent);
    var current := FindName(revisions, statusCurrent);
    active := Some(Active(if current.Some? then current.value else update.value, update.value, collisionCount));
  }

  /** A fresh list has a name exactly when the store does. */
  lemma FreshListed(revisions: seq<Revision>, store: Store, name: string)
    requires Keyed(store) && FreshList(revisions, store)
    ensures Listed(revisions, name) <==> name in store
    ensures SameData(revisions, store)
  {
    if name in store {
      assert store[name] in revisions;
    }
  }

  /**
   * Activating keeps the store well-formed, and leaves the template's revision with the largest stored number
   * unless it goes back to an older template and the replies lose the new number, and only then.
   */
  lemma ActivationKeepsWellFormed(before: Store, after: Store, update: Revision, template: Template,
                                  replies: Replies)
    requires WellFormed(before) && Activated(before, after, update, template, replies)
    requires after[update.name].name == update.name
    ensures WellFormed(after)
    ensures Newest(after, after[update.name]) <==> !Loses(before, template, replies)
  {
  }

  // ---------- Truncating history ----------

  predicate HasPod(pods: seq<Pod>, name: string) {
    exists i | 0 <= i < |pods| :: EqualToRevisionHash(pods[i], name)
  }

  predicate NotLive(r: Revision, pods: seq<Pod>, current: string, update: string) {
    r.name != current && r.name != update && !HasPod(pods, r.name)
  }

  /** The listed revisions that are neither active nor worn by a listed pod, oldest first. */
  function Historic(revisions: seq<Revision>, pods: seq<Pod>, current: string, update: string): seq<Revision> {
    if revisions == [] then []
    else
      var front := Historic(revisions[..|revisions| - 1], pods, current, update);
      var last := revisions[|revisions| - 1];
      if NotLive(last, pods, current, update) then front + [last] else front
  }

  function NamesOf(revisions: seq<Revision>): set<string> {
    set i | 0 <= i < |revisions| :: revisions[i].name
  }

  method WornByPod(pods: seq<Pod>, name: string) returns (found: bool)
    ensures found <==> HasPod(pods, name)
  {
    for j := 0 to |pods|
      invariant forall k | 0 <= k < j :: !EqualToRevisionHash(pods[k], name)
    {
      if EqualToRevisionHash(pods[j], name) {
        return true;
      }
    }
    return false;
  }

  method CollectHistoric(pods: seq<Pod>, revisions: seq<Revision>, current: string, update: string)
    returns (noLive: seq<Revision>)
    ensures noLive == Historic(revisions, pods, current, update)
  {
    noLive := [];
    for i := 0 to |revisions|
      invariant noLive == Historic(revisions[..i], pods, current, update)
    {
      assert revisions[..i + 1][..i] == revisions[..i];
      if revisions[i].name != current && revisions[i].name != update {
        var found := WornByPod(pods, revisions[i].name);
        if !found {
          noLive := noLive + [revisions[i]];
        }
      }
    }
    assert revisions[..|revisions|] == revisions;
  }

  method TruncateHistory(server: RevisionServer, pods: seq<Pod>, revisions: seq<Revision>,
                         current: string, update: string, historyLimit: Option<nat>)
    returns (ok: bool, ghost deleted: nat)
    modifies server
    ensures
      && var historic := Historic(revisions, pods, current, update);
      && var limit := if historyLimit.Some? then historyLimit.value else 10;
      && var excess := Planner.Max(|historic| - limit, 0);
      && deleted <= excess && (ok <==> deleted == excess)
      && server.store == old(server.store) - NamesOf(historic[..deleted])
  {
    var noLive := CollectHistoric(pods, revisions, current, update);
    var limit := if historyLimit.Some? then historyLimit.value else 10;
    deleted := 0;
    if |noLive| <= limit {
      return true, 0;
    }
    noLive := noLive[..|noLive| - limit];
    for k := 0 to |noLive|
      invariant deleted == k && server.store == old(server.store) - NamesOf(noLive[..k])
    {
      assert noLive[..k + 1] == noLive[..k] + [noLive[k]];
      assert NamesOf(noLive[..k + 1]) == NamesOf(noLive[..k]) + {noLive[k].name};
      var gone := server.Delete(noLive[k].name);
      if !gone {
        assert noLive[..k] == Historic(revisions, pods, current, update)[..k];
        return false, deleted;
      }
      deleted := deleted + 1;
    }
    assert noLive[..|noLive|] == noLive;
    return true, deleted;
  }

  // ---------- Status ----------

  datatype Status = Status(replicas: nat, ready: nat, available: nat, updated: nat,
                           currentRevision: string, updateRevision: string)

  lemma NoneOutdated(pods: seq<Pod>, revision: string)
    ensures Count(OUTDATED, pods, revision) == 0 <==> forall p | p in pods :: EqualToRevisionHash(p, revision)
  {
    SelectMeaning(OUTDATED, pods, revision);
    if Count(OUTDATED, pods, revision) > 0 {
      assert Select(OUTDATED, pods, revision)[0] in Select(OUTDATED, pods, revision);
    }
  }

  /** The counts of a status in terms of the pods: running, running long enough, and at the update revision. */
  lemma StatusCounts(pods: seq<Pod>, update: string)
    ensures Count(RUNNING, pods, update) == |set i: nat | i < |pods| && pods[i].phase.Running?|
    ensures Count(Class(Any, Any, Any, Yes), pods, update)
         == |set i: nat | i < |pods| && pods[i].phase.Running? && pods[i].availableSince|
    ensures Count(UPDATED, pods, update) == |set i: nat | i < |pods| && EqualToRevisionHash(pods[i], update)|
  {
    CountIsCardinality(RUNNING, pods, update);
    CountIsCardinality(Class(Any, Any, Any, Yes), pods, update);
    CountIsCardinality(UPDATED, pods, update);
    assert Places(RUNNING, pods, update) == set i: nat | i < |pods| && pods[i].phase.Running?;
    assert Places(Class(Any, Any, Any, Yes), pods, update)
        == set i: nat | i < |pods| && pods[i].phase.Running? && pods[i].availableSince;
    assert Places(UPDATED, pods, update) == set i: nat | i < |pods| && EqualToRevisionHash(pods[i], update);
  }

  /** Counts the pods, and promotes the update revision once every pod, and no fewer than wanted, is on it. */
  method CalculateStatus(replicas: int, pods: seq<Pod>, current: string, update: string) returns (s: Status)
    ensures s.replicas == |pods| && s.updateRevision == update
    ensures s.ready == Count(RUNNING, pods, update)
    ensures s.available == Count(Class(Any, Any, Any, Yes), pods, update)
    ensures s.updated == Count(UPDATED, pods, update)
    ensures s.currentRevision ==
      if |pods| == replicas && Count(OUTDATED, pods, update) == 0 then update else current
    ensures s.currentRevision ==
      if |pods| == replicas && (forall p | p in pods :: EqualToRevisionHash(p, update)) then update else current
  {
    var all, ready, available, updated := 0, 0, 0, 0;
    for i := 0 to |pods|
      invariant all == i
      invariant ready == Count(RUNNING, pods[..i], update)
      invariant available == Count(Class(Any, Any, Any, Yes), pods[..i], update)
      invariant updated == Count(UPDATED, pods[..i], update)
    {
      Planner.CountStep(RUNNING, pods, i, update);
      Planner.CountStep(Class(Any, Any, Any, Yes), pods, i, update);
      Planner.CountStep(UPDATED, pods, i, update);
      all := all + 1;
      if IsRunning(pods[i]) {
        ready := ready + 1;
      }
      if IsPodAvailable(pods[i]) {
        available := available + 1;
      }
      if EqualToRevisionHash(pods[i], update) {
        updated := updated + 1;
      }
    }
    assert pods[..|pods|] == pods;
    CountSplit(EVERY, pods, update);
    CountBound(EVERY, pods, update);
    s := Status(all, ready, available, updated, current, update);
    NoneOutdated(pods, update);
    if s.updated == s.replicas && s.replicas == replicas {
      s := s.(currentRevision := s.updateRevision);
    }
  }
}
