/** Revision history over whole runs: template edits, pod churn and passes in any order. */
module RevisionRuns {
  import opened Kube
  import opened Templates
  import opened Api
  import opened Batches
  import opened Floors
  import opened InPlace
  import opened InPlaceMeaning
  import opened Reconcile
  import opened Revisions
  import opened Scaling
  import opened Updating
  import Planner

  /** `pods` are the live pods and `status` the recorded current revision, empty before the first pass. */
  datatype World = World(template: Template, store: Store, status: string, pods: seq<Pod>)

  /** Every label in `after` was there before or is the update revision's. */
  ghost predicate Relabelled(before: seq<Pod>, after: seq<Pod>, update: string) {
    forall p | p in after ::
      RevisionLabel(p) == update || exists q | q in before :: RevisionLabel(q) == RevisionLabel(p)
  }

  /** What one pass that activated a revision did. `deleted` counts the revisions it truncated. */
  datatype Outcome = Outcome(update: Revision, replies: Replies, activated: Store, statusWritten: bool, deleted: nat)

  function CurrentName(w: World, update: string): string {
    if w.status in w.store then w.status else update
  }

  /**
   * A pass lists the store and the pods afresh. It may stop after activating a revision, after a failed status
   * update, or at any point of the truncation.
   */
  ghost predicate Pass(w: World, v: World, revisions: seq<Revision>, o: Outcome) {
    var current := CurrentName(w, o.update.name);
    && FreshList(revisions, w.store)
    && Activated(w.store, o.activated, o.update, w.template, o.replies)
    && o.activated[o.update.name].name == o.update.name
    && v.template == w.template
    && Relabelled(w.pods, v.pods, o.update.name)
    && (if o.statusWritten then
          && v.status in {current, o.update.name}
          && o.deleted <= |Historic(revisions, w.pods, current, o.update.name)|
          && v.store == Truncated(o.activated, w.pods, revisions, current, o.update.name, o.deleted)
        else v.status == w.status && v.store == o.activated)
  }

  /** The store without the k oldest non-live revisions of the list. */
  ghost function Truncated(store: Store, pods: seq<Pod>, revisions: seq<Revision>,
                           current: string, update: string, k: nat): Store
    requires k <= |Historic(revisions, pods, current, update)|
  {
    store - NamesOf(Historic(revisions, pods, current, update)[..k])
  }

  ghost predicate Edit(w: World, v: World) {
    v == w.(template := v.template)
  }

  ghost predicate Churn(w: World, v: World) {
    v == w.(pods := v.pods) && forall p | p in v.pods :: exists q | q in w.pods :: RevisionLabel(q) == RevisionLabel(p)
  }

  ghost predicate Next(w: World, v: World) {
    Edit(w, v) || Churn(w, v) || exists revisions, o :: Pass(w, v, revisions, o)
  }

  /** The history invariant. */
  ghost predicate Inv(w: World) {
    && WellFormed(w.store)
    && (forall p | p in w.pods :: RevisionLabel(p) in w.store)
    && (w.status == "" || w.status in w.store)
  }

  lemma {:induction false} HistoricMeaning(revisions: seq<Revision>, pods: seq<Pod>, current: string, update: string)
    ensures forall r :: r in Historic(revisions, pods, current, update)
              <==> r in revisions && NotLive(r, pods, current, update)
  {
    if revisions != [] {
      var front := revisions[..|revisions| - 1];
      HistoricMeaning(front, pods, current, update);
      assert revisions == front + [revisions[|revisions| - 1]];
    }
  }

  /** Truncation never touches the active revisions nor one that a listed pod wears. */
  lemma TruncatedAreNotLive(w: World, revisions: seq<Revision>, current: string, update: string, k: nat, name: string)
    requires k <= |Historic(revisions, w.pods, current, update)|
    requires name in NamesOf(Historic(revisions, w.pods, current, update)[..k])
    ensures name != current && name != update
    ensures forall p | p in w.pods :: !EqualToRevisionHash(p, name)
  {
    var historic := Historic(revisions, w.pods, current, update);
    HistoricMeaning(revisions, w.pods, current, update);
    var i :| 0 <= i < k && historic[..k][i].name == name;
    assert historic[i] in historic;
    forall p | p in w.pods ensures !EqualToRevisionHash(p, name) {
      var j :| 0 <= j < |w.pods| && w.pods[j] == p;
      assert !EqualToRevisionHash(w.pods[j], name);
    }
  }

  /** The truncation does not reach the last non-live revision, as with any positive history limit. */
  ghost predicate KeepsLast(w: World, revisions: seq<Revision>, o: Outcome) {
    var historic := Historic(revisions, w.pods, CurrentName(w, o.update.name), o.update.name);
    o.statusWritten ==> o.deleted < |historic| || historic == []
  }

  /** The revisions that are truncated are older than all non-live ones that stay. */
  lemma OldestGoFirst(revisions: seq<Revision>, store: Store, pods: seq<Pod>, current: string, update: string,
                      i: nat, j: nat)
    requires WellFormed(store) && FreshList(revisions, store)
    requires i < j < |Historic(revisions, pods, current, update)|
    ensures
      && var historic := Historic(revisions, pods, current, update);
      && historic[i].number < historic[j].number
  {
    HistoricIsOrdered(revisions, pods, current, update, i, j);
  }

  lemma {:induction false} HistoricIsOrdered(revisions: seq<Revision>, pods: seq<Pod>, current: string, update: string,
                                             i: nat, j: nat)
    requires forall k, l | 0 <= k < l < |revisions| :: revisions[k].number < revisions[l].number
    requires i < j < |Historic(revisions, pods, current, update)|
    ensures
      && var historic := Historic(revisions, pods, current, update);
      && historic[i].number < historic[j].number
  {
    var front, last := revisions[..|revisions| - 1], revisions[|revisions| - 1];
    var before := Historic(front, pods, current, update);
    if j < |before| {
      HistoricIsOrdered(front, pods, current, update, i, j);
    } else {
      HistoricMeaning(front, pods, current, update);
      assert before[i] in before;
      var k :| 0 <= k < |front| && front[k] == before[i];
      assert revisions[k] == front[k];
    }
  }

  /** The newest listed revision is the last to be truncated. */
  lemma LastGoesLast(revisions: seq<Revision>, store: Store, pods: seq<Pod>, current: string, update: string, k: nat)
    requires FreshList(revisions, store) && revisions != []
    requires
      && var historic := Historic(revisions, pods, current, update);
      && (k < |historic| || k == 0) && k <= |historic|
    ensures revisions[|revisions| - 1].name !in NamesOf(Historic(revisions, pods, current, update)[..k])
  {
    var front, last := revisions[..|revisions| - 1], revisions[|revisions| - 1];
    var historic := Historic(revisions, pods, current, update);
    HistoricMeaning(front, pods, current, update);
    HistoricMeaning(revisions, pods, current, update);
    forall i | 0 <= i < k ensures historic[i].name != last.name {
      if NotLive(last, pods, current, update) {
        assert historic[i] == Historic(front, pods, current, update)[i];
        assert historic[i] in front;
      } else {
        assert historic[i] in historic;
      }
    }
  }

  /** A newer revision than the one gone back to is still there. */
  lemma StaysBehind(w: World, v: World, revisions: seq<Revision>, o: Outcome)
    requires Inv(w) && Pass(w, v, revisions, o) && KeepsLast(w, revisions, o)
    requires Loses(w.store, w.template, o.replies) && o.update.name in v.store
    ensures !Newest(v.store, v.store[o.update.name])
  {
    var n :| n in w.store && w.store[n].data == w.template && !Newest(w.store, w.store[n]);
    assert w.store[n] in revisions;
    var last := revisions[|revisions| - 1];
    LastIsNewest(revisions, w.store);
    assert w.store[last.name] == last && last.name != o.update.name;
    if o.statusWritten {
      LastGoesLast(revisions, w.store, w.pods, CurrentName(w, o.update.name), o.update.name, o.deleted);
    }
    assert last.name in v.store && v.store[last.name] == last;
  }

  /** Wherever a template is gone back to, replies that lose its number make a pass that leaves the store as it was. */
  lemma LostNumberHappens(w: World, revisions: seq<Revision>, replies: Replies) returns (v: World, o: Outcome)
    requires Inv(w) && FreshList(revisions, w.store) && Loses(w.store, w.template, replies)
    ensures Pass(w, v, revisions, o) && o.replies == replies
    ensures v == w && o.update != v.store[o.update.name] && !Newest(v.store, v.store[o.update.name])
  {
    var n :| n in w.store && w.store[n].data == w.template && !Newest(w.store, w.store[n]);
    var equal := w.store[n];
    assert equal in revisions;
    LastIsNewest(revisions, w.store);
    BumpedIsActivated(w.store, revisions, equal, replies);
    v := w;
    o := Outcome(equal.(number := NextRevision(revisions)), replies, w.store, false, 0);
  }

  /** A pass stores what activating did, without revisions that are in use. */
  lemma PassStore(w: World, v: World, revisions: seq<Revision>, o: Outcome) returns (gone: set<string>)
    requires Pass(w, v, revisions, o)
    ensures v.store == o.activated - gone
    ensures o.update.name !in gone && CurrentName(w, o.update.name) !in gone
    ensures forall p | p in w.pods :: RevisionLabel(p) !in gone
  {
    var current := CurrentName(w, o.update.name);
    gone :=
      if o.statusWritten then NamesOf(Historic(revisions, w.pods, current, o.update.name)[..o.deleted]) else {};
    assert v.store == o.activated - gone;
    forall name | name in gone
      ensures name != current && name != o.update.name && forall p | p in w.pods :: RevisionLabel(p) != name
    {
      TruncatedAreNotLive(w, revisions, current, o.update.name, o.deleted, name);
    }
  }

  lemma NewestAfterPass(w: World, v: World, revisions: seq<Revision>, o: Outcome)
    requires Inv(w) && Pass(w, v, revisions, o) && KeepsLast(w, revisions, o) && o.update.name in v.store
    ensures Newest(v.store, v.store[o.update.name]) <==> !Loses(w.store, w.template, o.replies)
  {
    if Loses(w.store, w.template, o.replies) {
      StaysBehind(w, v, revisions, o);
    } else {
      ActivationKeepsWellFormed(w.store, o.activated, o.update, w.template, o.replies);
      var gone := PassStore(w, v, revisions, o);
    }
  }

  /**
   * A pass keeps the invariant, and its update revision holds the template. It has the largest number unless the
   * pass went back to an older template and the replies lost the new number, and only then.
   */
  lemma PassKeepsInvariant(w: World, v: World, revisions: seq<Revision>, o: Outcome)
    requires Inv(w) && Pass(w, v, revisions, o)
    ensures Inv(v)
    ensures o.update.data == w.template
    ensures o.update.name in v.store && v.store[o.update.name].data == w.template
    ensures Newest(o.activated, o.activated[o.update.name]) <==> !Loses(w.store, w.template, o.replies)
    ensures KeepsLast(w, revisions, o) ==>
      (Newest(v.store, v.store[o.update.name]) <==> !Loses(w.store, w.template, o.replies))
  {
    ActivationKeepsWellFormed(w.store, o.activated, o.update, w.template, o.replies);
    var gone := PassStore(w, v, revisions, o);
    if KeepsLast(w, revisions, o) {
      NewestAfterPass(w, v, revisions, o);
    }
    PassKeepsLabels(w, v, o, gone);
    RemovalKeepsWellFormed(o.activated, gone);
  }

  lemma RemovalKeepsWellFormed(store: Store, gone: set<string>)
    requires WellFormed(store)
    ensures WellFormed(store - gone)
  {
  }

  lemma PassKeepsLabels(w: World, v: World, o: Outcome, gone: set<string>)
    requires Inv(w) && Relabelled(w.pods, v.pods, o.update.name) && v.store == o.activated - gone
    requires w.store.Keys <= o.activated.Keys && o.update.name in v.store
    requires forall p | p in w.pods :: RevisionLabel(p) !in gone
    ensures forall p | p in v.pods :: RevisionLabel(p) in v.store
  {
    forall p | p in v.pods ensures RevisionLabel(p) in v.store {
      if RevisionLabel(p) != o.update.name {
        var q :| q in w.pods && RevisionLabel(q) == RevisionLabel(p);
      }
    }
  }

  /**
   * Over any run the stored revisions keep distinct numbers and distinct data, and every live pod's label and the
   * recorded current revision name a stored revision.
   */
  lemma {:induction false} HistoryRunInvariant(run: seq<World>, k: nat)
    requires k < |run| && Inv(run[0])
    requires forall i | 0 <= i < |run| - 1 :: Next(run[i], run[i + 1])
    ensures Inv(run[k])
  {
    if k > 0 {
      HistoryRunInvariant(run, k - 1);
      var w, v := run[k - 1], run[k];
      assert Next(run[k - 1], run[k - 1 + 1]);
      if revisions: seq<Revision>, o :| Pass(w, v, revisions, o) {
        PassKeepsInvariant(w, v, revisions, o);
      }
    }
  }

  /** The stored revisions that are neither active nor worn by a listed pod. */
  ghost function NonLive(store: Store, pods: seq<Pod>, current: string, update: string): set<string> {
    set n | n in store && n != current && n != update && forall p | p in pods :: !EqualToRevisionHash(p, n)
  }

  lemma {:induction false} NamesOfSize(revisions: seq<Revision>)
    ensures |NamesOf(revisions)| <= |revisions|
  {
    if revisions != [] {
      var front, last := revisions[..|revisions| - 1], revisions[|revisions| - 1];
      NamesOfSize(front);
      assert revisions == front + [last];
      assert NamesOf(revisions) == NamesOf(front) + {last.name};
    }
  }

  lemma NonLiveIsLeft(pods: seq<Pod>, revisions: seq<Revision>, current: string, update: string,
                      k: nat, r: Revision)
    requires r in revisions && NotLive(r, pods, current, update)
    requires k <= |Historic(revisions, pods, current, update)|
    requires r.name !in NamesOf(Historic(revisions, pods, current, update)[..k])
    ensures r.name in NamesOf(Historic(revisions, pods, current, update)[k..])
  {
    HistoricMeaning(revisions, pods, current, update);
    SplitNames(Historic(revisions, pods, current, update), k, r);
  }

  lemma SplitNames(historic: seq<Revision>, k: nat, r: Revision)
    requires k <= |historic| && r in historic && r.name !in NamesOf(historic[..k])
    ensures r.name in NamesOf(historic[k..])
  {
  }

  /** A truncation that ran to its end leaves at most the history limit of non-live revisions. */
  lemma HistoryIsBounded(w: World, v: World, revisions: seq<Revision>, o: Outcome, limit: nat)
    requires WellFormed(w.store) && Pass(w, v, revisions, o) && o.statusWritten
    requires o.deleted >= |Historic(revisions, w.pods, CurrentName(w, o.update.name), o.update.name)| - limit
    ensures |NonLive(v.store, w.pods, CurrentName(w, o.update.name), o.update.name)| <= limit
  {
    TruncationBound(w.store, o.activated, w.pods, revisions, CurrentName(w, o.update.name), o.update.name,
                    o.deleted, limit);
  }

  lemma TruncationBound(before: Store, activated: Store, pods: seq<Pod>, revisions: seq<Revision>,
                        current: string, update: string, k: nat, limit: nat)
    requires WellFormed(before) && FreshList(revisions, before)
    requires activated.Keys == before.Keys + {update}
    requires |Historic(revisions, pods, current, update)| - limit <= k <= |Historic(revisions, pods, current, update)|
    ensures |NonLive(Truncated(activated, pods, revisions, current, update, k), pods, current, update)| <= limit
  {
    var historic := Historic(revisions, pods, current, update);
    NonLiveAreNamed(before, activated, pods, revisions, current, update, k);
    NamesOfSize(historic[k..]);
    SubsetSize(NonLive(Truncated(activated, pods, revisions, current, update, k), pods, current, update),
                     NamesOf(historic[k..]));
  }

  lemma NonLiveAreNamed(before: Store, activated: Store, pods: seq<Pod>, revisions: seq<Revision>,
                        current: string, update: string, k: nat)
    requires WellFormed(before) && FreshList(revisions, before)
    requires activated.Keys == before.Keys + {update}
    requires k <= |Historic(revisions, pods, current, update)|
    ensures NonLive(Truncated(activated, pods, revisions, current, update, k), pods, current, update)
         <= NamesOf(Historic(revisions, pods, current, update)[k..])
  {
    forall n | n in NonLive(Truncated(activated, pods, revisions, current, update, k), pods, current, update)
      ensures n in NamesOf(Historic(revisions, pods, current, update)[k..])
    {
      assert before[n] in revisions && NotLive(before[n], pods, current, update);
      NonLiveIsLeft(pods, revisions, current, update, k, before[n]);
    }
  }

  // ---------- A reconcile pass is a step of these runs ----------

  lemma {:induction false} WithoutMembers(pods: seq<Pod>, name: string)
    ensures forall p | p in Without(pods, name) :: p in pods
  {
    if pods != [] {
      WithoutMembers(pods[..|pods| - 1], name);
      assert pods == pods[..|pods| - 1] + [pods[|pods| - 1]];
    }
  }

  lemma {:induction false} DeletionsMembers(pods: seq<Pod>, list: seq<Pod>)
    ensures forall p | p in Apply(pods, Deletions(list)) :: p in pods
  {
    if list != [] {
      var front, last := list[..|list| - 1], list[|list| - 1];
      DeletionsMembers(pods, front);
      assert Deletions(list) == Deletions(front) + [Deleted(last.name)];
      StoredApplies(pods, Deletions(front), [Deleted(last.name)]);
      WithoutMembers(Apply(pods, Deletions(front)), last.name);
    }
  }

  lemma StepRelabels(iu: Inplaceu, update: string, step: Scaling.Step, modified: bool, err: bool, before: seq<Pod>)
    requires Ran(step, modified, err)
    ensures Relabelled(before, Apply(before, StepWrites(iu, update, step)), update)
  {
    match step
    case Creating(ids, outcomes, _) => CreationsApply(before, NewPods(iu, update, ids), outcomes);
    case Deleting(list, k) => DeletionsMembers(before, list[..k]);
    case Idle =>
  }

  lemma EffectRelabels(revisions: seq<Revision>, update: Revision, pod: Pod, e: Effect, now: Time,
                       marshal: State -> string)
    requires Compatible(revisions, update) && e.Stored?
    requires Effective(WayOf(revisions, update, pod), update, pod, e, now, marshal)
    ensures RevisionLabel(e.after) == update.name || RevisionLabel(e.after) == RevisionLabel(e.before)
  {
    var way := WayOf(revisions, update, pod);
    if way.InPlaceWay? {
      OldRevisionMember(revisions, pod);
      RevisionLabelSurvives(e.before, way.from, update, now, marshal);
    }
  }

  lemma PutRelabels(start: seq<Pod>, before: seq<Pod>, p: Pod, q: Pod, update: string)
    requires Relabelled(start, before, update) && p in before
    requires RevisionLabel(q) == update || RevisionLabel(q) == RevisionLabel(p)
    ensures Relabelled(start, Put(before, q), update)
  {
    PutNames(before, q);
    forall r | r in Put(before, q)
      ensures RevisionLabel(r) == update || exists o | o in start :: RevisionLabel(o) == RevisionLabel(r)
    {
      assert r == q || r in before;
    }
  }

  lemma {:induction false} EffectsRelabel(targets: seq<Pod>, revisions: seq<Revision>, update: Revision,
                                          start: seq<Pod>, effects: seq<Effect>, now: Time, marshal: State -> string)
    requires Compatible(revisions, update) && |effects| <= |targets|
    requires Carried(targets, revisions, update, start, effects, now, marshal)
    ensures Relabelled(start, Apply(start, WritesOf(effects)), update.name)
  {
    if effects != [] {
      var last := |effects| - 1;
      var front, e := effects[..last], effects[last];
      CarriedFront(targets, revisions, update, start, effects, now, marshal);
      EffectsRelabel(targets, revisions, update, start, front, now, marshal);
      var before := Apply(start, WritesOf(front));
      if e.Stored? {
        StoredApplies(start, WritesOf(front), [Replaced(e.after)]);
        EffectRelabels(revisions, update, targets[last], e, now, marshal);
        PutRelabels(start, before, e.before, e.after, update.name);
      } else {
        assert WritesOf(front) + [] == WritesOf(front);
      }
    }
  }

  /** Whatever its calls did, a sync leaves only the update revision's label and labels that were there. */
  lemma SyncRelabels(iu: Inplaceu, update: Revision, revisions: seq<Revision>, pods: seq<Pod>,
                     before: seq<Pod>, after: seq<Pod>, t: Trace, now: Time, marshal: State -> string)
    requires PodsSynced(iu, update, revisions, pods, before, after, t, now, marshal) && Compatible(revisions, update)
    ensures Relabelled(before, after, update.name)
  {
    WritesOfOneHalf(ApplyRevision(iu, update), update, t);
    if t.modified {
      StepRelabels(ApplyRevision(iu, update), update.name, t.step, t.modified, t.scaleErr, before);
    } else if !iu.deleting {
      EffectsRelabel(At(pods, t.run.chosen), revisions, update, before, t.run.effects, now, marshal);
    }
  }

  /** A pass of the controller that got through its gates over a complete list is a step of these runs. */
  lemma ReconcileIsPass(iu: Inplaceu, before: Store, after: Store, statusCurrent: string, status: Option<Status>,
                        historyLimit: Option<nat>, revisions: seq<Revision>, replies: Replies, pods: seq<Pod>,
                        livePods: seq<Pod>, s: Stage, now: Time, marshal: State -> string)
    requires WellFormed(before) && FreshList(revisions, before) && s.Synced?
    requires HistoryKept(before, after, iu.template, statusCurrent, historyLimit, revisions, replies, pods, s)
    requires PodsSynced(iu, s.active.update, revisions, pods, pods, livePods, s.t, now, marshal)
    requires Compatible(revisions, s.active.update)
    requires s.statusWritten <==> status.Some?
    requires status.Some? ==> status.value.currentRevision in {s.active.current.name, s.active.update.name}
    ensures
      && var w := World(iu.template, before, statusCurrent, pods);
      && var v := World(iu.template, after,
                        if status.Some? then status.value.currentRevision else statusCurrent, livePods);
      && var o := Outcome(s.active.update, replies, s.activated, s.statusWritten, s.deleted);
      && Pass(w, v, revisions, o)
  {
    SyncRelabels(iu, s.active.update, revisions, pods, pods, livePods, s.t, now, marshal);
    FreshHistory(iu.template, World(iu.template, before, statusCurrent, pods), after, historyLimit, revisions,
                 replies, s);
  }

  /** What a pass did to the history, when it worked from a fresh list. */
  lemma FreshHistory(template: Template, w: World, after: Store, historyLimit: Option<nat>, revisions: seq<Revision>,
                     replies: Replies, s: Stage)
    requires WellFormed(w.store) && FreshList(revisions, w.store) && s.Synced?
    requires HistoryKept(w.store, after, template, w.status, historyLimit, revisions, replies, w.pods, s)
    ensures
      && var update, current := s.active.update, CurrentName(w, s.active.update.name);
      && s.active.current.name == current && Activated(w.store, s.activated, update, template, replies)
      && s.activated[update.name].name == update.name
      && s.deleted <= |Historic(revisions, w.pods, current, update.name)|
      && after == Truncated(s.activated, w.pods, revisions, current, update.name, s.deleted)
      && (!s.statusWritten ==> after == s.activated)
  {
    FreshListed(revisions, w.store, w.status);
    assert NamesOf([]) == {};
  }

  /** With any history limit but zero such a pass does not reach the last non-live revision. */
  lemma LimitKeepsLast(template: Template, w: World, after: Store, historyLimit: Option<nat>,
                       revisions: seq<Revision>, replies: Replies, s: Stage)
    requires Keyed(w.store) && FreshList(revisions, w.store) && s.Synced?
    requires HistoryKept(w.store, after, template, w.status, historyLimit, revisions, replies, w.pods, s)
    ensures historyLimit != Some(0) ==>
      KeepsLast(w, revisions, Outcome(s.active.update, replies, s.activated, s.statusWritten, s.deleted))
  {
    FreshListed(revisions, w.store, w.status);
    assert s.active.current.name == CurrentName(w, s.active.update.name);
  }
}
