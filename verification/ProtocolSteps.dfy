/**
 * The halves of a pass, as the methods are proved to run them, are runs of the protocol: for whatever outcome of
 * their calls there are atomic steps that lead there, and they leave the same expectations.
 */
module ProtocolSteps {
  import opened Kube
  import opened Planner
  import opened Batches
  import opened Scaling
  import opened Updating
  import opened EventHandler
  import opened Protocol
  import E = Expectations
  import V = Versions

  // ---------- Paths ----------

  ghost predicate Path(c: Config, run: seq<State>, moves: seq<Move>) {
    |run| == |moves| + 1 && forall i | 0 <= i < |moves| :: StepAt(c, run, moves, i)
  }

  ghost predicate Leads(c: Config, s: State, t: State) {
    exists run, moves :: Path(c, run, moves) && run[0] == s && run[|run| - 1] == t
  }

  lemma Stays(c: Config, s: State)
    ensures Leads(c, s, s)
  {
    assert Path(c, [s], []);
  }

  lemma OneMore(c: Config, s: State, t: State, m: Move, u: State)
    requires Leads(c, s, t) && Next(c, t, m, u)
    ensures Leads(c, s, u)
  {
    var run: seq<State>, moves: seq<Move> :| Path(c, run, moves) && run[0] == s && run[|run| - 1] == t;
    var run', moves' := run + [u], moves + [m];
    forall i | 0 <= i < |moves'| ensures StepAt(c, run', moves', i) {
      if i < |moves| {
        assert StepAt(c, run, moves, i);
        assert run'[i] == run[i] && run'[i + 1] == run[i + 1] && moves'[i] == moves[i];
      }
    }
    assert Path(c, run', moves');
  }

  // ---------- Versions and expectations ----------

  /** The stored pods are the workload's own, and `room` more versions fit 64 bits. */
  ghost predicate Sound(c: Config, s: State, room: nat) {
    && s.clock + room < 0x1_0000_0000_0000_0000
    && forall n | n in s.server :: Owned(c, n, s.server[n]) && VersionOf(s.server[n]) <= s.clock && n in s.used
  }

  /** The pod with the version the server assigns next. */
  function Stamp(p: Pod, s: State): Pod {
    p.(uid := p.name, resourceVersion := V.Decimal(s.clock + 1))
  }

  lemma StampIsNext(p: Pod, s: State)
    requires s.clock + 1 < 0x1_0000_0000_0000_0000
    ensures VersionOf(Stamp(p, s)) == s.clock + 1 && V.ParseUint(Stamp(p, s).resourceVersion).Some?
  {
    V.ParseDecimal(s.clock + 1);
  }

  lemma StampFollows(c: Config, s: State, n: string, q: Pod)
    requires Sound(c, s, 1) && n in s.server
    requires q == s.server[n].(deleting := q.deleting) && (s.server[n].deleting ==> q.deleting)
    ensures Owned(c, n, Stamp(q, s)) && Follows(s.server[n], Stamp(q, s)) && VersionOf(Stamp(q, s)) == s.clock + 1
  {
    StampIsNext(q, s);
  }

  ghost predicate AwaitedSet(log: seq<E.Event>, key: string, action: E.Action, names: set<string>) {
    forall n :: n in names <==> E.Awaited(log, key, action, n)
  }

  lemma AwaitedSetStep(log: seq<E.Event>, e: E.Event, key: string, action: E.Action, names: set<string>)
    requires AwaitedSet(log, key, action, names)
    ensures AwaitedSet(log + [e], key, action, E.After(e, key, action, names))
  {
    forall n ensures n in E.After(e, key, action, names) <==> E.Awaited(log + [e], key, action, n) {
      E.AwaitedStep(log, e, key, action, n);
    }
  }

  /** After the log of t what was awaited after that of s is changed as `change` says, for creations and deletions. */
  ghost predicate Leaves(c: Config, s: State, t: State, action: E.Action, gone: set<string>, added: set<string>) {
    && (forall names :: AwaitedSet(s.scale, c.key, action, names)
                    ==> AwaitedSet(t.scale, c.key, action, names - gone + added))
    && forall a, names | a != action :: AwaitedSet(s.scale, c.key, a, names) ==> AwaitedSet(t.scale, c.key, a, names)
  }

  lemma LeavesSame(c: Config, s: State, t: State, action: E.Action)
    requires t.scale == s.scale
    ensures Leaves(c, s, t, action, {}, {})
  {
    forall names | AwaitedSet(s.scale, c.key, action, names)
      ensures AwaitedSet(t.scale, c.key, action, names - {} + {})
    {
      assert names - {} + {} == names;
    }
  }

  lemma LeavesExpected(c: Config, s: State, t: State, u: State, action: E.Action, added: set<string>, n: string)
    requires Leaves(c, s, t, action, {}, added) && u.scale == t.scale + [E.Expected(c.key, action, n)]
    ensures Leaves(c, s, u, action, {}, added + {n})
  {
    forall a, names | AwaitedSet(s.scale, c.key, a, names)
      ensures AwaitedSet(u.scale, c.key, a, if a == action then names - {} + (added + {n}) else names)
    {
      var before := if a == action then names - {} + added else names;
      AwaitedSetStep(t.scale, E.Expected(c.key, action, n), c.key, a, before);
      assert a == action ==> before + {n} == names - {} + (added + {n});
    }
  }

  lemma LeavesObserved(c: Config, s: State, t: State, u: State, action: E.Action, gone: set<string>,
                       added: set<string>, n: string)
    requires Leaves(c, s, t, action, gone, added) && u.scale == t.scale + [E.Observed(c.key, action, n)]
    ensures Leaves(c, s, u, action, gone + {n}, added - {n})
  {
    forall a, names | AwaitedSet(s.scale, c.key, a, names)
      ensures AwaitedSet(u.scale, c.key, a, if a == action then names - (gone + {n}) + (added - {n}) else names)
    {
      var before := if a == action then names - gone + added else names;
      AwaitedSetStep(t.scale, E.Observed(c.key, action, n), c.key, a, before);
      assert a == action ==> before - {n} == names - (gone + {n}) + (added - {n});
    }
  }

  // ---------- Deletions ----------

  function Members(names: seq<string>): set<string> {
    set n | n in names
  }

  /** The named pods are gone or terminating, and every other pod is as it was. */
  ghost predicate PodsGone(s: State, t: State, names: set<string>) {
    && (forall n | n in s.server && n !in names :: n in t.server && t.server[n] == s.server[n])
    && (forall n | n in t.server :: n in s.server)
    && forall n | n in names && n in t.server :: t.server[n].deleting
  }

  /** Where a deletion that succeeds leads. */
  ghost predicate DeletedNext(c: Config, s: State, t: State)
    requires s.pass.Removing? && s.pass.names != []
  {
    && s.clock <= t.clock <= s.clock + 1 && Sound(c, t, 0)
    && t.pass == Removing(s.pass.basis, s.pass.names[1..], false, true)
    && t.scale == s.scale + [E.Expected(c.key, E.Delete, s.pass.names[0])]
    && t.deleted == s.deleted + {s.pass.names[0]} && PodsGone(s, t, {s.pass.names[0]})
  }

  lemma DeletionAnnounced(c: Config, start: State, s: State) returns (u: State)
    requires Leads(c, start, s) && s.pass.Removing? && !s.pass.announced && s.pass.names != []
    ensures Leads(c, start, u)
    ensures u == s.(scale := s.scale + [E.Expected(c.key, E.Delete, s.pass.names[0])],
                    pass := Removing(s.pass.basis, s.pass.names, true, s.pass.modified))
  {
    u := s.(scale := s.scale + [E.Expected(c.key, E.Delete, s.pass.names[0])],
            pass := Removing(s.pass.basis, s.pass.names, true, s.pass.modified));
    OneMore(c, start, s, AnnounceDelete, u);
  }

  /** A deletion that leaves the pod terminating. */
  lemma DeletionMarks(c: Config, start: State, s: State) returns (t: State)
    requires Leads(c, start, s) && Sound(c, s, 1)
    requires s.pass.Removing? && !s.pass.announced && s.pass.names != [] && s.pass.names[0] in s.server
    ensures Leads(c, start, t) && DeletedNext(c, s, t)
  {
    var name := s.pass.names[0];
    var u := DeletionAnnounced(c, start, s);
    var p := Stamp(s.server[name].(deleting := true), s);
    StampFollows(c, s, name, s.server[name].(deleting := true));
    t := u.(server := u.server[name := p], clock := VersionOf(p), used := u.used + {name}, watch := u.watch + [Put(p)],
            deleted := u.deleted + {name}, pass := Removing(s.pass.basis, s.pass.names[1..], false, true));
    assert ChangesPod(c, u, p, t);
    OneMore(c, start, u, DeleteMarks(p), t);
  }

  /** A deletion that removes the pod at once. */
  lemma DeletionRemoves(c: Config, start: State, s: State) returns (t: State)
    requires Leads(c, start, s) && Sound(c, s, 1)
    requires s.pass.Removing? && !s.pass.announced && s.pass.names != [] && s.pass.names[0] in s.server
    ensures Leads(c, start, t) && DeletedNext(c, s, t)
  {
    var name := s.pass.names[0];
    var u := DeletionAnnounced(c, start, s);
    t := u.(server := u.server - {name}, watch := u.watch + [Gone(name)], deleted := u.deleted + {name},
            pass := Removing(s.pass.basis, s.pass.names[1..], false, true));
    assert Erases(u, name, t);
    OneMore(c, start, u, DeleteRemoves, t);
  }

  /** The first k deletions of a pass have succeeded. */
  ghost predicate DeletedFirst(c: Config, s: State, t: State, k: nat)
    requires s.pass.Removing? && k <= |s.pass.names|
  {
    && t.pass == Removing(s.pass.basis, s.pass.names[k..], false, s.pass.modified || k > 0)
    && Leaves(c, s, t, E.Delete, {}, Members(s.pass.names[..k]))
    && t.deleted == s.deleted + Members(s.pass.names[..k]) && PodsGone(s, t, Members(s.pass.names[..k]))
  }

  lemma OneMoreDeleted(c: Config, s: State, u: State, t: State, k: nat)
    requires s.pass.Removing? && k < |s.pass.names| && DeletedFirst(c, s, u, k)
    requires u.pass.names != [] && u.pass.names[0] == s.pass.names[k] && DeletedNext(c, u, t)
    ensures DeletedFirst(c, s, t, k + 1)
  {
    var names := s.pass.names;
    LeavesExpected(c, s, u, t, E.Delete, Members(names[..k]), names[k]);
    assert names[k..][1..] == names[k + 1..] && names[..k + 1] == names[..k] + [names[k]];
    assert Members(names[..k + 1]) == Members(names[..k]) + {names[k]};
    OneMoreGone(s, u, t, Members(names[..k]), names[k]);
  }

  lemma OneMoreGone(s: State, u: State, t: State, names: set<string>, n: string)
    requires PodsGone(s, u, names) && PodsGone(u, t, {n})
    ensures PodsGone(s, t, names + {n})
  {
  }

  lemma {:induction false} DeletionsHappen(c: Config, start: State, s: State, k: nat, graceful: bool)
    returns (t: State)
    requires Leads(c, start, s) && Sound(c, s, k)
    requires s.pass.Removing? && !s.pass.announced && k <= |s.pass.names| && Distinct(s.pass.names)
    requires forall i | 0 <= i < k :: s.pass.names[i] in s.server
    ensures Leads(c, start, t) && t.clock <= s.clock + k && Sound(c, t, 0) && DeletedFirst(c, s, t, k)
  {
    if k == 0 {
      t := s;
      LeavesSame(c, s, t, E.Delete);
      assert Members(s.pass.names[..0]) == {} && s.pass.names[0..] == s.pass.names;
    } else {
      var u := DeletionsHappen(c, start, s, k - 1, graceful);
      assert u.pass.names[0] == s.pass.names[k - 1];
      assert forall i | 0 <= i < k - 1 :: s.pass.names[i] != s.pass.names[k - 1];
      if graceful {
        t := DeletionMarks(c, start, u);
      } else {
        t := DeletionRemoves(c, start, u);
      }
      OneMoreDeleted(c, s, u, t, k - 1);
    }
  }

  /** After the deletions that succeed, one fails or the list is done, and the pass goes on as the source does. */
  lemma DeletingIsRun(c: Config, start: State, s: State, k: nat, graceful: bool, run: UpdateRun, end: Pass)
    returns (t: State)
    requires Leads(c, start, s) && Sound(c, s, k)
    requires s.pass.Removing? && !s.pass.announced && !s.pass.modified
    requires k <= |s.pass.names| && Distinct(s.pass.names)
    requires forall i | 0 <= i < k :: s.pass.names[i] in s.server
    requires if k > 0 then end == Resting else ChoosesUpdates(c, s.pass.basis, run, end)
    ensures Leads(c, start, t) && t.pass == end
    ensures
      && var names := s.pass.names;
      && var failed := if k < |names| then {names[k]} else {};
      && Leaves(c, s, t, E.Delete, failed, Members(names[..k]) - failed)
      && PodsGone(s, t, Members(names[..k])) && t.deleted == s.deleted + Members(names[..k])
  {
    var u := DeletionsHappen(c, start, s, k, graceful);
    if k < |s.pass.names| {
      t := DeletionFails(c, start, s, u, k, run, end);
    } else {
      t := u.(pass := end);
      OneMore(c, start, u, EndDeleting(run), t);
    }
  }

  lemma DeletionFails(c: Config, start: State, s: State, u: State, k: nat, run: UpdateRun, end: Pass)
    returns (t: State)
    requires Leads(c, start, u) && s.pass.Removing? && !s.pass.modified
    requires k < |s.pass.names| && DeletedFirst(c, s, u, k)
    requires if k > 0 then end == Resting else ChoosesUpdates(c, s.pass.basis, run, end)
    ensures Leads(c, start, t) && t.pass == end && t.server == u.server && t.deleted == u.deleted
    ensures Leaves(c, s, t, E.Delete, {s.pass.names[k]}, Members(s.pass.names[..k]) - {s.pass.names[k]})
  {
    var name, members := s.pass.names[k], Members(s.pass.names[..k]);
    assert u.pass.names[0] == name;
    var v := DeletionAnnounced(c, start, u);
    t := v.(scale := v.scale + [E.Observed(c.key, E.Delete, name)], pass := end);
    OneMore(c, start, v, DeleteFail(run), t);
    LeavesExpected(c, s, u, v, E.Delete, members, name);
    LeavesObserved(c, s, v, t, E.Delete, {}, members + {name}, name);
    assert {} + {name} == {name} && members + {name} - {name} == members - {name};
  }

  // ---------- Creations ----------

  /** New pods of this workload under distinct names that no pod ever had. */
  ghost predicate FreshQueue(c: Config, queue: seq<Pod>, used: set<string>) {
    && DistinctNames(queue)
    && forall i | 0 <= i < |queue| ::
         queue[i].name !in used && OwnerKey(queue[i]) == Some(c.key) && !queue[i].deleting
  }

  lemma {:induction false} AnnouncementsHappen(c: Config, start: State, s: State, i: nat) returns (t: State)
    requires Leads(c, start, s) && s.pass.Announcing? && s.pass.i == 0 && i <= |s.pass.queue|
    ensures Leads(c, start, t)
    ensures t == s.(scale := t.scale, pass := Announcing(s.pass.basis, s.pass.queue, i))
    ensures Leaves(c, s, t, E.Create, {}, PodNames(s.pass.queue[..i]))
  {
    var queue := s.pass.queue;
    if i == 0 {
      t := s;
      LeavesSame(c, s, t, E.Create);
      assert PodNames(queue[..0]) == {};
    } else {
      var u := AnnouncementsHappen(c, start, s, i - 1);
      t := u.(scale := u.scale + [E.Expected(c.key, E.Create, queue[i - 1].name)],
              pass := Announcing(s.pass.basis, queue, i));
      OneMore(c, start, u, Announce, t);
      LeavesExpected(c, s, u, t, E.Create, PodNames(queue[..i - 1]), queue[i - 1].name);
      PodNamesStep(queue, i - 1);
    }
  }

  /** The calls for the first pods of the queue are done, with these outcomes. */
  ghost predicate Called(s: State, t: State, basis: Basis, queue: seq<Pod>, outcomes: seq<bool>)
    requires |outcomes| <= |queue|
  {
    var created := CreatedNames(queue, outcomes);
    var called := PodNames(queue[..|outcomes|]);
    && t.pass == Calling(basis, PodNames(queue) - called, called - created, created)
    && t.scale == s.scale && t.deleted == s.deleted && t.used == s.used + created
    && PodsMade(s, t, created)
  }

  /** The named pods are new on the server, and every other pod is as it was. */
  ghost predicate PodsMade(s: State, t: State, names: set<string>) {
    && (forall n | n in s.server && n !in names :: n in t.server && t.server[n] == s.server[n])
    && (forall n | n in t.server :: n in s.server || n in names)
    && forall n | n in names :: n in t.server && IsActive(t.server[n])
  }

  lemma CallSucceeds(c: Config, start: State, s: State, p: Pod) returns (t: State)
    requires Leads(c, start, s) && Sound(c, s, 1)
    requires s.pass.Calling? && p.name in s.pass.todo && p.name !in s.used
    requires OwnerKey(p) == Some(c.key) && IsActive(p)
    ensures Leads(c, start, t) && t.clock == s.clock + 1 && Sound(c, t, 0)
    ensures t.pass == Calling(s.pass.basis, s.pass.todo - {p.name}, s.pass.failed, s.pass.created + {p.name})
    ensures t.scale == s.scale && t.deleted == s.deleted && t.used == s.used + {p.name}
    ensures t.server == s.server[p.name := Stamp(p, s)]
  {
    var q := Stamp(p, s);
    StampIsNext(p, s);
    t := s.(server := s.server[p.name := q], clock := VersionOf(q), used := s.used + {p.name},
            watch := s.watch + [Put(q)],
            pass := Calling(s.pass.basis, s.pass.todo - {p.name}, s.pass.failed, s.pass.created + {p.name}));
    assert Stores(c, s, q, t);
    OneMore(c, start, s, CreateOk(q), t);
  }

  lemma CallFails(c: Config, start: State, s: State, n: string) returns (t: State)
    requires Leads(c, start, s) && s.pass.Calling? && n in s.pass.todo
    ensures Leads(c, start, t)
    ensures t == s.(pass := Calling(s.pass.basis, s.pass.todo - {n}, s.pass.failed + {n}, s.pass.created))
  {
    t := s.(pass := Calling(s.pass.basis, s.pass.todo - {n}, s.pass.failed + {n}, s.pass.created));
    OneMore(c, start, s, CreateFail(n), t);
  }

  /** What one more call adds to the sets of names. */
  lemma OneMoreName(queue: seq<Pod>, outcomes: seq<bool>)
    requires outcomes != [] && |outcomes| <= |queue|
    ensures
      && var last := |outcomes| - 1;
      && var front, n := outcomes[..last], queue[last].name;
      && PodNames(queue[..|outcomes|]) == PodNames(queue[..last]) + {n}
      && CreatedNames(queue, outcomes) == CreatedNames(queue, front) + (if outcomes[last] then {n} else {})
      && CreatedNames(queue, front) <= PodNames(queue[..last])
  {
    var last := |outcomes| - 1;
    PodNamesStep(queue, last);
    CreatedAreCalled(queue, outcomes[..last]);
  }

  lemma {:induction false} CreatedAreCalled(queue: seq<Pod>, outcomes: seq<bool>)
    requires |outcomes| <= |queue|
    ensures CreatedNames(queue, outcomes) <= PodNames(queue[..|outcomes|])
  {
    if outcomes != [] {
      CreatedAreCalled(queue, outcomes[..|outcomes| - 1]);
      PodNamesStep(queue, |outcomes| - 1);
    }
  }

  lemma {:induction false} CallsHappen(c: Config, start: State, s: State, queue: seq<Pod>, outcomes: seq<bool>)
    returns (t: State)
    requires Leads(c, start, s) && Sound(c, s, |outcomes|) && FreshQueue(c, queue, s.used)
    requires |outcomes| <= |queue| && forall p | p in queue :: IsActive(p)
    requires s.pass.Calling? && s.pass == Calling(s.pass.basis, PodNames(queue), {}, {})
    ensures Leads(c, start, t) && t.clock <= s.clock + |outcomes| && Sound(c, t, 0)
    ensures Called(s, t, s.pass.basis, queue, outcomes)
  {
    if outcomes == [] {
      t := s;
      assert PodNames(queue[..0]) == {};
    } else {
      var last := |outcomes| - 1;
      var u := CallsHappen(c, start, s, queue, outcomes[..last]);
      NextIsFree(c, queue, outcomes, s.used);
      assert queue[last] in queue;
      t := CallHappens(c, start, u, queue[last], outcomes[last]);
      OneMoreName(queue, outcomes);
      OneMoreCalled(s, u, t, s.pass.basis, queue, outcomes);
    }
  }

  /** Where one creation call leads. */
  ghost predicate CalledNext(s: State, t: State, n: string, ok: bool)
    requires s.pass.Calling?
  {
    && t.pass == Calling(s.pass.basis, s.pass.todo - {n}, s.pass.failed + (if ok then {} else {n}),
                         s.pass.created + (if ok then {n} else {}))
    && t.scale == s.scale && t.deleted == s.deleted && t.used == s.used + (if ok then {n} else {})
    && if ok then n in t.server && IsActive(t.server[n]) && t.server == s.server[n := t.server[n]]
       else t.server == s.server
  }

  lemma CallHappens(c: Config, start: State, s: State, p: Pod, ok: bool) returns (t: State)
    requires Leads(c, start, s) && Sound(c, s, 1)
    requires s.pass.Calling? && p.name in s.pass.todo && p.name !in s.used
    requires OwnerKey(p) == Some(c.key) && IsActive(p)
    ensures Leads(c, start, t) && s.clock <= t.clock <= s.clock + 1 && Sound(c, t, 0)
    ensures CalledNext(s, t, p.name, ok)
  {
    if ok {
      t := CallSucceeds(c, start, s, p);
    } else {
      t := CallFails(c, start, s, p.name);
    }
  }

  lemma NextIsFree(c: Config, queue: seq<Pod>, outcomes: seq<bool>, used: set<string>)
    requires outcomes != [] && |outcomes| <= |queue| && FreshQueue(c, queue, used)
    ensures
      && var last := |outcomes| - 1;
      && queue[last].name !in used + CreatedNames(queue, outcomes[..last])
      && queue[last].name in PodNames(queue) - PodNames(queue[..last])
      && OwnerKey(queue[last]) == Some(c.key)
  {
    var last := |outcomes| - 1;
    CreatedAreCalled(queue, outcomes[..last]);
    NotYetCalled(queue, last);
    assert queue[last] in queue;
  }

  lemma NotYetCalled(queue: seq<Pod>, i: nat)
    requires i < |queue| && DistinctNames(queue)
    ensures queue[i].name !in PodNames(queue[..i])
  {
  }

  lemma CalledSets(all: set<string>, called: set<string>, created: set<string>, n: string)
    requires created <= called && n !in called
    ensures all - (called + {n}) == all - called - {n}
    ensures called + {n} - (created + {n}) == called - created
    ensures called + {n} - created == called - created + {n}
  {
  }

  lemma OneMoreCalled(s: State, u: State, t: State, basis: Basis, queue: seq<Pod>, outcomes: seq<bool>)
    requires outcomes != [] && |outcomes| <= |queue|
    requires Called(s, u, basis, queue, outcomes[..|outcomes| - 1]) && s.server.Keys <= s.used
    requires
      && var last := |outcomes| - 1;
      && var front, n := outcomes[..last], queue[last].name;
      && PodNames(queue[..|outcomes|]) == PodNames(queue[..last]) + {n}
      && n !in PodNames(queue[..last]) && n !in s.used
      && CreatedNames(queue, outcomes) == CreatedNames(queue, front) + (if outcomes[last] then {n} else {})
      && CreatedNames(queue, front) <= PodNames(queue[..last])
      && u.pass.Calling? && CalledNext(u, t, n, outcomes[last])
    ensures Called(s, t, basis, queue, outcomes)
  {
    var last := |outcomes| - 1;
    var created := CreatedNames(queue, outcomes[..last]);
    CalledSets(PodNames(queue), PodNames(queue[..last]), created, queue[last].name);
    if outcomes[last] {
      OneMoreCreated(s, u, t, created, queue[last].name);
    } else {
      assert created + {} == created;
    }
  }

  lemma OneMoreCreated(s: State, u: State, t: State, names: set<string>, n: string)
    requires PodsMade(s, u, names) && n !in s.server
    requires n in t.server && IsActive(t.server[n]) && t.server == u.server[n := t.server[n]]
    ensures PodsMade(s, t, names + {n})
  {
  }

  /** Withdrawing, in any order, un-awaits exactly the names that were not created. */
  lemma {:induction false} WithdrawalsHappen(c: Config, start: State, s: State) returns (t: State)
    requires Leads(c, start, s) && s.pass.Withdrawing?
    ensures Leads(c, start, t) && t == s.(scale := t.scale, pass := Withdrawing(s.pass.basis, {}, s.pass.created))
    ensures Leaves(c, s, t, E.Create, s.pass.failed, {})
    decreases s.pass.failed
  {
    if s.pass.failed == {} {
      t := s;
      LeavesSame(c, s, t, E.Create);
    } else {
      var n :| n in s.pass.failed;
      var u := s.(scale := s.scale + [E.Observed(c.key, E.Create, n)],
                  pass := Withdrawing(s.pass.basis, s.pass.failed - {n}, s.pass.created));
      OneMore(c, start, s, Withdraw(n), u);
      t := WithdrawalsHappen(c, start, u);
      LeavesThen(c, s, u, t, n, s.pass.failed - {n});
      assert s.pass.failed - {n} + {n} == s.pass.failed;
    }
  }

  lemma LeavesThen(c: Config, s: State, u: State, t: State, n: string, gone: set<string>)
    requires u.scale == s.scale + [E.Observed(c.key, E.Create, n)] && Leaves(c, u, t, E.Create, gone, {})
    ensures Leaves(c, s, t, E.Create, gone + {n}, {})
  {
    forall a, names | AwaitedSet(s.scale, c.key, a, names)
      ensures AwaitedSet(t.scale, c.key, a, if a == E.Create then names - (gone + {n}) + {} else names)
    {
      AwaitedSetStep(s.scale, E.Observed(c.key, E.Create, n), c.key, a, names);
      assert names - {n} - gone + {} == names - (gone + {n}) + {};
    }
  }

  lemma LeavesBoth(c: Config, s: State, u: State, v: State, t: State, added: set<string>, gone: set<string>)
    requires Leaves(c, s, u, E.Create, {}, added) && v.scale == u.scale && Leaves(c, v, t, E.Create, gone, {})
    ensures Leaves(c, s, t, E.Create, gone, added - gone)
  {
    forall a, names | AwaitedSet(s.scale, c.key, a, names)
      ensures AwaitedSet(t.scale, c.key, a, if a == E.Create then names - gone + (added - gone) else names)
    {
      var middle := if a == E.Create then names - {} + added else names;
      assert AwaitedSet(v.scale, c.key, a, middle);
      assert a == E.Create ==> middle - gone + {} == names - gone + (added - gone);
    }
  }

  /** From the announcements to the last withdrawal, for whatever outcomes slow start allows. */
  lemma CreatingIsRun(c: Config, start: State, s: State, outcomes: seq<bool>, batches: nat, err: bool, run: UpdateRun,
                      end: Pass)
    returns (t: State)
    requires Leads(c, start, s) && s.pass.Announcing? && s.pass.i == 0
    requires |outcomes| <= |s.pass.queue| && SlowStart(|s.pass.queue|, 1, outcomes, batches, err)
    requires Sound(c, s, |outcomes|) && FreshQueue(c, s.pass.queue, s.used)
    requires forall p | p in s.pass.queue :: IsActive(p)
    requires if Successes(outcomes) > 0 then end == Resting else ChoosesUpdates(c, s.pass.basis, run, end)
    ensures Leads(c, start, t) && t.pass == end
    ensures
      && var created := CreatedNames(s.pass.queue, outcomes);
      && PodsMade(s, t, created) && t.deleted == s.deleted
      && Leaves(c, s, t, E.Create, PodNames(s.pass.queue) - created, created)
  {
    var queue := s.pass.queue;
    var u, v := AllAnnounced(c, start, s);
    var w := CallsHappen(c, start, v, queue, outcomes);
    var x := CallingStops(c, start, w, queue, outcomes, batches, err);
    t := CreatingEnds(c, start, x, run, end, outcomes, queue);
    CreatingAwaits(c, s, u, x, t, queue, outcomes);
  }

  lemma CreatingAwaits(c: Config, s: State, u: State, v: State, t: State, queue: seq<Pod>, outcomes: seq<bool>)
    requires |outcomes| <= |queue| && v.scale == u.scale && Leaves(c, s, u, E.Create, {}, PodNames(queue))
    requires Leaves(c, v, t, E.Create, PodNames(queue) - CreatedNames(queue, outcomes), {})
    ensures Leaves(c, s, t, E.Create, PodNames(queue) - CreatedNames(queue, outcomes), CreatedNames(queue, outcomes))
  {
    var created := CreatedNames(queue, outcomes);
    CreatedNamesAreNames(queue, outcomes);
    assert PodNames(queue) - (PodNames(queue) - created) == created;
    LeavesBoth(c, s, u, v, t, PodNames(queue), PodNames(queue) - created);
  }

  lemma AllAnnounced(c: Config, start: State, s: State) returns (u: State, v: State)
    requires Leads(c, start, s) && s.pass.Announcing? && s.pass.i == 0
    ensures u == s.(scale := u.scale, pass := u.pass) && Leaves(c, s, u, E.Create, {}, PodNames(s.pass.queue))
    ensures Leads(c, start, v) && v == u.(pass := Calling(s.pass.basis, PodNames(s.pass.queue), {}, {}))
  {
    u := AnnouncementsHappen(c, start, s, |s.pass.queue|);
    assert s.pass.queue[..|s.pass.queue|] == s.pass.queue;
    v := u.(pass := Calling(s.pass.basis, PodNames(s.pass.queue), {}, {}));
    OneMore(c, start, u, Announce, v);
  }

  lemma CreatingEnds(c: Config, start: State, s: State, run: UpdateRun, end: Pass, outcomes: seq<bool>, queue: seq<Pod>)
    returns (t: State)
    requires Leads(c, start, s) && s.pass.Withdrawing? && |outcomes| <= |queue|
    requires s.pass.created == CreatedNames(queue, outcomes)
    requires if Successes(outcomes) > 0 then end == Resting else ChoosesUpdates(c, s.pass.basis, run, end)
    ensures Leads(c, start, t) && t == s.(scale := t.scale, pass := end)
    ensures Leaves(c, s, t, E.Create, s.pass.failed, {})
  {
    var u := WithdrawalsHappen(c, start, s);
    t := u.(pass := end);
    CreatedNone(queue, outcomes);
    OneMore(c, start, u, EndCreating(run), t);
  }

  lemma {:induction false} CreatedNone(queue: seq<Pod>, outcomes: seq<bool>)
    requires |outcomes| <= |queue|
    ensures CreatedNames(queue, outcomes) == {} <==> Successes(outcomes) == 0
  {
    if outcomes != [] {
      CreatedNone(queue, outcomes[..|outcomes| - 1]);
    }
  }

  /** Slow start stops when everything was called, or after a failure. */
  lemma CallingStops(c: Config, start: State, s: State, queue: seq<Pod>, outcomes: seq<bool>, batches: nat, err: bool)
    returns (t: State)
    requires Leads(c, start, s) && |outcomes| <= |queue| && DistinctNames(queue)
    requires SlowStart(|queue|, 1, outcomes, batches, err)
    requires
      && var created, called := CreatedNames(queue, outcomes), PodNames(queue[..|outcomes|]);
      && s.pass.Calling? && s.pass == Calling(s.pass.basis, PodNames(queue) - called, called - created, created)
    ensures Leads(c, start, t)
    ensures
      && var created := CreatedNames(queue, outcomes);
      && t == s.(pass := Withdrawing(s.pass.basis, PodNames(queue) - created, created))
  {
    var created, called := CreatedNames(queue, outcomes), PodNames(queue[..|outcomes|]);
    CreatedAreCalled(queue, outcomes);
    if err {
      var i :| 0 <= i < |outcomes| && !outcomes[i];
      FailedIsNotCreated(queue, outcomes, i);
      assert queue[..|outcomes|][i] in queue[..|outcomes|];
      assert queue[i].name in called - created;
    } else {
      assert queue[..|queue|] == queue;
    }
    assert called - created + (PodNames(queue) - called) == PodNames(queue) - created;
    t := s.(pass := Withdrawing(s.pass.basis, PodNames(queue) - created, created));
    OneMore(c, start, s, StopCalling, t);
  }

  lemma FailedIsNotCreated(queue: seq<Pod>, outcomes: seq<bool>, i: nat)
    requires |outcomes| <= |queue| && DistinctNames(queue) && i < |outcomes| && !outcomes[i]
    ensures queue[i].name !in CreatedNames(queue, outcomes)
  {
    CreatedNamesMeaning(queue, outcomes, queue[i].name);
  }

  // ---------- Updates ----------

  /** The demands for the pods whose update was stored: each has the version the server assigned. */
  function WriteDemands(names: seq<string>, stored: seq<bool>, clock: nat): seq<V.Event>
    requires |stored| <= |names|
  {
    if stored == [] then []
    else
      var last := |stored| - 1;
      WriteDemands(names, stored[..last], clock)
      + if stored[last] then [V.Expected(names[last], V.Decimal(clock + Successes(stored)))] else []
  }

  lemma OneMoreDemand(names: seq<string>, stored: seq<bool>, clock: nat)
    requires 0 < |stored| <= |names|
    ensures
      && var last := |stored| - 1;
      && var n := clock + Successes(stored[..last]) + if stored[last] then 1 else 0;
      && n == clock + Successes(stored)
      && WriteDemands(names, stored, clock)
         == WriteDemands(names, stored[..last], clock)
            + if stored[last] then [V.Expected(names[last], V.Decimal(n))] else []
  {
  }

  lemma UpdateStores(c: Config, start: State, s: State) returns (t: State)
    requires Leads(c, start, s) && Sound(c, s, 1)
    requires s.pass.Changing? && s.pass.names != [] && s.pass.version.None? && s.pass.names[0] in s.server
    ensures Leads(c, start, t) && Sound(c, t, 0) && t.clock == s.clock + 1 && t.server.Keys == s.server.Keys
    ensures t.pass == Changing(s.pass.names, Some(V.Decimal(t.clock))) && t.versions == s.versions
    ensures t.written == s.written[s.pass.names[0] := t.clock]
  {
    var n := s.pass.names[0];
    var p := Stamp(s.server[n], s);
    StampFollows(c, s, n, s.server[n]);
    t := s.(server := s.server[n := p], clock := VersionOf(p), used := s.used + {n}, watch := s.watch + [Put(p)],
            written := s.written[n := VersionOf(p)], pass := Changing(s.pass.names, Some(p.resourceVersion)));
    assert ChangesPod(c, s, p, t);
    OneMore(c, start, s, UpdateOk(p), t);
  }

  lemma UpdateHappens(c: Config, start: State, s: State) returns (t: State)
    requires Leads(c, start, s) && Sound(c, s, 1)
    requires s.pass.Changing? && s.pass.names != [] && s.pass.version.None? && s.pass.names[0] in s.server
    ensures Leads(c, start, t) && Sound(c, t, 0) && t.clock == s.clock + 1 && t.server.Keys == s.server.Keys
    ensures t.pass == Changing(s.pass.names[1..], None)
    ensures t.versions == s.versions + [V.Expected(s.pass.names[0], V.Decimal(t.clock))]
    ensures t.written == s.written[s.pass.names[0] := t.clock]
  {
    var u := UpdateStores(c, start, s);
    t := u.(versions := u.versions + [V.Expected(s.pass.names[0], V.Decimal(u.clock))],
            pass := Changing(s.pass.names[1..], None));
    OneMore(c, start, u, ExpectVersion, t);
  }

  /** The update half is done with the first of the chosen pods: some are stored and the others skipped. */
  ghost predicate UpdatedFirst(s: State, t: State, stored: seq<bool>)
    requires s.pass.Changing? && |stored| <= |s.pass.names|
  {
    && t.clock == s.clock + Successes(stored) && t.server.Keys == s.server.Keys
    && t.pass == Changing(s.pass.names[|stored|..], None)
    && t.versions == s.versions + WriteDemands(s.pass.names, stored, s.clock)
  }

  lemma OneMoreUpdated(s: State, u: State, t: State, stored: seq<bool>, e: seq<V.Event>)
    requires s.pass.Changing? && 0 < |stored| <= |s.pass.names| && UpdatedFirst(s, u, stored[..|stored| - 1])
    requires t.clock == u.clock + (if stored[|stored| - 1] then 1 else 0) && t.server.Keys == u.server.Keys
    requires t.pass == Changing(u.pass.names[1..], None) && t.versions == u.versions + e
    requires e == if stored[|stored| - 1] then [V.Expected(u.pass.names[0], V.Decimal(t.clock))] else []
    ensures UpdatedFirst(s, t, stored)
  {
    var last := |stored| - 1;
    assert s.pass.names[last..][1..] == s.pass.names[|stored|..] && s.pass.names[last..][0] == s.pass.names[last];
    OneMoreDemand(s.pass.names, stored, s.clock);
    Regroup(s.versions, WriteDemands(s.pass.names, stored[..last], s.clock), e);
  }

  lemma {:induction false} UpdatesHappen(c: Config, start: State, s: State, stored: seq<bool>) returns (t: State)
    requires Leads(c, start, s) && Sound(c, s, |stored|)
    requires s.pass.Changing? && s.pass.version.None? && |stored| <= |s.pass.names|
    requires forall i | 0 <= i < |stored| && stored[i] :: s.pass.names[i] in s.server
    ensures Leads(c, start, t) && Sound(c, t, 0) && UpdatedFirst(s, t, stored)
  {
    if stored == [] {
      t := s;
      assert s.versions + [] == s.versions && s.pass.names[0..] == s.pass.names;
    } else {
      var last := |stored| - 1;
      var u := UpdatesHappen(c, start, s, stored[..last]);
      SuccessesBound(stored[..last]);
      assert u.pass.names[0] == s.pass.names[last];
      var e;
      t, e := OneUpdate(c, start, u, stored[last]);
      OneMoreUpdated(s, u, t, stored, e);
    }
  }

  lemma OneUpdate(c: Config, start: State, s: State, stored: bool) returns (t: State, e: seq<V.Event>)
    requires Leads(c, start, s) && Sound(c, s, 1)
    requires s.pass.Changing? && s.pass.names != [] && s.pass.version.None?
    requires stored ==> s.pass.names[0] in s.server
    ensures Leads(c, start, t) && Sound(c, t, 0) && t.server.Keys == s.server.Keys
    ensures t.clock == s.clock + (if stored then 1 else 0) && t.pass == Changing(s.pass.names[1..], None)
    ensures e == if stored then [V.Expected(s.pass.names[0], V.Decimal(t.clock))] else []
    ensures t.versions == s.versions + e
  {
    if stored {
      t := UpdateHappens(c, start, s);
      e := [V.Expected(s.pass.names[0], V.Decimal(t.clock))];
    } else {
      t := s.(pass := Changing(s.pass.names[1..], None));
      OneMore(c, start, s, SkipUpdate, t);
      e := [];
      assert s.versions + [] == s.versions;
    }
  }

  lemma UpdatingIsRun(c: Config, start: State, s: State, stored: seq<bool>) returns (t: State)
    requires Leads(c, start, s) && Sound(c, s, |stored|)
    requires s.pass.Changing? && s.pass.version.None? && |stored| <= |s.pass.names|
    requires forall i | 0 <= i < |stored| && stored[i] :: s.pass.names[i] in s.server
    ensures Leads(c, start, t) && t.pass == Resting && t.clock == s.clock + Successes(stored)
    ensures t.versions == s.versions + WriteDemands(s.pass.names, stored, s.clock)
  {
    var u := UpdatesHappen(c, start, s, stored);
    t := u.(pass := Resting);
    OneMore(c, start, u, EndUpdating, t);
  }

  // ---------- A scaling step is a run ----------

  /** The names a step creates were never used, those it deletes are stored, and its calls fit the version range. */
  ghost predicate Possible(c: Config, s: State, iu: Inplaceu, step: Scaling.Step) {
    match step
    case Creating(ids, outcomes, _) =>
      Sound(c, s, |outcomes|) && Distinct(ids) && forall id | id in ids :: iu.name + "-" + id !in s.used
    case Deleting(list, k) =>
      Sound(c, s, k) && DistinctNames(list) && k <= |list| && forall i | 0 <= i < k :: list[i].name in s.server
    case Idle => true
  }

  /** What was awaited is changed as the specification of the step says. */
  ghost predicate AwaitsAsStep(c: Config, s: State, t: State, iu: Inplaceu, revision: string, step: Scaling.Step,
                               modified: bool, err: bool)
    requires Ran(step, modified, err)
  {
    forall a, names :: AwaitedSet(s.scale, c.key, a, names) ==>
      AwaitedSet(t.scale, c.key, a, StepAwaited(iu, revision, step, a, names))
  }

  lemma NewQueueIsFresh(c: Config, s: State, iu: Inplaceu, revision: string, ids: seq<string>)
    requires iu.name == c.key && Distinct(ids) && forall id | id in ids :: iu.name + "-" + id !in s.used
    ensures FreshQueue(c, NewPods(iu, revision, ids), s.used)
    ensures forall p | p in NewPods(iu, revision, ids) :: IsActive(p)
  {
    var queue := NewPods(iu, revision, ids);
    forall i, j | 0 <= i < j < |queue| ensures queue[i].name != queue[j].name {
      NewPodNames(iu, ids[i], ids[j]);
    }
    forall i | 0 <= i < |queue|
      ensures queue[i].name !in s.used && OwnerKey(queue[i]) == Some(c.key) && IsActive(queue[i])
    {
      NewPodsFollowTemplate(iu, revision, ids, i);
      assert ids[i] in ids;
    }
  }

  lemma CreatingStepIsRun(c: Config, start: State, s: State, iu: Inplaceu, revision: string, step: Scaling.Step,
                          modified: bool, err: bool, run: UpdateRun, end: Pass) returns (t: State)
    requires Leads(c, start, s) && iu.name == c.key && step.Creating? && Ran(step, modified, err)
    requires s.pass.Announcing? && s.pass.i == 0 && s.pass.queue == NewPods(iu, revision, step.ids)
    requires Possible(c, s, iu, step)
    requires if modified then end == Resting else ChoosesUpdates(c, s.pass.basis, run, end)
    ensures Leads(c, start, t) && t.pass == end && AwaitsAsStep(c, s, t, iu, revision, step, modified, err)
    ensures PodsMade(s, t, CreatedNames(NewPods(iu, revision, step.ids), step.outcomes))
  {
    NewQueueIsFresh(c, s, iu, revision, step.ids);
    t := CreatingIsRun(c, start, s, step.outcomes, step.batches, err, run, end);
  }

  lemma DeletedMembers(list: seq<Pod>, k: nat)
    requires k <= |list|
    ensures Members(NamesOf(list)[..k]) == PodNames(list[..k])
    ensures DistinctNames(list) ==> Distinct(NamesOf(list))
  {
    var names := NamesOf(list);
    forall n ensures n in Members(names[..k]) <==> n in PodNames(list[..k]) {
      if n in Members(names[..k]) {
        var i :| 0 <= i < k && names[..k][i] == n;
        assert list[..k][i].name == n && list[..k][i] in list[..k];
      }
      if n in PodNames(list[..k]) {
        var i :| 0 <= i < k && list[..k][i].name == n;
        assert names[..k][i] == n;
      }
    }
  }

  lemma DeletingStepIsRun(c: Config, start: State, s: State, iu: Inplaceu, revision: string, step: Scaling.Step,
                          modified: bool, err: bool, graceful: bool, run: UpdateRun, end: Pass) returns (t: State)
    requires Leads(c, start, s) && step.Deleting? && Ran(step, modified, err)
    requires s.pass.Removing? && s.pass == Removing(s.pass.basis, NamesOf(step.list), false, false)
    requires Possible(c, s, iu, step)
    requires if modified then end == Resting else ChoosesUpdates(c, s.pass.basis, run, end)
    ensures Leads(c, start, t) && t.pass == end && AwaitsAsStep(c, s, t, iu, revision, step, modified, err)
    ensures PodsGone(s, t, PodNames(step.list[..step.k])) && t.deleted == s.deleted + PodNames(step.list[..step.k])
  {
    var list, k := step.list, step.k;
    DeletedMembers(list, k);
    t := DeletingIsRun(c, start, s, k, graceful, run, end);
    var failed := if k < |list| then {list[k].name} else {};
    forall a, names | AwaitedSet(s.scale, c.key, a, names)
      ensures AwaitedSet(t.scale, c.key, a, StepAwaited(iu, revision, step, a, names))
    {
      assert names - failed + (PodNames(list[..k]) - failed) == names + PodNames(list[..k]) - failed;
    }
  }

  /**
   * Whatever a scaling step decides on the list of a pass, and however far its calls get, atomic steps of the
   * protocol lead from the end of the gates to the end of the step. They leave the expectations that the step is
   * specified to leave, and go on to the update half exactly when the step changed nothing.
   */
  lemma StepIsRun(c: Config, start: State, s: State, iu: Inplaceu, revision: string, step: Scaling.Step,
                  modified: bool, err: bool, graceful: bool, run: UpdateRun, end: Pass) returns (t: State)
    requires Leads(c, start, s) && s.pass.Gating? && s.pass.i == |s.pass.list| && iu.name == c.key
    requires Decided(c.spec, s.pass.list, revision, step) && Ran(step, modified, err) && Possible(c, s, iu, step)
    requires if modified then end == Resting else ChoosesUpdates(c, Basis(s.pass.list, revision), run, end)
    ensures Leads(c, start, t) && t.pass == end && AwaitsAsStep(c, s, t, iu, revision, step, modified, err)
    ensures step.Creating? ==> PodsMade(s, t, CreatedNames(NewPods(iu, revision, step.ids), step.outcomes))
    ensures step.Deleting? ==> PodsGone(s, t, PodNames(step.list[..step.k]))
  {
    var basis := Basis(s.pass.list, revision);
    match step
    case Creating(ids, _, _) =>
      var u := s.(pass := Announcing(basis, NewPods(iu, revision, ids), 0));
      OneMore(c, start, s, Plan(iu, revision, step, run), u);
      t := CreatingStepIsRun(c, start, u, iu, revision, step, modified, err, run, end);
    case Deleting(list, _) =>
      var u := s.(pass := Removing(basis, NamesOf(list), false, false));
      OneMore(c, start, s, Plan(iu, revision, step, run), u);
      t := DeletingStepIsRun(c, start, u, iu, revision, step, modified, err, graceful, run, end);
    case Idle =>
      t := s.(pass := end);
      OneMore(c, start, s, Plan(iu, revision, step, run), t);
  }

  // ---------- The handler ----------

  /** The handler's methods do to the two caches what the protocol says of a note. */
  method HandleNote(h: PodEventHandler, note: Note, matching: seq<string>, now: Time)
    requires h.Valid()
    modifies h, h.scale, h.versions
    ensures h.Valid()
    ensures h.scale.log == old(h.scale.log) + ScaleSeen(note)
    ensures h.versions.log == old(h.versions.log) + VersionsSeen(note)
  {
    match note
    case Added(p) => h.Create(p, matching, now);
    case Changed(p, q) => h.Update(p, q, matching);
    case Removed(p) => h.Delete(p);
  }

  /** What the handler has to learn from an event of the watch. */
  ghost predicate Settled(c: Config, s: State, t: State, e: Event) {
    match e
    case Put(p) =>
      && p.name in t.cache && t.cache[p.name] == p
      && (!p.deleting && p.name !in s.cache ==> !E.Awaited(t.scale, c.key, E.Create, p.name))
      && (p.deleting && (p.name in s.cache ==> s.cache[p.name].resourceVersion != p.resourceVersion) ==>
            !E.Awaited(t.scale, c.key, E.Delete, p.name) && V.Highest(t.versions, p.uid).None?)
    case Gone(n) =>
      && n !in t.cache
      && (n in s.cache ==> !E.Awaited(t.scale, c.key, E.Delete, n) && V.Highest(t.versions, n).None?)
  }

  /**
   * Once an event is delivered and handled, the cache shows it and what it answers is awaited no more: a new pod
   * its creation, a pod that is seen terminating or gone its deletion and the version demanded of it.
   */
  lemma WatchSettles(c: Config, start: State, s: State) returns (t: State)
    requires Leads(c, start, s) && s.watch != [] && s.notes == []
    requires s.watch[0].Put? ==> Owned(c, s.watch[0].pod.name, s.watch[0].pod)
    requires forall n | n in s.cache :: Owned(c, n, s.cache[n])
    ensures Leads(c, start, t) && t.notes == [] && t.watch == s.watch[1..] && t.server == s.server
    ensures Settled(c, s, t, s.watch[0])
  {
    var u := Delivered(c, start, s);
    if u.notes == [] {
      t := u;
    } else {
      t := u.(notes := [], scale := u.scale + ScaleSeen(u.notes[0]), versions := u.versions + VersionsSeen(u.notes[0]));
      assert u.notes[1..] == [];
      OneMore(c, start, u, Handle, t);
      NoteSettles(c, s.scale, s.versions, u.notes[0]);
    }
  }

  lemma Delivered(c: Config, start: State, s: State) returns (t: State)
    requires Leads(c, start, s) && s.watch != [] && s.notes == []
    ensures Leads(c, start, t)
    ensures t == s.(watch := s.watch[1..], cache := t.cache, notes := t.notes)
    ensures match s.watch[0]
            case Put(p) =>
              && t.cache == s.cache[p.name := p]
              && t.notes == [if p.name in s.cache then Changed(s.cache[p.name], p) else Added(p)]
            case Gone(n) =>
              t.cache == s.cache - {n} && t.notes == if n in s.cache then [Removed(s.cache[n])] else []
  {
    match s.watch[0]
    case Put(p) =>
      t := s.(watch := s.watch[1..], cache := s.cache[p.name := p],
              notes := [if p.name in s.cache then Changed(s.cache[p.name], p) else Added(p)]);
      assert [] + t.notes == t.notes;
      OneMore(c, start, s, Deliver, t);
    case Gone(n) =>
      t := s.(watch := s.watch[1..], cache := s.cache - {n},
              notes := if n in s.cache then [Removed(s.cache[n])] else []);
      assert [] + t.notes == t.notes;
      OneMore(c, start, s, Deliver, t);
  }

  /** The handler's two logs after a note about an owned pod. */
  lemma NoteSettles(c: Config, scale: seq<E.Event>, versions: seq<V.Event>, note: Note)
    requires note.Changed? ==> Owned(c, note.after.name, note.before)
    requires
      && var p := if note.Changed? then note.after else note.pod;
      && Owned(c, p.name, p)
    ensures
      && var p := if note.Changed? then note.after else note.pod;
      && var seen, cleared := scale + ScaleSeen(note), versions + VersionsSeen(note);
      && (note.Added? && !p.deleting ==> !E.Awaited(seen, c.key, E.Create, p.name))
      && (note.Removed? || (note.Added? && p.deleting)
          || (note.Changed? && p.deleting && note.before.resourceVersion != p.resourceVersion) ==>
            !E.Awaited(seen, c.key, E.Delete, p.name) && V.Highest(cleared, p.uid).None?)
  {
    match note
    case Added(p) =>
      if p.deleting {
        DeletionIsNotMissed(p, p, c.key, scale);
        ClearedIsNone(versions, p.uid);
      } else {
        CreationIsNotMissed(p, c.key, scale);
      }
    case Changed(p, q) =>
      if q.deleting && p.resourceVersion != q.resourceVersion {
        DeletionIsNotMissed(p, q, c.key, scale);
        ClearedIsNone(versions, q.uid);
        ClearedIsNone(versions + [V.Cleared(q.uid)], p.uid);
        assert versions + VersionsSeen(note)
            == if p.labels != q.labels then versions + [V.Cleared(q.uid)] + [V.Cleared(p.uid)]
               else versions + [V.Cleared(q.uid)];
      }
    case Removed(p) =>
      var seen := E.Observed(c.key, E.Delete, p.name);
      assert ScaleSeen(note) == [seen];
      E.AwaitedStep(scale, seen, c.key, E.Delete, p.name);
      ClearedIsNone(versions, p.uid);
  }

  lemma ClearedIsNone(log: seq<V.Event>, uid: string)
    ensures V.Highest(log + [V.Cleared(uid)], uid).None?
  {
  }

  // ---------- The gates are a run ----------

  lemma {:induction false} GatesHappen(c: Config, start: State, s: State, i: nat)
    requires Leads(c, start, s) && s.pass.Gating? && s.pass.i == 0 && i <= |s.pass.list|
    requires forall p | p in s.pass.list :: V.Reaches(p.resourceVersion, V.Highest(s.versions, p.uid))
    ensures Leads(c, start, s.(pass := Gating(s.pass.list, i)))
  {
    if i > 0 {
      GatesHappen(c, start, s, i - 1);
      var u := s.(pass := Gating(s.pass.list, i - 1));
      assert s.pass.list[i - 1] in s.pass.list;
      OneMore(c, start, u, Gate, s.(pass := Gating(s.pass.list, i)));
    }
  }

  /** With nothing awaited, a list of the cache that is new enough gets a pass through its gates. */
  lemma GatesPassed(c: Config, s: State, list: seq<Pod>)
    requires s.pass.Resting? && NothingAwaited(c, s.scale) && Lists(list, s.cache)
    requires forall p | p in list :: V.Reaches(p.resourceVersion, V.Highest(s.versions, p.uid))
    ensures Leads(c, s, s.(pass := Gating(list, |list|)))
  {
    Stays(c, s);
    OneMore(c, s, s, Check, s.(pass := Checked));
    OneMore(c, s, s.(pass := Checked), List(list), s.(pass := Gating(list, 0)));
    GatesHappen(c, s, s.(pass := Gating(list, 0)), |list|);
  }
}
