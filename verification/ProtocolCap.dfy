/** The surge cap: whatever the cache misses, active pods never exceed the start or replicas + maxSurge. */
module ProtocolCap {
  import opened Kube
  import opened Planner
  import opened Scaling
  import Updating
  import opened Protocol
  import opened ProtocolStream
  import E = Expectations

  /** The pods that are neither terminating nor finished. */
  function ActiveNames(server: map<string, Pod>): set<string> {
    set n | n in server && !server[n].deleting && !server[n].phase.Succeeded? && !server[n].phase.Failed?
  }

  /** A pass lists exactly the pods of the cache that are neither terminating nor finished. */
  lemma ListIsActive(list: seq<Pod>, cache: map<string, Pod>)
    requires Lists(list, cache) && forall n | n in cache :: cache[n].name == n
    ensures PodNames(list) == ActiveNames(cache)
  {
    forall n | n in ActiveNames(cache) ensures n in PodNames(list) {
      assert IsActive(cache[n]) && cache[n] in list;
    }
  }

  /** Every active pod is in the cache or still awaited. */
  ghost predicate AllKnown(c: Config, s: State) {
    forall n | n in ActiveNames(s.server) :: n in s.cache || E.Awaited(s.scale, c.key, E.Create, n)
  }

  /** Every active pod is in the cache, except those this pass created, which are awaited. */
  ghost predicate CachedBut(c: Config, s: State, created: set<string>) {
    forall n | n in ActiveNames(s.server) ::
      n in s.cache || (n in created && E.Awaited(s.scale, c.key, E.Create, n))
  }

  /** An announced creation is awaited until its name turns out to be taken. */
  ghost predicate Announced(c: Config, s: State, n: string) {
    E.Awaited(s.scale, c.key, E.Create, n) || n in s.used
  }

  /** How many pods the pass may still create. */
  function StillToCreate(pass: Pass): nat {
    match pass
    case Announcing(_, queue, _) => |queue|
    case Calling(_, todo, _, _) => |todo|
    case _ => 0
  }

  ghost predicate PassKnows(c: Config, s: State) {
    match s.pass
    case Checked => NothingAwaited(c, s.scale)
    case Gating(list, i) =>
      && i <= |list| && DistinctNames(list) && CachedBut(c, s, {})
      && ActiveNames(s.server) <= PodNames(list)
    case Announcing(_, queue, i) =>
      && i <= |queue| && CachedBut(c, s, {})
      && forall j | 0 <= j < i :: Announced(c, s, queue[j].name)
    case Calling(_, todo, failed, created) =>
      && CachedBut(c, s, created)
      && todo !! created && failed !! created && todo !! failed
      && forall n | n in todo :: Announced(c, s, n)
    case Withdrawing(_, failed, created) =>
      && CachedBut(c, s, created) && failed !! created
    case _ => true
  }

  ghost predicate CapInv(c: Config, cap: int, s: State) {
    && AllKnown(c, s)
    && PassKnows(c, s)
    && |ActiveNames(s.server)| + StillToCreate(s.pass) <= cap
  }

  // ---------- Steps outside the pass ----------

  /** Steps outside the pass never make a pod active, and keep or settle what is awaited. */
  lemma OutsideShrinks(c: Config, s: State, t: State)
    requires forall n | n in t.server :: n in s.server && Follows(s.server[n], t.server[n])
    ensures ActiveNames(t.server) <= ActiveNames(s.server)
    ensures |ActiveNames(t.server)| <= |ActiveNames(s.server)|
  {
    SubsetSize(ActiveNames(t.server), ActiveNames(s.server));
  }

  /** What a step outside the pass leaves of a pod's being known. */
  ghost predicate StaysKnown(c: Config, s: State, t: State) {
    && s.used <= t.used && t.pass == s.pass
    && (forall n | n in t.server :: n in s.server && Follows(s.server[n], t.server[n]))
    && (forall n | n in ActiveNames(t.server) && n in s.cache :: n in t.cache)
    && (forall n | E.Awaited(s.scale, c.key, E.Create, n) && n !in t.cache && n in t.server ::
          E.Awaited(t.scale, c.key, E.Create, n))
    && (forall n | E.Awaited(s.scale, c.key, E.Create, n) && n !in t.used ::
          E.Awaited(t.scale, c.key, E.Create, n))
    && (NothingAwaited(c, s.scale) ==> NothingAwaited(c, t.scale))
  }

  lemma StaysKnownKeepsCap(c: Config, cap: int, s: State, t: State)
    requires CapInv(c, cap, s) && StaysKnown(c, s, t)
    ensures CapInv(c, cap, t)
  {
    OutsideShrinks(c, s, t);
  }

  lemma ChangeStaysKnown(c: Config, s: State, p: Pod, t: State)
    requires ChangesPod(c, s, p, t) && t.pass == s.pass
    ensures StaysKnown(c, s, t)
  {
  }

  lemma RemoveStaysKnown(c: Config, s: State, n: string, t: State)
    requires Erases(s, n, t) && t.pass == s.pass
    ensures StaysKnown(c, s, t)
  {
  }

  lemma DeliverStaysKnown(c: Config, s: State, t: State)
    requires Stream(c, s) && Delivers(s, t)
    ensures StaysKnown(c, s, t)
  {
  }

  lemma HandleStaysKnown(c: Config, s: State, t: State)
    requires Stream(c, s) && Handles(s, t)
    ensures StaysKnown(c, s, t)
  {
    forall n | E.Awaited(s.scale, c.key, E.Create, n) && !E.Awaited(t.scale, c.key, E.Create, n)
      ensures (n in s.cache || n !in s.server) && n in s.used
    {
      HandleSettles(c, s, t, E.Create, n);
      SettledIsUsed(c, s, t, n);
    }
    if NothingAwaited(c, s.scale) {
      HandleKeepsNothing(c, s, t);
    }
  }

  lemma SettledIsUsed(c: Config, s: State, t: State, n: string)
    requires Stream(c, s) && Handles(s, t) && E.Awaited(s.scale, c.key, E.Create, n)
    requires !E.Awaited(t.scale, c.key, E.Create, n)
    ensures n in s.used
  {
    var note := s.notes[0];
    if E.Observed(c.key, E.Create, n) in ScaleSeen(note) {
      SeenScale(c, note, E.Observed(c.key, E.Create, n));
    } else {
      forall e | e in ScaleSeen(note) ensures !e.Forgotten? && e != E.Observed(c.key, E.Create, n) {
        SeenScale(c, note, e);
      }
      AwaitedKept(s.scale, ScaleSeen(note), c.key, E.Create, n);
    }
  }

  lemma OutsideKeepsCap(c: Config, cap: int, s: State, m: Move, t: State)
    requires Stream(c, s) && CapInv(c, cap, s) && Next(c, s, m, t)
    requires m.ClusterChange? || m.ClusterRemove? || m.Deliver? || m.Handle?
    ensures CapInv(c, cap, t)
  {
    match m {
      case ClusterChange(p) => ChangeStaysKnown(c, s, p, t);
      case ClusterRemove(n) => RemoveStaysKnown(c, s, n, t);
      case Deliver => DeliverStaysKnown(c, s, t);
      case Handle => HandleStaysKnown(c, s, t);
    }
    StaysKnownKeepsCap(c, cap, s, t);
  }

  // ---------- Steps of the pass ----------

  lemma {:induction false} PodNamesSize(pods: seq<Pod>)
    ensures |PodNames(pods)| <= |pods|
  {
    if pods != [] {
      var last := |pods| - 1;
      PodNamesSize(pods[..last]);
      PodNamesStep(pods, last);
      assert pods[..last + 1] == pods;
    }
  }

  lemma ListKeepsCap(c: Config, cap: int, s: State, list: seq<Pod>, t: State)
    requires Stream(c, s) && CapInv(c, cap, s) && Next(c, s, List(list), t)
    ensures CapInv(c, cap, t)
  {
    forall n | n in ActiveNames(s.server) ensures n in s.cache && n in PodNames(list) {
      assert n in s.cache;
      assert Follows(s.cache[n], s.server[n]);
      assert s.cache[n] in list;
    }
  }

  lemma PlanKeepsCap(c: Config, cap: int, s: State, iu: Inplaceu, revision: string, step: Scaling.Step,
                     run: Updating.UpdateRun, t: State)
    requires CapInv(c, cap, s) && Plans(c, s, iu, revision, step, run, t)
    requires c.spec.replicas + Max(MaxSurge(c.spec), 0) <= cap
    ensures CapInv(c, cap, t)
  {
    if step.Creating? {
      var list := s.pass.list;
      PodNamesSize(list);
      SubsetSize(ActiveNames(s.server), PodNames(list));
      PlanMeaning(c.spec.replicas, MaxSurge(c.spec), MaxUnavailable(c.spec), TallyOf(list, revision));
      assert |step.ids| <= PlanOf(c.spec, list, revision).scaleUpNum;
    }
  }

  lemma AnnounceKeepsCap(c: Config, cap: int, s: State, t: State)
    requires CapInv(c, cap, s) && Announces(c, s, t)
    ensures CapInv(c, cap, t)
  {
    if s.pass.i < |s.pass.queue| {
      var e := E.Expected(c.key, E.Create, s.pass.queue[s.pass.i].name);
      forall n
        ensures E.Awaited(s.scale, c.key, E.Create, n) || n == e.name <==> E.Awaited(t.scale, c.key, E.Create, n)
      {
        E.AwaitedStep(s.scale, e, c.key, E.Create, n);
      }
    } else {
      PodNamesSize(s.pass.queue);
      forall n | n in PodNames(s.pass.queue) ensures Announced(c, s, n) {
        var j :| 0 <= j < |s.pass.queue| && s.pass.queue[j].name == n;
      }
    }
  }

  lemma CreateCounts(c: Config, s: State, p: Pod, t: State)
    requires CreatesPod(c, s, p, t)
    ensures ActiveNames(t.server) <= ActiveNames(s.server) + {p.name}
    ensures |ActiveNames(t.server)| <= |ActiveNames(s.server)| + 1
    ensures StillToCreate(t.pass) == StillToCreate(s.pass) - 1
  {
    SubsetSize(ActiveNames(t.server), ActiveNames(s.server) + {p.name});
    assert |s.pass.todo - {p.name}| == |s.pass.todo| - 1;
  }

  lemma CreateKeepsCap(c: Config, cap: int, s: State, p: Pod, t: State)
    requires CapInv(c, cap, s) && CreatesPod(c, s, p, t)
    ensures CapInv(c, cap, t)
  {
    assert Announced(c, s, p.name);
    CreateCounts(c, s, p, t);
  }

  lemma CreateFailKeepsCap(c: Config, cap: int, s: State, n: string, t: State)
    requires CapInv(c, cap, s) && FailsToCreate(s, n, t)
    ensures CapInv(c, cap, t)
  {
    assert |s.pass.todo - {n}| == |s.pass.todo| - 1;
  }

  /** Withdrawing a failed creation hides no pod: one that has the name was not created by this pass. */
  lemma WithdrawKeepsCap(c: Config, cap: int, s: State, n: string, t: State)
    requires CapInv(c, cap, s) && Withdraws(c, s, n, t)
    ensures CapInv(c, cap, t)
  {
    forall m ensures E.Awaited(s.scale, c.key, E.Create, m) && m != n <==> E.Awaited(t.scale, c.key, E.Create, m) {
      E.AwaitedStep(s.scale, E.Observed(c.key, E.Create, n), c.key, E.Create, m);
    }
  }

  /** Steps on deletions leave awaited creations alone. */
  lemma DeletionEventKeepsAwaited(c: Config, s: State, e: E.Event)
    requires (e.Expected? || e.Observed?) && e.action == E.Delete
    ensures forall n :: E.Awaited(s.scale, c.key, E.Create, n) <==> E.Awaited(s.scale + [e], c.key, E.Create, n)
  {
    forall n ensures E.Awaited(s.scale, c.key, E.Create, n) <==> E.Awaited(s.scale + [e], c.key, E.Create, n) {
      E.AwaitedStep(s.scale, e, c.key, E.Create, n);
    }
  }

  lemma StopKeepsCap(c: Config, cap: int, s: State, t: State)
    requires CapInv(c, cap, s) && StopsCalling(s, t)
    ensures CapInv(c, cap, t)
  {
  }

  /** Steps that touch neither pods nor awaited creations, and leave the pass nothing to create. */
  lemma QuietKeepsCap(c: Config, cap: int, s: State, t: State)
    requires CapInv(c, cap, s) && t.server == s.server && t.cache == s.cache && t.used == s.used
    requires forall n :: E.Awaited(s.scale, c.key, E.Create, n) <==> E.Awaited(t.scale, c.key, E.Create, n)
    requires t.pass.Resting? || t.pass.Removing? || t.pass.Changing?
    ensures CapInv(c, cap, t)
  {
  }

  /** Steps that change or remove a pod on the server while nothing is to be created. */
  lemma ShrinkKeepsCap(c: Config, cap: int, s: State, t: State)
    requires CapInv(c, cap, s) && t.cache == s.cache && t.scale == s.scale
    requires forall n | n in t.server :: n in s.server && Follows(s.server[n], t.server[n])
    requires t.pass.Removing? || t.pass.Changing?
    ensures CapInv(c, cap, t)
  {
    OutsideShrinks(c, s, t);
  }

  lemma DeletionKeepsCap(c: Config, cap: int, s: State, m: Move, t: State)
    requires CapInv(c, cap, s) && Next(c, s, m, t)
    requires m.AnnounceDelete? || m.DeleteFail?
    ensures CapInv(c, cap, t)
  {
    var n := s.pass.names[0];
    DeletionEventKeepsAwaited(c, s, if m.AnnounceDelete? then E.Expected(c.key, E.Delete, n)
                                    else E.Observed(c.key, E.Delete, n));
    QuietKeepsCap(c, cap, s, t);
  }

  lemma GateKeepsCap(c: Config, cap: int, s: State, t: State)
    requires CapInv(c, cap, s) && GatesOne(s, t)
    ensures CapInv(c, cap, t)
  {
  }

  lemma CheckKeepsCap(c: Config, cap: int, s: State, t: State)
    requires CapInv(c, cap, s) && NothingAwaited(c, s.scale) && t == s.(pass := Checked)
    ensures CapInv(c, cap, t)
  {
  }

  /** The steps that create nothing and leave nothing to create. */
  lemma RestKeepsCap(c: Config, cap: int, s: State, m: Move, t: State)
    requires CapInv(c, cap, s) && Next(c, s, m, t)
    requires !m.ClusterChange? && !m.ClusterRemove? && !m.Deliver? && !m.Handle? && !m.List? && !m.Plan?
    requires !m.Announce? && !m.CreateOk? && !m.CreateFail? && !m.StopCalling? && !m.Withdraw?
    ensures CapInv(c, cap, t)
  {
    if m.AnnounceDelete? || m.DeleteFail? {
      DeletionKeepsCap(c, cap, s, m, t);
    } else if m.DeleteMarks? || m.DeleteRemoves? || m.UpdateOk? {
      ShrinkKeepsCap(c, cap, s, t);
    } else if m.Check? {
      CheckKeepsCap(c, cap, s, t);
    } else if m.Gate? {
      GateKeepsCap(c, cap, s, t);
    } else {
      QuietKeepsCap(c, cap, s, t);
    }
  }

  lemma StepKeepsCap(c: Config, cap: int, s: State, m: Move, t: State)
    requires Stream(c, s) && CapInv(c, cap, s) && Next(c, s, m, t)
    requires c.spec.replicas + Max(MaxSurge(c.spec), 0) <= cap
    ensures CapInv(c, cap, t)
  {
    if m.ClusterChange? || m.ClusterRemove? || m.Deliver? || m.Handle? {
      OutsideKeepsCap(c, cap, s, m, t);
    } else if m.List? {
      ListKeepsCap(c, cap, s, m.list, t);
    } else if m.Plan? {
      PlanKeepsCap(c, cap, s, m.iu, m.revision, m.step, m.run, t);
    } else if m.Announce? {
      AnnounceKeepsCap(c, cap, s, t);
    } else if m.CreateOk? {
      CreateKeepsCap(c, cap, s, m.p, t);
    } else if m.CreateFail? {
      CreateFailKeepsCap(c, cap, s, m.n, t);
    } else if m.StopCalling? {
      StopKeepsCap(c, cap, s, t);
    } else if m.Withdraw? {
      WithdrawKeepsCap(c, cap, s, m.n, t);
    } else {
      RestKeepsCap(c, cap, s, m, t);
    }
  }

  // ---------- The theorem ----------

  lemma InitKeepsCap(c: Config, cap: int, s: State)
    requires Init(c, s) && |ActiveNames(s.server)| <= cap
    ensures CapInv(c, cap, s)
  {
  }

  lemma {:induction false} RunKeepsCap(c: Config, cap: int, run: seq<State>, moves: seq<Move>, k: nat)
    requires IsRun(c, run, moves) && k < |run|
    requires |ActiveNames(run[0].server)| <= cap && c.spec.replicas + Max(MaxSurge(c.spec), 0) <= cap
    ensures CapInv(c, cap, run[k])
  {
    if k == 0 {
      InitKeepsCap(c, cap, run[0]);
    } else {
      RunKeepsCap(c, cap, run, moves, k - 1);
      RunStream(c, run, moves, k - 1);
      assert StepAt(c, run, moves, k - 1);
      StepKeepsCap(c, cap, run[k - 1], moves[k - 1], run[k]);
    }
  }

  /**
   * In every interleaving of passes, deliveries, handler runs, failed calls and changes by the cluster, the active
   * pods on the server never exceed what there was at the start, or replicas + maxSurge if that is more.
   */
  lemma SurgeCap(c: Config, run: seq<State>, moves: seq<Move>, k: nat)
    requires IsRun(c, run, moves) && k < |run|
    ensures |ActiveNames(run[k].server)|
         <= Max(|ActiveNames(run[0].server)|, c.spec.replicas + Max(MaxSurge(c.spec), 0))
  {
    RunKeepsCap(c, Max(|ActiveNames(run[0].server)|, c.spec.replicas + Max(MaxSurge(c.spec), 0)), run, moves, k);
  }
}
