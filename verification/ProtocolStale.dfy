/** The exception of read-your-writes is real: a run in which a pass plans from a pod older than its own last write. */
module ProtocolStale {
  import opened Kube
  import opened Planner
  import opened Scaling
  import opened Updating
  import opened EventHandler
  import opened Protocol
  import E = Expectations
  import V = Versions

  ghost predicate Reached(c: Config, s: State) {
    exists run, moves :: IsRun(c, run, moves) && run[|run| - 1] == s
  }

  lemma ReachedStart(c: Config, s: State)
    requires Init(c, s)
    ensures Reached(c, s)
  {
    assert IsRun(c, [s], []);
  }

  lemma ReachedStep(c: Config, s: State, m: Move, t: State)
    requires Reached(c, s) && Next(c, s, m, t)
    ensures Reached(c, t)
  {
    var run: seq<State>, moves: seq<Move> :| IsRun(c, run, moves) && run[|run| - 1] == s;
    var run', moves' := run + [t], moves + [m];
    forall i | 0 <= i < |moves'| ensures StepAt(c, run', moves', i) {
      if i < |moves| {
        assert StepAt(c, run, moves, i);
        assert run'[i] == run[i] && run'[i + 1] == run[i + 1] && moves'[i] == moves[i];
      }
    }
    assert IsRun(c, run', moves');
  }

  /** One running old pod, its state after an in-place update, and its state once someone has deleted it. */
  ghost predicate Story(c: Config, n: string, p0: Pod, p1: Pod, p2: Pod, revision: string) {
    && c.spec.replicas == 1 && MaxSurge(c.spec) == 0 && MaxUnavailable(c.spec) == 1
    && Owned(c, n, p0) && Owned(c, n, p1) && Owned(c, n, p2)
    && VersionOf(p0) < VersionOf(p1) < VersionOf(p2)
    && IsActive(p0) && IsActive(p1) && p2.deleting
    && IsRunning(p0) && InClass(KEPT_OUTDATED, p0, revision)
  }

  function Start(n: string, p0: Pod): State {
    State(map[n := p0], VersionOf(p0), {n}, [], map[n := p0], [], [], [], Resting, {}, map[])
  }

  /** The state once the controller has updated the pod and announced its version. */
  function Written(n: string, p0: Pod, p1: Pod): State {
    Start(n, p0).(server := map[n := p1], clock := VersionOf(p1), watch := [Put(p1)],
                  versions := [V.Expected(n, p1.resourceVersion)], written := map[n := VersionOf(p1)])
  }

  /** The state once the cache and the handler have also seen the deletion, in a pass that listed before. */
  function Overtaken(n: string, p0: Pod, p1: Pod, p2: Pod): State {
    Written(n, p0, p1).(server := map[n := p2], clock := VersionOf(p2), watch := [], cache := map[n := p2],
                        scale := [] + ScaleSeen(Changed(p0, p1)) + ScaleSeen(Changed(p1, p2)),
                        versions := [V.Expected(n, p1.resourceVersion)]
                                    + VersionsSeen(Changed(p0, p1)) + VersionsSeen(Changed(p1, p2)),
                        pass := Gating([p0], 0))
  }

  lemma OnePodPlan(c: Config, p: Pod, revision: string)
    requires c.spec.replicas == 1 && MaxSurge(c.spec) == 0 && MaxUnavailable(c.spec) == 1
    requires IsRunning(p) && InClass(KEPT_OUTDATED, p, revision)
    ensures Decided(c.spec, [p], revision, Idle)
    ensures UpdateDecided(c.spec, [p], revision, UpdateRun([0], [0], []))
  {
  }

  lemma Planning(c: Config, n: string, p0: Pod, p1: Pod, p2: Pod, revision: string, iu: Inplaceu)
    requires Story(c, n, p0, p1, p2, revision) && iu.name == c.key
    requires Reached(c, Start(n, p0).(pass := Gating([p0], 1)))
    ensures Reached(c, Start(n, p0).(pass := Changing([n], None)))
  {
    OnePodPlan(c, p0, revision);
    var run := UpdateRun([0], [0], []);
    assert NamesOf(At([p0], run.chosen)) == [n];
    var s3 := Start(n, p0).(pass := Gating([p0], 1));
    var s4 := Start(n, p0).(pass := Changing([n], None));
    assert ChoosesUpdates(c, Basis([p0], revision), run, s4.pass);
    assert Plans(c, s3, iu, revision, Idle, run, s4);
    ReachedStep(c, s3, Plan(iu, revision, Idle, run), s4);
  }

  lemma Gated(c: Config, n: string, p0: Pod, p1: Pod, p2: Pod, revision: string)
    requires Story(c, n, p0, p1, p2, revision)
    ensures Reached(c, Start(n, p0).(pass := Gating([p0], 1)))
  {
    var s0 := Start(n, p0);
    ReachedStart(c, s0);
    var s1 := s0.(pass := Checked);
    ReachedStep(c, s0, Check, s1);
    var s2 := s0.(pass := Gating([p0], 0));
    ReachedStep(c, s1, List([p0]), s2);
    ReachedStep(c, s2, Gate, s0.(pass := Gating([p0], 1)));
  }

  lemma Writing(c: Config, n: string, p0: Pod, p1: Pod, p2: Pod, revision: string)
    requires Story(c, n, p0, p1, p2, revision) && Reached(c, Start(n, p0).(pass := Changing([n], None)))
    ensures Reached(c, Written(n, p0, p1).(versions := [], pass := Changing([n], Some(p1.resourceVersion))))
  {
    var s4 := Start(n, p0).(pass := Changing([n], None));
    var s5 := Written(n, p0, p1).(versions := [], pass := Changing([n], Some(p1.resourceVersion)));
    assert s4.server[n := p1] == s5.server && s4.written[n := VersionOf(p1)] == s5.written;
    assert s4.used + {n} == s5.used && s4.watch + [Put(p1)] == s5.watch;
    assert ChangesPod(c, s4, p1, s5);
    ReachedStep(c, s4, UpdateOk(p1), s5);
  }

  lemma Announcement(c: Config, n: string, p0: Pod, p1: Pod)
    requires Reached(c, Written(n, p0, p1).(versions := [], pass := Changing([n], Some(p1.resourceVersion))))
    ensures Reached(c, Written(n, p0, p1))
  {
    var s7 := Written(n, p0, p1);
    var s5 := s7.(versions := [], pass := Changing([n], Some(p1.resourceVersion)));
    var s6 := s7.(pass := Changing([], None));
    assert s5.versions + [V.Expected(n, p1.resourceVersion)] == s6.versions;
    assert s5.pass.names[1..] == [];
    assert ExpectsVersion(s5, s6);
    ReachedStep(c, s5, ExpectVersion, s6);
    ReachedStep(c, s6, EndUpdating, s7);
  }

  lemma FirstPass(c: Config, n: string, p0: Pod, p1: Pod, p2: Pod, revision: string, iu: Inplaceu)
    requires Story(c, n, p0, p1, p2, revision) && iu.name == c.key
    ensures Reached(c, Written(n, p0, p1))
  {
    Gated(c, n, p0, p1, p2, revision);
    Planning(c, n, p0, p1, p2, revision, iu);
    Writing(c, n, p0, p1, p2, revision);
    Announcement(c, n, p0, p1);
  }

  lemma Listing(c: Config, n: string, p0: Pod, p1: Pod, p2: Pod, revision: string)
    requires Story(c, n, p0, p1, p2, revision) && Reached(c, Written(n, p0, p1))
    ensures Reached(c, Written(n, p0, p1).(pass := Gating([p0], 0)))
  {
    var s7 := Written(n, p0, p1);
    var s8 := s7.(pass := Checked);
    ReachedStep(c, s7, Check, s8);
    ReachedStep(c, s8, List([p0]), s7.(pass := Gating([p0], 0)));
  }

  lemma Overtaking(c: Config, n: string, p0: Pod, p1: Pod, p2: Pod, revision: string)
    requires Story(c, n, p0, p1, p2, revision) && Reached(c, Written(n, p0, p1).(pass := Gating([p0], 0)))
    ensures Reached(c, Overtaken(n, p0, p1, p2))
  {
    var s9 := Written(n, p0, p1).(pass := Gating([p0], 0));
    var s10 := s9.(server := map[n := p2], clock := VersionOf(p2), watch := [Put(p1), Put(p2)]);
    assert map[n := p1][n := p2] == map[n := p2];
    ReachedStep(c, s9, ClusterChange(p2), s10);
    var s11 := s10.(watch := [Put(p2)], cache := map[n := p1], notes := [Changed(p0, p1)]);
    assert map[n := p0][n := p1] == map[n := p1];
    ReachedStep(c, s10, Deliver, s11);
    var s12 := s11.(watch := [], cache := map[n := p2], notes := [Changed(p0, p1), Changed(p1, p2)]);
    ReachedStep(c, s11, Deliver, s12);
    Handling(c, n, p0, p1, p2, s12);
  }

  lemma HandlesNext(c: Config, s: State)
    requires Reached(c, s) && s.notes != []
    ensures Reached(c, s.(notes := s.notes[1..], scale := s.scale + ScaleSeen(s.notes[0]),
                          versions := s.versions + VersionsSeen(s.notes[0])))
  {
    var t := s.(notes := s.notes[1..], scale := s.scale + ScaleSeen(s.notes[0]),
                versions := s.versions + VersionsSeen(s.notes[0]));
    assert Handles(s, t);
    ReachedStep(c, s, Handle, t);
  }

  lemma Handling(c: Config, n: string, p0: Pod, p1: Pod, p2: Pod, s12: State)
    requires Reached(c, s12)
    requires s12 == Overtaken(n, p0, p1, p2).(notes := [Changed(p0, p1), Changed(p1, p2)], scale := [],
                                              versions := [V.Expected(n, p1.resourceVersion)])
    ensures Reached(c, Overtaken(n, p0, p1, p2))
  {
    HandlesNext(c, s12);
    var s13 := s12.(notes := [Changed(p1, p2)], scale := s12.scale + ScaleSeen(Changed(p0, p1)),
                    versions := s12.versions + VersionsSeen(Changed(p0, p1)));
    assert s12.notes[1..] == s13.notes;
    HandlesNext(c, s13);
    assert s13.notes[1..] == [];
  }

  lemma {:induction false} ClearedAtLast(n: string, p0: Pod, p1: Pod, p2: Pod)
    requires p0.uid == n && p1.uid == n && p2.uid == n
    requires p1.resourceVersion != p2.resourceVersion && p2.deleting && !p1.deleting
    ensures V.Highest(Overtaken(n, p0, p1, p2).versions, n) == None
  {
  }

  lemma LastGate(c: Config, n: string, p0: Pod, p1: Pod, p2: Pod, revision: string)
    requires Story(c, n, p0, p1, p2, revision) && Reached(c, Overtaken(n, p0, p1, p2))
    ensures Reached(c, Overtaken(n, p0, p1, p2).(pass := Gating([p0], 1)))
  {
    ClearedAtLast(n, p0, p1, p2);
    var s := Overtaken(n, p0, p1, p2);
    var t := s.(pass := Gating([p0], 1));
    assert GatesOne(s, t);
    ReachedStep(c, s, Gate, t);
  }

  /** The handler clears the demand when it sees the deletion; the pass that listed before lets the pod through. */
  lemma StalePodCanPass(c: Config, n: string, p0: Pod, p1: Pod, p2: Pod, revision: string, iu: Inplaceu)
    requires Story(c, n, p0, p1, p2, revision) && iu.name == c.key
    ensures exists s :: Reached(c, s) && s.pass == Gating([p0], 1) && n in s.written && VersionOf(p0) < s.written[n]
  {
    FirstPass(c, n, p0, p1, p2, revision, iu);
    Listing(c, n, p0, p1, p2, revision);
    Overtaking(c, n, p0, p1, p2, revision);
    LastGate(c, n, p0, p1, p2, revision);
  }
}
