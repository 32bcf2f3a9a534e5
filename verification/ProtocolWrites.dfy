/** Read your writes: no pass plans from a pod older than its own last write to it, unless the pod is going. */
module ProtocolWrites {
  import opened Kube
  import opened Protocol
  import opened ProtocolStream
  import V = Versions

  /** The version expectations ask for at least this version. */
  ghost predicate Demands(s: State, n: string, w: nat) {
    V.Highest(s.versions, n).Some? && V.Highest(s.versions, n).value >= w
  }

  /** The write to this pod has been made and is about to be announced. */
  predicate InFlight(s: State, n: string, w: nat) {
    && s.pass.Changing? && s.pass.names != [] && s.pass.names[0] == n
    && s.pass.version.Some? && V.ParseUint(s.pass.version.value) == Some(w)
  }

  /** A write is demanded, or the cache has caught up with it, or the pod is going. */
  ghost predicate Tracked(s: State, n: string, w: nat) {
    || Done(s, n)
    || Demands(s, n, w)
    || (n in s.cache && VersionOf(s.cache[n]) >= w)
    || InFlight(s, n, w)
  }

  /** A listed pod trails the cache; once gated it is as new as the last write, unless the pod is going. */
  ghost predicate ListedSound(c: Config, s: State, p: Pod, gated: bool) {
    && Owned(c, p.name, p)
    && (Done(s, p.name) || (p.name in s.cache && Follows(p, s.cache[p.name])))
    && (p.name in s.written ==>
          || Done(s, p.name)
          || VersionOf(p) >= s.written[p.name]
          || (!gated && Demands(s, p.name, s.written[p.name])))
  }

  ghost predicate PassReads(c: Config, s: State) {
    match s.pass
    case Gating(list, i) => i <= |list| && forall j | 0 <= j < |list| :: ListedSound(c, s, list[j], j < i)
    case Changing(names, version) =>
      version.Some? ==> names != [] && names[0] in s.written && InFlight(s, names[0], s.written[names[0]])
    case _ => true
  }

  ghost predicate WriteInv(c: Config, s: State) {
    && (forall n | n in s.written :: Tracked(s, n, s.written[n]))
    && PassReads(c, s)
  }

  // ---------- Steps of the watch and the handler ----------

  lemma DeliverKeepsTracked(c: Config, s: State, t: State, n: string, w: nat)
    requires Stream(c, s) && Delivers(s, t) && Tracked(s, n, w)
    ensures Tracked(t, n, w)
  {
  }

  lemma DeliverKeepsListed(c: Config, s: State, t: State, p: Pod, gated: bool)
    requires Stream(c, s) && Delivers(s, t) && ListedSound(c, s, p, gated)
    ensures ListedSound(c, t, p, gated)
  {
  }

  lemma HandleKeepsTracked(c: Config, s: State, t: State, n: string, w: nat)
    requires Stream(c, s) && Handles(s, t) && Tracked(s, n, w)
    ensures Tracked(t, n, w)
  {
    HandleClears(c, s, t, n);
  }

  lemma HandleKeepsListed(c: Config, s: State, t: State, p: Pod, gated: bool)
    requires Stream(c, s) && Handles(s, t) && ListedSound(c, s, p, gated)
    ensures ListedSound(c, t, p, gated)
  {
    HandleClears(c, s, t, p.name);
  }

  /** Steps that leave cache and versions alone. */
  ghost predicate LeavesReads(s: State, t: State) {
    t.cache == s.cache && t.versions == s.versions
  }

  lemma QuietKeepsTracked(c: Config, s: State, m: Move, t: State, n: string, w: nat)
    requires Next(c, s, m, t) && LeavesReads(s, t) && Tracked(s, n, w) && (InFlight(s, n, w) ==> t.pass == s.pass)
    ensures Tracked(t, n, w)
  {
    if Done(s, n) {
      StepKeepsDone(c, s, m, t, n);
    }
  }

  lemma QuietKeepsListed(c: Config, s: State, m: Move, t: State, p: Pod, gated: bool)
    requires Next(c, s, m, t) && LeavesReads(s, t) && t.written == s.written && ListedSound(c, s, p, gated)
    ensures ListedSound(c, t, p, gated)
  {
    if Done(s, p.name) {
      StepKeepsDone(c, s, m, t, p.name);
    }
  }

  // ---------- Steps of the pass ----------

  lemma ListKeepsWrites(c: Config, s: State, list: seq<Pod>, t: State)
    requires Stream(c, s) && WriteInv(c, s) && Next(c, s, List(list), t)
    ensures WriteInv(c, t)
  {
  }

  lemma GateKeepsTracked(c: Config, s: State, t: State, n: string)
    requires WriteInv(c, s) && GatesOne(s, t) && t.pass.Gating? && n in s.written
    ensures Tracked(t, n, s.written[n])
  {
  }

  lemma GateKeepsListed(c: Config, s: State, t: State, j: nat)
    requires WriteInv(c, s) && GatesOne(s, t) && t.pass.Gating? && j < |s.pass.list|
    requires forall k | 0 <= k < |s.pass.list| && k != s.pass.i :: s.pass.list[k].name != s.pass.list[s.pass.i].name
    ensures ListedSound(c, t, s.pass.list[j], j < s.pass.i + 1)
  {
  }

  lemma GateKeepsWrites(c: Config, s: State, t: State)
    requires WriteInv(c, s) && GatesOne(s, t) && DistinctNames(s.pass.list)
    ensures WriteInv(c, t)
  {
    if t.pass.Gating? {
      forall n | n in s.written ensures Tracked(t, n, t.written[n]) {
        GateKeepsTracked(c, s, t, n);
      }
      forall j | 0 <= j < |t.pass.list| ensures ListedSound(c, t, t.pass.list[j], j < t.pass.i) {
        GateKeepsListed(c, s, t, j);
      }
    } else {
      forall n | n in s.written ensures Tracked(t, n, t.written[n]) {
        assert Tracked(s, n, s.written[n]);
      }
    }
  }

  lemma UpdateKeepsWrites(c: Config, s: State, p: Pod, t: State)
    requires Stream(c, s) && WriteInv(c, s) && Next(c, s, UpdateOk(p), t)
    ensures WriteInv(c, t)
  {
    forall n | n in t.written ensures Tracked(t, n, t.written[n]) {
      if n == p.name {
        assert InFlight(t, n, VersionOf(p));
      } else {
        QuietKeepsTracked(c, s, UpdateOk(p), t, n, s.written[n]);
      }
    }
  }

  lemma ExpectKeepsWrites(c: Config, s: State, t: State)
    requires WriteInv(c, s) && ExpectsVersion(s, t)
    ensures WriteInv(c, t)
  {
  }

  lemma DeliverKeepsWrites(c: Config, s: State, t: State)
    requires Stream(c, s) && WriteInv(c, s) && Delivers(s, t)
    ensures WriteInv(c, t)
  {
    forall n | n in s.written ensures Tracked(t, n, t.written[n]) {
      DeliverKeepsTracked(c, s, t, n, s.written[n]);
    }
    if s.pass.Gating? {
      forall j | 0 <= j < |s.pass.list| ensures ListedSound(c, t, s.pass.list[j], j < s.pass.i) {
        DeliverKeepsListed(c, s, t, s.pass.list[j], j < s.pass.i);
      }
    }
  }

  lemma HandleKeepsWrites(c: Config, s: State, t: State)
    requires Stream(c, s) && WriteInv(c, s) && Handles(s, t)
    ensures WriteInv(c, t)
  {
    forall n | n in s.written ensures Tracked(t, n, t.written[n]) {
      HandleKeepsTracked(c, s, t, n, s.written[n]);
    }
    if s.pass.Gating? {
      forall j | 0 <= j < |s.pass.list| ensures ListedSound(c, t, s.pass.list[j], j < s.pass.i) {
        HandleKeepsListed(c, s, t, s.pass.list[j], j < s.pass.i);
      }
    }
  }

  /** The steps that leave cache, versions and written versions alone, and either keep the stage or leave the gates. */
  lemma QuietKeepsWrites(c: Config, s: State, m: Move, t: State)
    requires WriteInv(c, s) && Next(c, s, m, t) && LeavesReads(s, t) && t.written == s.written
    requires t.pass == s.pass || (!t.pass.Gating? && (t.pass.Changing? ==> t.pass.version.None?)
                                  && (s.pass.Changing? ==> s.pass.version.None?))
    ensures WriteInv(c, t)
  {
    forall n | n in s.written ensures Tracked(t, n, t.written[n]) {
      QuietKeepsTracked(c, s, m, t, n, s.written[n]);
    }
    if t.pass.Gating? {
      forall j | 0 <= j < |s.pass.list| ensures ListedSound(c, t, s.pass.list[j], j < s.pass.i) {
        QuietKeepsListed(c, s, m, t, s.pass.list[j], j < s.pass.i);
      }
    }
  }

  lemma QuietMoves(c: Config, s: State, m: Move, t: State)
    requires Next(c, s, m, t)
    requires !m.Deliver? && !m.Handle? && !m.List? && !m.Gate? && !m.UpdateOk? && !m.ExpectVersion?
    ensures LeavesReads(s, t) && t.written == s.written
    ensures t.pass == s.pass || (!t.pass.Gating? && (t.pass.Changing? ==> t.pass.version.None?)
                                 && (s.pass.Changing? ==> s.pass.version.None?))
  {
  }

  /** The names of the list stay distinct while it is gated. */
  ghost predicate ListDistinct(s: State) {
    s.pass.Gating? ==> DistinctNames(s.pass.list)
  }

  lemma StepKeepsDistinct(c: Config, s: State, m: Move, t: State)
    requires ListDistinct(s) && Next(c, s, m, t)
    ensures ListDistinct(t)
  {
  }

  lemma StepKeepsWrites(c: Config, s: State, m: Move, t: State)
    requires Stream(c, s) && ListDistinct(s) && WriteInv(c, s) && Next(c, s, m, t)
    ensures WriteInv(c, t)
  {
    if m.Deliver? {
      DeliverKeepsWrites(c, s, t);
    } else if m.Handle? {
      HandleKeepsWrites(c, s, t);
    } else if m.List? {
      ListKeepsWrites(c, s, m.list, t);
    } else if m.Gate? {
      GateKeepsWrites(c, s, t);
    } else if m.UpdateOk? {
      UpdateKeepsWrites(c, s, m.p, t);
    } else if m.ExpectVersion? {
      ExpectKeepsWrites(c, s, t);
    } else {
      QuietMoves(c, s, m, t);
      QuietKeepsWrites(c, s, m, t);
    }
  }

  // ---------- The theorem ----------

  lemma {:induction false} RunKeepsWrites(c: Config, run: seq<State>, moves: seq<Move>, k: nat)
    requires IsRun(c, run, moves) && k < |run|
    ensures ListDistinct(run[k]) && WriteInv(c, run[k])
  {
    if k > 0 {
      RunKeepsWrites(c, run, moves, k - 1);
      RunStream(c, run, moves, k - 1);
      assert StepAt(c, run, moves, k - 1);
      StepKeepsDistinct(c, run[k - 1], moves[k - 1], run[k]);
      StepKeepsWrites(c, run[k - 1], moves[k - 1], run[k]);
    }
  }

  /**
   * When a pass comes to plan, every pod on its list is at least as new as this controller's last write to it, or
   * is already terminating or gone on the server and for the cache.
   */
  lemma ReadYourWrites(c: Config, run: seq<State>, moves: seq<Move>, k: nat)
    requires IsRun(c, run, moves) && k < |run|
    requires run[k].pass.Gating? && run[k].pass.i == |run[k].pass.list|
    ensures forall p | p in run[k].pass.list && p.name in run[k].written ::
      VersionOf(p) >= run[k].written[p.name] || Done(run[k], p.name)
  {
    RunKeepsWrites(c, run, moves, k);
    forall p | p in run[k].pass.list && p.name in run[k].written
      ensures VersionOf(p) >= run[k].written[p.name] || Done(run[k], p.name)
    {
      var j :| 0 <= j < |run[k].pass.list| && run[k].pass.list[j] == p;
      assert ListedSound(c, run[k], run[k].pass.list[j], true);
    }
  }

  // ---------- Exactly when a stale pod gets through ----------

  /** The demand for a written pod is gone, or at least the last write, or about to be raised to it. */
  ghost predicate Raised(s: State, n: string, w: nat) {
    V.Highest(s.versions, n).None? || Demands(s, n, w) || InFlight(s, n, w)
  }

  ghost predicate RaisedInv(s: State) {
    forall n | n in s.written :: Raised(s, n, s.written[n])
  }

  lemma {:induction false} AllCleared(log: seq<V.Event>, seen: seq<V.Event>, uid: string, n: string)
    requires forall e | e in seen :: e == V.Cleared(uid)
    ensures V.Highest(log + seen, n) == V.Highest(log, n) || V.Highest(log + seen, n) == None
  {
    if seen == [] {
      assert log + seen == log;
    } else {
      var front, last := seen[..|seen| - 1], seen[|seen| - 1];
      assert last in seen && (log + seen)[..|log + seen| - 1] == log + front;
      assert forall e | e in front :: e in seen;
      AllCleared(log, front, uid, n);
    }
  }

  lemma HandleKeepsRaised(c: Config, s: State, t: State)
    requires Stream(c, s) && RaisedInv(s) && Handles(s, t)
    ensures RaisedInv(t)
  {
    var note := s.notes[0];
    forall e | e in VersionsSeen(note) ensures e == V.Cleared(NoteName(note)) {
      SeenVersions(c, note, e);
    }
    forall n | n in s.written ensures Raised(t, n, t.written[n]) {
      AllCleared(s.versions, VersionsSeen(note), NoteName(note), n);
    }
  }

  lemma GateKeepsRaised(s: State, t: State)
    requires RaisedInv(s) && GatesOne(s, t)
    ensures RaisedInv(t)
  {
    var p := s.pass.list[s.pass.i];
    forall n | n in s.written ensures Raised(t, n, t.written[n]) {
      AllCleared(s.versions, [V.Cleared(p.uid)], p.uid, n);
      assert Raised(s, n, s.written[n]);
    }
  }

  lemma UpdateKeepsRaised(c: Config, s: State, p: Pod, t: State)
    requires RaisedInv(s) && UpdatesPod(c, s, p, t)
    ensures RaisedInv(t)
  {
    forall n | n in t.written ensures Raised(t, n, t.written[n]) {
      if n == p.name {
        assert InFlight(t, n, t.written[n]);
      } else {
        assert Raised(s, n, s.written[n]);
      }
    }
  }

  lemma ExpectKeepsRaised(c: Config, s: State, t: State)
    requires WriteInv(c, s) && RaisedInv(s) && ExpectsVersion(s, t)
    ensures RaisedInv(t)
  {
    assert t.versions[..|s.versions|] == s.versions;
    forall n | n in s.written ensures Raised(t, n, t.written[n]) {
      assert Raised(s, n, s.written[n]);
    }
  }

  lemma QuietKeepsRaised(s: State, t: State)
    requires RaisedInv(s) && t.versions == s.versions && t.written == s.written
    requires t.pass == s.pass || (s.pass.Changing? ==> s.pass.version.None?)
    ensures RaisedInv(t)
  {
    forall n | n in s.written ensures Raised(t, n, t.written[n]) {
      assert Raised(s, n, s.written[n]);
    }
  }

  lemma StepKeepsRaised(c: Config, s: State, m: Move, t: State)
    requires Stream(c, s) && WriteInv(c, s) && RaisedInv(s) && Next(c, s, m, t)
    ensures RaisedInv(t)
  {
    if m.Handle? {
      HandleKeepsRaised(c, s, t);
    } else if m.Gate? {
      GateKeepsRaised(s, t);
    } else if m.UpdateOk? {
      UpdateKeepsRaised(c, s, m.p, t);
    } else if m.ExpectVersion? {
      ExpectKeepsRaised(c, s, t);
    } else if m.Deliver? || m.List? {
      QuietKeepsRaised(s, t);
    } else {
      QuietMoves(c, s, m, t);
      QuietKeepsRaised(s, t);
    }
  }

  lemma {:induction false} RunKeepsRaised(c: Config, run: seq<State>, moves: seq<Move>, k: nat)
    requires IsRun(c, run, moves) && k < |run|
    ensures RaisedInv(run[k])
  {
    if k > 0 {
      RunKeepsRaised(c, run, moves, k - 1);
      RunKeepsWrites(c, run, moves, k - 1);
      RunStream(c, run, moves, k - 1);
      assert StepAt(c, run, moves, k - 1);
      StepKeepsRaised(c, run[k - 1], moves[k - 1], run[k]);
    }
  }

  lemma StaleAtGate(c: Config, s: State, t: State)
    requires WriteInv(c, s) && RaisedInv(s) && GatesOne(s, t)
    requires
      && var p := s.pass.list[s.pass.i];
      && p.name in s.written && VersionOf(p) < s.written[p.name]
    ensures t.pass.Gating? <==> V.Highest(s.versions, s.pass.list[s.pass.i].uid).None?
  {
    var p := s.pass.list[s.pass.i];
    assert ListedSound(c, s, p, false);
    assert Raised(s, p.name, s.written[p.name]);
  }

  /**
   * A listed pod that is older than this controller's last write to it gets through its gate exactly when no
   * version is demanded of it at that moment, and then it is already terminating or gone.
   */
  lemma StalePassesExactly(c: Config, run: seq<State>, moves: seq<Move>, k: nat)
    requires IsRun(c, run, moves) && k < |moves| && moves[k].Gate?
    requires run[k].pass.Gating? && run[k].pass.i < |run[k].pass.list|
    requires
      && var p := run[k].pass.list[run[k].pass.i];
      && p.name in run[k].written && VersionOf(p) < run[k].written[p.name]
    ensures
      && var p := run[k].pass.list[run[k].pass.i];
      && (run[k + 1].pass.Gating? <==> V.Highest(run[k].versions, p.uid).None?)
      && (run[k + 1].pass.Gating? ==> Done(run[k + 1], p.name))
  {
    assert StepAt(c, run, moves, k);
    RunKeepsWrites(c, run, moves, k);
    RunKeepsWrites(c, run, moves, k + 1);
    RunKeepsRaised(c, run, moves, k);
    StaleAtGate(c, run[k], run[k + 1]);
    if run[k + 1].pass.Gating? {
      GatedIsDone(c, run[k], run[k + 1]);
    }
  }

  lemma GatedIsDone(c: Config, s: State, t: State)
    requires WriteInv(c, t) && GatesOne(s, t) && t.pass.Gating?
    ensures
      && var p := s.pass.list[s.pass.i];
      && (p.name in t.written && VersionOf(p) < t.written[p.name] ==> Done(t, p.name))
  {
    assert ListedSound(c, t, t.pass.list[s.pass.i], s.pass.i < t.pass.i);
  }
}
