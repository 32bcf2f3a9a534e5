/** Deletions never stack: a pass that got past its expectations neither counts nor deletes a pod it deleted before. */
module ProtocolDeletes {
  import opened Kube
  import opened Scaling
  import Updating
  import opened Protocol
  import opened ProtocolStream
  import E = Expectations

  /** A deletion of this controller that the cache does not show yet is still awaited. */
  ghost predicate AwaitedOrDone(c: Config, s: State, n: string) {
    E.Awaited(s.scale, c.key, E.Delete, n) || Done(s, n)
  }

  ghost predicate PassSpares(c: Config, s: State) {
    match s.pass
    case Checked => NothingAwaited(c, s.scale)
    case Gating(list, _) => DistinctNames(list) && forall p | p in list :: p.name !in s.deleted
    case Removing(_, names, announced, _) =>
      && Distinct(names)
      && (forall n | n in names :: n !in s.deleted)
      && (announced ==> names != [] && AwaitedOrDone(c, s, names[0]))
    case _ => true
  }

  ghost predicate DeleteInv(c: Config, s: State) {
    (forall n | n in s.deleted :: AwaitedOrDone(c, s, n)) && PassSpares(c, s)
  }

  /** The call to delete n has just failed. */
  predicate FailedNow(s: State, m: Move, n: string) {
    m.DeleteFail? && s.pass.Removing? && s.pass.names != [] && n == s.pass.names[0]
  }

  /** How a step changes which deletions are awaited: announcing adds one, a failed call withdraws one. */
  ghost predicate KeepsAwaited(c: Config, s: State, m: Move, t: State) {
    forall n | AwaitedOrDone(c, s, n) && !FailedNow(s, m, n) ::
      AwaitedOrDone(c, t, n)
  }

  lemma EventKeepsDeletion(c: Config, log: seq<E.Event>, e: E.Event, n: string)
    requires E.Awaited(log, c.key, E.Delete, n) && !e.Forgotten? && e != E.Observed(c.key, E.Delete, n)
    ensures E.Awaited(log + [e], c.key, E.Delete, n)
  {
    E.AwaitedStep(log, e, c.key, E.Delete, n);
  }

  /** The one event a step of a pass appends to the log of scale expectations. */
  function Appended(c: Config, s: State, m: Move): seq<E.Event> {
    match m
    case Announce =>
      if s.pass.Announcing? && s.pass.i < |s.pass.queue| then [E.Expected(c.key, E.Create, s.pass.queue[s.pass.i].name)]
      else []
    case Withdraw(n) => [E.Observed(c.key, E.Create, n)]
    case AnnounceDelete =>
      if s.pass.Removing? && s.pass.names != [] then [E.Expected(c.key, E.Delete, s.pass.names[0])] else []
    case DeleteFail(_) =>
      if s.pass.Removing? && s.pass.names != [] then [E.Observed(c.key, E.Delete, s.pass.names[0])] else []
    case Handle => if s.notes != [] then ScaleSeen(s.notes[0]) else []
    case _ => []
  }

  lemma AppendedIsAll(c: Config, s: State, m: Move, t: State)
    requires Next(c, s, m, t)
    ensures t.scale == s.scale + Appended(c, s, m)
  {
  }

  lemma StepKeepsAwaited(c: Config, s: State, m: Move, t: State)
    requires Stream(c, s) && Next(c, s, m, t)
    ensures KeepsAwaited(c, s, m, t)
  {
    AppendedIsAll(c, s, m, t);
    forall n | AwaitedOrDone(c, s, n) && !FailedNow(s, m, n)
      ensures AwaitedOrDone(c, t, n)
    {
      OneKeepsAwaited(c, s, m, t, n);
    }
  }

  lemma OneKeepsAwaited(c: Config, s: State, m: Move, t: State, n: string)
    requires Stream(c, s) && Next(c, s, m, t) && t.scale == s.scale + Appended(c, s, m)
    requires AwaitedOrDone(c, s, n)
    requires !FailedNow(s, m, n)
    ensures AwaitedOrDone(c, t, n)
  {
    if Done(s, n) {
      StepKeepsDone(c, s, m, t, n);
    } else if m.Handle? {
      HandleSettles(c, s, t, E.Delete, n);
    } else if Appended(c, s, m) == [] {
      assert t.scale == s.scale;
    } else {
      EventKeepsDeletion(c, s.scale, Appended(c, s, m)[0], n);
      assert Appended(c, s, m) == [Appended(c, s, m)[0]];
    }
  }

  // ---------- Steps ----------

  lemma ListedAreNotDeleted(c: Config, s: State, list: seq<Pod>)
    requires DeleteInv(c, s) && s.pass.Checked? && Lists(list, s.cache)
    ensures forall p | p in list :: p.name !in s.deleted
  {
  }

  lemma NamesAreDistinct(pods: seq<Pod>)
    requires DistinctNames(pods)
    ensures Distinct(NamesOf(pods))
  {
  }

  lemma PlanKeepsDeletes(c: Config, s: State, iu: Inplaceu, revision: string, step: Scaling.Step,
                         run: Updating.UpdateRun, t: State)
    requires DeleteInv(c, s) && Plans(c, s, iu, revision, step, run, t)
    ensures DeleteInv(c, t)
  {
    if step.Deleting? {
      DeletionList(c.spec, s.pass.list, revision, step);
      NamesAreDistinct(step.list);
      forall n | n in NamesOf(step.list) ensures n !in s.deleted {
        var i :| 0 <= i < |step.list| && NamesOf(step.list)[i] == n;
        assert step.list[i] in step.list && step.list[i] in s.pass.list;
      }
    }
  }

  /** After a successful call the deleted pod is awaited, or was shown terminating while the call was under way. */
  lemma DeleteKeepsDeletes(c: Config, s: State, m: Move, t: State)
    requires DeleteInv(c, s) && KeepsAwaited(c, s, m, t)
    requires s.pass.Removing? && s.pass.names != [] && s.pass.announced && !m.DeleteFail?
    requires t.deleted == s.deleted + {s.pass.names[0]}
    requires t.pass == Removing(s.pass.basis, s.pass.names[1..], false, true)
    ensures DeleteInv(c, t)
  {
  }

  lemma DeleteFailKeepsDeletes(c: Config, s: State, m: Move, t: State)
    requires DeleteInv(c, s) && KeepsAwaited(c, s, m, t)
    requires m.DeleteFail? && s.pass.Removing? && s.pass.names != []
    requires t.deleted == s.deleted && (t.pass.Resting? || t.pass.Changing?)
    ensures DeleteInv(c, t)
  {
  }

  lemma AnnounceDeleteKeeps(c: Config, s: State, m: Move, t: State)
    requires DeleteInv(c, s) && KeepsAwaited(c, s, m, t) && m.AnnounceDelete? && AnnouncesDelete(c, s, t)
    ensures DeleteInv(c, t)
  {
    E.AwaitedStep(s.scale, E.Expected(c.key, E.Delete, s.pass.names[0]), c.key, E.Delete, s.pass.names[0]);
  }

  /** Steps that delete nothing and leave the stage of the pass, or end it. */
  lemma QuietKeepsDeletes(c: Config, s: State, m: Move, t: State)
    requires DeleteInv(c, s) && KeepsAwaited(c, s, m, t) && !m.DeleteFail? && t.deleted == s.deleted
    requires || t.pass == s.pass
             || t.pass.Resting? || t.pass.Announcing? || t.pass.Calling? || t.pass.Withdrawing? || t.pass.Changing?
             || (s.pass.Gating? && t.pass.Gating? && t.pass.list == s.pass.list)
    requires t.pass.Checked? ==> NothingAwaited(c, t.scale)
    ensures DeleteInv(c, t)
  {
  }

  /** What a step may do to the stage of the pass, apart from the steps treated above. */
  lemma QuietSteps(c: Config, s: State, m: Move, t: State)
    requires Stream(c, s) && Next(c, s, m, t) && (s.pass.Checked? ==> NothingAwaited(c, s.scale))
    requires !m.Check? && !m.List? && !m.Plan?
    requires !m.AnnounceDelete? && !m.DeleteMarks? && !m.DeleteRemoves? && !m.DeleteFail?
    ensures t.deleted == s.deleted
    ensures || t.pass == s.pass
            || t.pass.Resting? || t.pass.Announcing? || t.pass.Calling? || t.pass.Withdrawing? || t.pass.Changing?
            || (s.pass.Gating? && t.pass.Gating? && t.pass.list == s.pass.list)
    ensures t.pass.Checked? ==> NothingAwaited(c, t.scale)
  {
    if m.Handle? && s.pass.Checked? {
      HandleKeepsNothing(c, s, t);
    }
  }

  lemma StepKeepsDeletes(c: Config, s: State, m: Move, t: State)
    requires Stream(c, s) && DeleteInv(c, s) && Next(c, s, m, t)
    ensures DeleteInv(c, t)
  {
    StepKeepsAwaited(c, s, m, t);
    if m.Check? {
      assert t.deleted == s.deleted;
    } else if m.List? {
      ListedAreNotDeleted(c, s, m.list);
    } else if m.Plan? {
      PlanKeepsDeletes(c, s, m.iu, m.revision, m.step, m.run, t);
    } else if m.AnnounceDelete? {
      AnnounceDeleteKeeps(c, s, m, t);
    } else if m.DeleteMarks? || m.DeleteRemoves? {
      DeleteKeepsDeletes(c, s, m, t);
    } else if m.DeleteFail? {
      DeleteFailKeepsDeletes(c, s, m, t);
    } else {
      QuietSteps(c, s, m, t);
      QuietKeepsDeletes(c, s, m, t);
    }
  }

  // ---------- The theorems ----------

  lemma {:induction false} RunKeepsDeletes(c: Config, run: seq<State>, moves: seq<Move>, k: nat)
    requires IsRun(c, run, moves) && k < |run|
    ensures DeleteInv(c, run[k])
  {
    if k > 0 {
      RunKeepsDeletes(c, run, moves, k - 1);
      RunStream(c, run, moves, k - 1);
      assert StepAt(c, run, moves, k - 1);
      StepKeepsDeletes(c, run[k - 1], moves[k - 1], run[k]);
    }
  }

  /**
   * In every reachable state where a pass got past its expectations, each pod this controller deleted is missing
   * from the cache or shown terminating; and no list a pass plans from holds such a pod.
   */
  lemma DeletesNeverStack(c: Config, run: seq<State>, moves: seq<Move>, k: nat)
    requires IsRun(c, run, moves) && k < |run|
    ensures run[k].pass.Checked? ==>
      forall n | n in run[k].deleted :: n in run[k].cache ==> run[k].cache[n].deleting
    ensures run[k].pass.Gating? ==> forall p | p in run[k].pass.list :: p.name !in run[k].deleted
  {
    RunKeepsDeletes(c, run, moves, k);
    if run[k].pass.Checked? {
      forall n | n in run[k].deleted ensures n in run[k].cache ==> run[k].cache[n].deleting {
        assert AwaitedOrDone(c, run[k], n);
      }
    }
  }

  /** The pod a step deletes for the controller. */
  function DeletedBy(s: State, m: Move): Option<string> {
    match m
    case DeleteMarks(p) => Some(p.name)
    case DeleteRemoves => ErasedBy(s, m)
    case _ => None
  }

  /** Over a whole run the controller deletes each pod at most once. */
  lemma DeletedOnce(c: Config, run: seq<State>, moves: seq<Move>, i: nat, j: nat)
    requires IsRun(c, run, moves) && i < j < |moves|
    requires DeletedBy(run[i], moves[i]).Some? && DeletedBy(run[j], moves[j]).Some?
    ensures DeletedBy(run[i], moves[i]) != DeletedBy(run[j], moves[j])
  {
    assert StepAt(c, run, moves, i) && StepAt(c, run, moves, j);
    DeletedGrows(c, run, moves, i + 1, j);
    RunKeepsDeletes(c, run, moves, j);
    assert run[j].pass.names[0] in run[j].pass.names;
  }

  lemma {:induction false} DeletedGrows(c: Config, run: seq<State>, moves: seq<Move>, i: nat, j: nat)
    requires IsRun(c, run, moves) && i <= j < |run|
    ensures run[i].deleted <= run[j].deleted
  {
    if i < j {
      DeletedGrows(c, run, moves, i, j - 1);
      assert StepAt(c, run, moves, j - 1);
      StepGrows(c, run[j - 1], moves[j - 1], run[j]);
    }
  }

  lemma StepGrows(c: Config, s: State, m: Move, t: State)
    requires Next(c, s, m, t)
    ensures s.deleted <= t.deleted
  {
  }
}
