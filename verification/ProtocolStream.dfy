/** What the watch guarantees in any interleaving: the cache trails the server, and deletion is final. */
module ProtocolStream {
  import opened Kube
  import opened EventHandler
  import opened Protocol
  import E = Expectations
  import V = Versions

  function NoteName(note: Note): string {
    match note
    case Added(p) => p.name
    case Changed(_, q) => q.name
    case Removed(p) => p.name
  }

  /** Everything in flight belongs to the workload and has a name that is in use. */
  ghost predicate AllOwned(c: Config, s: State) {
    && (forall n | n in s.server :: Owned(c, n, s.server[n]) && n in s.used)
    && (forall n | n in s.cache :: Owned(c, n, s.cache[n]) && n in s.used)
    && (forall i | 0 <= i < |s.watch| :: OwnedEvent(c, s.watch[i]) && EventName(s.watch[i]) in s.used)
    && (forall i | 0 <= i < |s.notes| :: OwnedNote(c, s.notes[i]) && NoteName(s.notes[i]) in s.used)
  }

  predicate OwnedEvent(c: Config, e: Event) {
    e.Put? ==> Owned(c, e.pod.name, e.pod)
  }

  predicate OwnedNote(c: Config, note: Note) {
    match note
    case Added(p) => Owned(c, p.name, p)
    case Changed(p, q) => p.name == q.name && Owned(c, p.name, p) && Owned(c, q.name, q)
    case Removed(p) => Owned(c, p.name, p)
  }

  /** A watch event a pod state may be followed by: a later state, or the end. */
  predicate FollowedBy(p: Pod, e: Event) {
    e.Put? ==> Follows(p, e.pod)
  }

  /** For each name the cache, the events under way and the server follow one another, and an end is the last. */
  ghost predicate Ordered(s: State) {
    && (forall i, j | 0 <= i < j < |s.watch| && EventName(s.watch[i]) == EventName(s.watch[j]) ::
          s.watch[i].Put? && FollowedBy(s.watch[i].pod, s.watch[j]))
    && (forall i | 0 <= i < |s.watch| && EventName(s.watch[i]) in s.cache ::
          FollowedBy(s.cache[EventName(s.watch[i])], s.watch[i]))
    && (forall i | 0 <= i < |s.watch| && EventName(s.watch[i]) in s.server ::
          s.watch[i].Put? && Follows(s.watch[i].pod, s.server[EventName(s.watch[i])]))
    && (forall n | n in s.cache && n in s.server :: Follows(s.cache[n], s.server[n]))
  }

  /** The pod called n is terminating or gone, on the server and in everything the cache has seen or will see. */
  ghost predicate Done(s: State, n: string) {
    && n in s.used
    && (n in s.cache ==> s.cache[n].deleting)
    && (n in s.server ==> s.server[n].deleting)
    && forall i | 0 <= i < |s.watch| && EventName(s.watch[i]) == n :: s.watch[i].Put? ==> s.watch[i].pod.deleting
  }

  /** The notes that settle a deletion and clear a version. */
  predicate Ends(note: Note) {
    match note
    case Added(p) => p.deleting
    case Changed(_, q) => q.deleting
    case Removed(_) => true
  }

  ghost predicate NotesSound(s: State) {
    forall k | 0 <= k < |s.notes| :: NoteSound(s, s.notes[k])
  }

  /** A note the handler has yet to see tells nothing the cache does not already show. */
  ghost predicate NoteSound(s: State, note: Note) {
    && (note.Added? ==> note.pod.name in s.cache || note.pod.name !in s.server)
    && (Ends(note) ==> Done(s, NoteName(note)))
  }

  ghost predicate Stream(c: Config, s: State) {
    AllOwned(c, s) && Ordered(s) && NotesSound(s)
  }

  ghost predicate SameStream(s: State, t: State) {
    && t.server == s.server && t.used == s.used && t.watch == s.watch && t.cache == s.cache && t.notes == s.notes
  }

  lemma FollowsTransitive(p: Pod, q: Pod, r: Pod)
    requires Follows(p, q) && Follows(q, r)
    ensures Follows(p, r)
  {
  }

  // ---------- Storing a pod ----------

  /** A pod is stored under a new name, or as a later state of the pod that has the name. */
  ghost predicate StoresSoundly(c: Config, s: State, p: Pod, t: State) {
    && Stores(c, s, p, t)
    && (p.name !in s.used || (p.name in s.server && Follows(s.server[p.name], p)))
  }

  lemma StoreKeepsOrder(c: Config, s: State, p: Pod, t: State)
    requires AllOwned(c, s) && Ordered(s) && StoresSoundly(c, s, p, t)
    ensures Ordered(t)
  {
    var last := |s.watch|;
    assert t.watch[last] == Put(p);
    forall i | 0 <= i < last && EventName(t.watch[i]) == p.name
      ensures t.watch[i].Put? && Follows(t.watch[i].pod, p)
    {
      assert t.watch[i] == s.watch[i];
      if p.name in s.server {
        FollowsTransitive(s.watch[i].pod, s.server[p.name], p);
      }
    }
    forall i, j | 0 <= i < j < |t.watch| && EventName(t.watch[i]) == EventName(t.watch[j])
      ensures t.watch[i].Put? && FollowedBy(t.watch[i].pod, t.watch[j])
    {
      if j < last {
        assert t.watch[i] == s.watch[i] && t.watch[j] == s.watch[j];
      }
    }
    if p.name in s.cache && p.name in s.server {
      FollowsTransitive(s.cache[p.name], s.server[p.name], p);
    }
    forall i | 0 <= i < |t.watch| && EventName(t.watch[i]) in t.cache
      ensures FollowedBy(t.cache[EventName(t.watch[i])], t.watch[i])
    {
      if i < last {
        assert t.watch[i] == s.watch[i];
      }
    }
    forall i | 0 <= i < |t.watch| && EventName(t.watch[i]) in t.server
      ensures t.watch[i].Put? && Follows(t.watch[i].pod, t.server[EventName(t.watch[i])])
    {
      if i < last {
        assert t.watch[i] == s.watch[i];
      }
    }
  }

  lemma StoreKeepsDone(c: Config, s: State, p: Pod, t: State, n: string)
    requires StoresSoundly(c, s, p, t) && Done(s, n)
    ensures Done(t, n)
  {
  }

  lemma StoreKeepsStream(c: Config, s: State, p: Pod, t: State)
    requires Stream(c, s) && StoresSoundly(c, s, p, t)
    ensures Stream(c, t)
  {
    StoreKeepsOrder(c, s, p, t);
    forall k | 0 <= k < |t.notes| ensures NoteSound(t, t.notes[k]) {
      assert NoteSound(s, s.notes[k]) && NoteName(s.notes[k]) in s.used;
      if Ends(s.notes[k]) {
        StoreKeepsDone(c, s, p, t, NoteName(s.notes[k]));
      }
    }
  }

  // ---------- Erasing a pod ----------

  lemma EraseKeepsOrder(c: Config, s: State, n: string, t: State)
    requires AllOwned(c, s) && Ordered(s) && Erases(s, n, t)
    ensures Ordered(t)
  {
    var last := |s.watch|;
    assert t.watch[last] == Gone(n);
    forall i, j | 0 <= i < j < |t.watch| && EventName(t.watch[i]) == EventName(t.watch[j])
      ensures t.watch[i].Put? && FollowedBy(t.watch[i].pod, t.watch[j])
    {
      assert t.watch[i] == s.watch[i];
      if j < last {
        assert t.watch[j] == s.watch[j];
      }
    }
    forall i | 0 <= i < |t.watch| && EventName(t.watch[i]) in t.cache
      ensures FollowedBy(t.cache[EventName(t.watch[i])], t.watch[i])
    {
      if i < last {
        assert t.watch[i] == s.watch[i];
      }
    }
    forall i | 0 <= i < |t.watch| && EventName(t.watch[i]) in t.server
      ensures t.watch[i].Put? && Follows(t.watch[i].pod, t.server[EventName(t.watch[i])])
    {
      assert i < last && t.watch[i] == s.watch[i];
    }
  }

  lemma EraseKeepsDone(s: State, n: string, t: State, m: string)
    requires Erases(s, n, t) && Done(s, m)
    ensures Done(t, m)
  {
  }

  lemma EraseKeepsStream(c: Config, s: State, n: string, t: State)
    requires Stream(c, s) && Erases(s, n, t)
    ensures Stream(c, t)
  {
    EraseKeepsOrder(c, s, n, t);
    forall k | 0 <= k < |t.notes| ensures NoteSound(t, t.notes[k]) {
      assert NoteSound(s, s.notes[k]);
      if Ends(s.notes[k]) {
        EraseKeepsDone(s, n, t, NoteName(s.notes[k]));
      }
    }
  }

  // ---------- Delivering an event ----------

  lemma DeliverShifts(s: State, t: State)
    requires Delivers(s, t)
    ensures |t.watch| == |s.watch| - 1 && forall i | 0 <= i < |t.watch| :: t.watch[i] == s.watch[i + 1]
    ensures forall n | n != EventName(s.watch[0]) ::
      (n in t.cache <==> n in s.cache) && (n in t.cache ==> t.cache[n] == s.cache[n])
    ensures t.server == s.server && t.used == s.used
  {
  }

  lemma DeliverKeepsOrder(c: Config, s: State, t: State)
    requires AllOwned(c, s) && Ordered(s) && Delivers(s, t)
    ensures Ordered(t)
  {
  }

  lemma DeliverKeepsDone(s: State, t: State, n: string)
    requires Delivers(s, t) && Done(s, n)
    ensures Done(t, n)
  {
  }

  lemma OldNotesStaySound(c: Config, s: State, t: State)
    requires Stream(c, s) && Delivers(s, t)
    ensures forall k | 0 <= k < |s.notes| :: NoteSound(t, s.notes[k])
  {
  }

  lemma NewNoteIsSound(c: Config, s: State, t: State)
    requires AllOwned(c, s) && Ordered(s) && Delivers(s, t)
    ensures |t.notes| <= |s.notes| + 1 && s.notes <= t.notes
    ensures |t.notes| > |s.notes| ==>
      && var note := t.notes[|s.notes|];
      && NoteSound(t, note) && OwnedNote(c, note) && NoteName(note) in t.used
  {
  }

  lemma DeliverKeepsStream(c: Config, s: State, t: State)
    requires Stream(c, s) && Delivers(s, t)
    ensures Stream(c, t)
  {
    DeliverShifts(s, t);
    DeliverKeepsOrder(c, s, t);
    OldNotesStaySound(c, s, t);
    NewNoteIsSound(c, s, t);
    forall k | 0 <= k < |t.notes|
      ensures NoteSound(t, t.notes[k]) && OwnedNote(c, t.notes[k]) && NoteName(t.notes[k]) in t.used
    {
      if k < |s.notes| {
        assert t.notes[k] == s.notes[k];
      }
    }
  }

  // ---------- All steps ----------

  /** The pod a step stores on the server, or erases from it. */
  function StoredBy(m: Move): Option<Pod> {
    match m
    case ClusterChange(p) => Some(p)
    case CreateOk(p) => Some(p)
    case DeleteMarks(p) => Some(p)
    case UpdateOk(p) => Some(p)
    case _ => None
  }

  function ErasedBy(s: State, m: Move): Option<string> {
    match m
    case ClusterRemove(n) => Some(n)
    case DeleteRemoves => if s.pass.Removing? && s.pass.names != [] then Some(s.pass.names[0]) else None
    case _ => None
  }

  /** Which kind a step is, as far as the watch is concerned. */
  lemma StepKind(c: Config, s: State, m: Move, t: State)
    requires Next(c, s, m, t)
    ensures
      if StoredBy(m).Some? then StoresSoundly(c, s, StoredBy(m).value, t)
      else if ErasedBy(s, m).Some? then Erases(s, ErasedBy(s, m).value, t)
      else if m.Deliver? then Delivers(s, t)
      else if m.Handle? then Handles(s, t)
      else SameStream(s, t)
  {
  }

  lemma HandleKeepsStream(c: Config, s: State, t: State)
    requires Stream(c, s) && Handles(s, t)
    ensures Stream(c, t)
  {
  }

  lemma StepKeepsStream(c: Config, s: State, m: Move, t: State)
    requires Stream(c, s) && Next(c, s, m, t)
    ensures Stream(c, t)
  {
    StepKind(c, s, m, t);
    if StoredBy(m).Some? {
      StoreKeepsStream(c, s, StoredBy(m).value, t);
    } else if ErasedBy(s, m).Some? {
      EraseKeepsStream(c, s, ErasedBy(s, m).value, t);
    } else if m.Deliver? {
      DeliverKeepsStream(c, s, t);
    } else if m.Handle? {
      HandleKeepsStream(c, s, t);
    } else {
      SameStreamKept(c, s, t);
    }
  }

  lemma SameStreamKept(c: Config, s: State, t: State)
    requires Stream(c, s) && SameStream(s, t)
    ensures Stream(c, t)
  {
  }

  /** Once a pod is terminating or gone it stays so. */
  lemma StepKeepsDone(c: Config, s: State, m: Move, t: State, n: string)
    requires Next(c, s, m, t) && Done(s, n)
    ensures Done(t, n)
  {
    StepKind(c, s, m, t);
    if StoredBy(m).Some? {
      StoreKeepsDone(c, s, StoredBy(m).value, t, n);
    } else if ErasedBy(s, m).Some? {
      EraseKeepsDone(s, ErasedBy(s, m).value, t, n);
    } else if m.Deliver? {
      DeliverKeepsDone(s, t, n);
    }
  }

  lemma {:induction false} RunStream(c: Config, run: seq<State>, moves: seq<Move>, k: nat)
    requires IsRun(c, run, moves) && k < |run|
    ensures Stream(c, run[k])
  {
    if k > 0 {
      RunStream(c, run, moves, k - 1);
      assert StepAt(c, run, moves, k - 1);
      StepKeepsStream(c, run[k - 1], moves[k - 1], run[k]);
    }
  }

  // ---------- What the handler settles ----------

  /** A note settles a creation only by showing the pod, and a deletion only by showing it terminating or gone. */
  lemma SeenScale(c: Config, note: Note, e: E.Event)
    requires OwnedNote(c, note) && e in ScaleSeen(note)
    ensures e.Observed? && e.key == c.key && e.name == NoteName(note)
    ensures e.action == E.Create ==> note.Added?
    ensures e.action == E.Delete ==> Ends(note)
  {
  }

  lemma SeenVersions(c: Config, note: Note, e: V.Event)
    requires OwnedNote(c, note) && e in VersionsSeen(note)
    ensures e == V.Cleared(NoteName(note)) && Ends(note)
  {
  }

  /** Observations of other expectations leave this one awaited. */
  lemma {:induction false} AwaitedKept(log: seq<E.Event>, seen: seq<E.Event>, key: string, a: E.Action, n: string)
    requires E.Awaited(log, key, a, n)
    requires forall e | e in seen :: !e.Forgotten? && e != E.Observed(key, a, n)
    ensures E.Awaited(log + seen, key, a, n)
  {
    if seen == [] {
      assert log + seen == log;
    } else {
      var front, last := seen[..|seen| - 1], seen[|seen| - 1];
      assert last in seen && log + seen == log + front + [last];
      AwaitedKept(log, front, key, a, n);
      E.AwaitedStep(log + front, last, key, a, n);
    }
  }

  /** Nothing becomes awaited without being announced. */
  lemma {:induction false} NothingNew(log: seq<E.Event>, seen: seq<E.Event>, key: string, a: E.Action, n: string)
    requires forall e | e in seen :: !e.Expected?
    requires E.Awaited(log + seen, key, a, n)
    ensures E.Awaited(log, key, a, n)
  {
    if seen == [] {
      assert log + seen == log;
    } else {
      var front, last := seen[..|seen| - 1], seen[|seen| - 1];
      assert log + seen == log + front + [last];
      E.AwaitedStep(log + front, last, key, a, n);
      NothingNew(log, front, key, a, n);
    }
  }

  lemma {:induction false} HighestKept(log: seq<V.Event>, seen: seq<V.Event>, uid: string)
    requires forall e | e in seen :: e.Cleared? && e.uid != uid
    ensures V.Highest(log + seen, uid) == V.Highest(log, uid)
  {
    if seen == [] {
      assert log + seen == log;
    } else {
      var front, last := seen[..|seen| - 1], seen[|seen| - 1];
      assert (log + seen)[..|log + seen| - 1] == log + front;
      HighestKept(log, front, uid);
    }
  }

  /** A handled note withdraws only what the cache already shows. */
  lemma HandleSettles(c: Config, s: State, t: State, a: E.Action, n: string)
    requires Stream(c, s) && Handles(s, t) && E.Awaited(s.scale, c.key, a, n)
    ensures || E.Awaited(t.scale, c.key, a, n)
            || (a == E.Create && (n in s.cache || n !in s.server))
            || (a == E.Delete && Done(s, n))
  {
    var note := s.notes[0];
    assert NoteSound(s, note);
    if E.Observed(c.key, a, n) in ScaleSeen(note) {
      SeenScale(c, note, E.Observed(c.key, a, n));
    } else {
      forall e | e in ScaleSeen(note) ensures !e.Forgotten? && e != E.Observed(c.key, a, n) {
        SeenScale(c, note, e);
      }
      AwaitedKept(s.scale, ScaleSeen(note), c.key, a, n);
    }
  }

  lemma HandleClears(c: Config, s: State, t: State, n: string)
    requires Stream(c, s) && Handles(s, t)
    ensures V.Highest(t.versions, n) == V.Highest(s.versions, n) || Done(s, n)
  {
    var note := s.notes[0];
    assert NoteSound(s, note);
    if V.Cleared(n) in VersionsSeen(note) {
      SeenVersions(c, note, V.Cleared(n));
    } else {
      forall e | e in VersionsSeen(note) ensures e.Cleared? && e.uid != n {
        SeenVersions(c, note, e);
      }
      HighestKept(s.versions, VersionsSeen(note), n);
    }
  }

  /** No step of the watch or the handler makes anything awaited. */
  lemma HandleKeepsNothing(c: Config, s: State, t: State)
    requires Stream(c, s) && Handles(s, t) && NothingAwaited(c, s.scale)
    ensures NothingAwaited(c, t.scale)
  {
    forall e | e in ScaleSeen(s.notes[0]) ensures !e.Expected? {
      SeenScale(c, s.notes[0], e);
    }
    forall a, n ensures !E.Awaited(t.scale, c.key, a, n) {
      if E.Awaited(t.scale, c.key, a, n) {
        NothingNew(s.scale, ScaleSeen(s.notes[0]), c.key, a, n);
      }
    }
  }
}
