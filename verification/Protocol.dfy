/**
 * The controller between the API server and its own stale cache: every atomic step of a pass, of the watch, of the
 * event handler and of the rest of the cluster, in any interleaving. A pod's name stands for its uid, because names
 * are never reused.
 */
module Protocol {
  import opened Kube
  import opened Planner
  import opened Scaling
  import opened Updating
  import opened EventHandler
  import E = Expectations
  import V = Versions

  /** The workload: its key and its fixed spec. */
  datatype Config = Config(key: string, spec: Spec)

  datatype Event = Put(pod: Pod) | Gone(name: string)

  /** What the informer tells the handler after it changed the cache. */
  datatype Note = Added(pod: Pod) | Changed(before: Pod, after: Pod) | Removed(pod: Pod)

  /** The complete list a pass plans from, and the revision it plans for. */
  datatype Basis = Basis(list: seq<Pod>, revision: string)

  datatype Pass =
    | Resting
    | Checked
    | Gating(list: seq<Pod>, i: nat)
    | Announcing(basis: Basis, queue: seq<Pod>, i: nat)
    | Calling(basis: Basis, todo: set<string>, failed: set<string>, created: set<string>)
    | Withdrawing(basis: Basis, failed: set<string>, created: set<string>)
    | Removing(basis: Basis, names: seq<string>, announced: bool, modified: bool)
    | Changing(names: seq<string>, version: Option<string>)

  /**
   * `clock` is the largest resource version assigned and `used` every name there ever was. The two logs are those
   * of the expectation classes. `deleted` holds the names this controller deleted, `written` the version of its
   * last write to each name.
   */
  datatype State = State(
    server: map<string, Pod>,
    clock: nat,
    used: set<string>,
    watch: seq<Event>,
    cache: map<string, Pod>,
    notes: seq<Note>,
    scale: seq<E.Event>,
    versions: seq<V.Event>,
    pass: Pass,
    deleted: set<string>,
    written: map<string, nat>)

  predicate IsActive(p: Pod) {
    !p.deleting && !p.phase.Succeeded? && !p.phase.Failed?
  }

  function VersionOf(p: Pod): nat {
    if V.ParseUint(p.resourceVersion).Some? then V.ParseUint(p.resourceVersion).value else 0
  }

  /** A pod of this workload under its name, with a numeric version. */
  predicate Owned(c: Config, n: string, p: Pod) {
    p.name == n && p.uid == n && OwnerKey(p) == Some(c.key) && V.ParseUint(p.resourceVersion).Some?
  }

  /** A later state of a pod: deletion and completion are final, and versions grow. */
  predicate Follows(p: Pod, q: Pod) {
    && (p.deleting ==> q.deleting)
    && (IsActive(q) ==> IsActive(p))
    && VersionOf(p) <= VersionOf(q)
  }

  function EventName(e: Event): string {
    match e case Put(p) => p.name case Gone(n) => n
  }

  /** What the handler appends to the two logs for a note. */
  function ScaleSeen(note: Note): seq<E.Event> {
    match note
    case Added(p) => CreateObservation(p)
    case Changed(p, q) => UpdateObservation(p, q)
    case Removed(p) => DeleteObservation(p)
  }

  function VersionsSeen(note: Note): seq<V.Event> {
    match note
    case Added(p) => if p.deleting then [V.Cleared(p.uid)] else []
    case Changed(p, q) =>
      if p.resourceVersion == q.resourceVersion || !q.deleting then []
      else [V.Cleared(q.uid)] + if p.labels != q.labels then [V.Cleared(p.uid)] else []
    case Removed(p) => [V.Cleared(p.uid)]
  }

  ghost predicate NothingAwaited(c: Config, log: seq<E.Event>) {
    forall a, n :: !E.Awaited(log, c.key, a, n)
  }

  /** The list of a pass: the active pods of the cache, each once. */
  ghost predicate Lists(list: seq<Pod>, cache: map<string, Pod>) {
    && DistinctNames(list)
    && (forall p | p in list :: p.name in cache && cache[p.name] == p && IsActive(p))
    && (forall n | n in cache && IsActive(cache[n]) :: cache[n] in list)
  }

  function NamesOf(pods: seq<Pod>): (names: seq<string>)
    ensures |names| == |pods| && forall i | 0 <= i < |pods| :: names[i] == pods[i].name
  {
    seq(|pods|, i requires 0 <= i < |pods| => pods[i].name)
  }

  /** The steps of the system. A pod parameter is the new state of a pod on the server. */
  datatype Move =
    | ClusterChange(p: Pod)
    | ClusterRemove(n: string)
    | Deliver
    | Handle
    | Check
    | List(list: seq<Pod>)
    | Gate
    | Plan(iu: Inplaceu, revision: string, step: Scaling.Step, run: UpdateRun)
    | Announce
    | CreateOk(p: Pod)
    | CreateFail(n: string)
    | StopCalling
    | Withdraw(n: string)
    | EndCreating(run: UpdateRun)
    | AnnounceDelete
    | DeleteMarks(p: Pod)
    | DeleteRemoves
    | DeleteFail(run: UpdateRun)
    | EndDeleting(run: UpdateRun)
    | UpdateOk(p: Pod)
    | ExpectVersion
    | SkipUpdate
    | EndUpdating
    | GiveUp

  // ---------- The steps of the cluster, the watch and the handler ----------

  /** The server stores a newer state of a pod and sends it to the watch. */
  ghost predicate Stores(c: Config, s: State, p: Pod, t: State) {
    && Owned(c, p.name, p) && VersionOf(p) > s.clock
    && t == s.(server := s.server[p.name := p], clock := VersionOf(p), used := s.used + {p.name},
               watch := s.watch + [Put(p)],
               pass := t.pass, deleted := t.deleted, written := t.written)
  }

  ghost predicate Erases(s: State, n: string, t: State) {
    && n in s.server
    && t == s.(server := s.server - {n}, watch := s.watch + [Gone(n)], pass := t.pass, deleted := t.deleted)
  }

  /** Anyone may change or remove an existing pod, but only the controller creates one. */
  ghost predicate ChangesPod(c: Config, s: State, p: Pod, t: State) {
    p.name in s.server && Follows(s.server[p.name], p) && Stores(c, s, p, t)
  }

  /** The informer takes the next event into the cache and queues what it tells the handler. */
  ghost predicate Delivers(s: State, t: State) {
    && s.watch != []
    && match s.watch[0]
       case Put(p) =>
         t == s.(watch := s.watch[1..], cache := s.cache[p.name := p],
                 notes := s.notes + [if p.name in s.cache then Changed(s.cache[p.name], p) else Added(p)])
       case Gone(n) =>
         t == s.(watch := s.watch[1..], cache := s.cache - {n},
                 notes := s.notes + if n in s.cache then [Removed(s.cache[n])] else [])
  }

  ghost predicate Handles(s: State, t: State) {
    && s.notes != []
    && t == s.(notes := s.notes[1..], scale := s.scale + ScaleSeen(s.notes[0]),
               versions := s.versions + VersionsSeen(s.notes[0]))
  }

  // ---------- The steps of a pass ----------

  /** One listed pod passes if it is as new as the last write to it; a stale one ends the pass. */
  ghost predicate GatesOne(s: State, t: State) {
    && s.pass.Gating? && s.pass.i < |s.pass.list|
    && var p := s.pass.list[s.pass.i];
    && if V.Reaches(p.resourceVersion, V.Highest(s.versions, p.uid)) then
         && t == s.(versions := t.versions, pass := Gating(s.pass.list, s.pass.i + 1))
         && t.versions in {s.versions, s.versions + [V.Cleared(p.uid)]}
       else t == s.(pass := Resting)
  }

  /** What Update goes through: the names of the chosen pods. */
  ghost predicate ChoosesUpdates(c: Config, basis: Basis, run: UpdateRun, pass: Pass) {
    && UpdateDecided(c.spec, basis.list, basis.revision, run) && Indexes(run.chosen, basis.list)
    && pass == Changing(NamesOf(At(basis.list, run.chosen)), None)
  }

  ghost predicate Plans(c: Config, s: State, iu: Inplaceu, revision: string, step: Scaling.Step, run: UpdateRun,
                        t: State) {
    && s.pass.Gating? && s.pass.i == |s.pass.list|
    && iu.name == c.key && Decided(c.spec, s.pass.list, revision, step)
    && t == s.(pass := t.pass)
    && var basis := Basis(s.pass.list, revision);
    && match step
       case Creating(ids, _, _) => t.pass == Announcing(basis, NewPods(iu, revision, ids), 0)
       case Deleting(list, _) => t.pass == Removing(basis, NamesOf(list), false, false)
       case Idle => ChoosesUpdates(c, basis, run, t.pass)
  }

  /** Every creation is announced before the first call. */
  ghost predicate Announces(c: Config, s: State, t: State) {
    && s.pass.Announcing?
    && if s.pass.i < |s.pass.queue| then
         t == s.(scale := s.scale + [E.Expected(c.key, E.Create, s.pass.queue[s.pass.i].name)],
                 pass := Announcing(s.pass.basis, s.pass.queue, s.pass.i + 1))
       else t == s.(pass := Calling(s.pass.basis, PodNames(s.pass.queue), {}, {}))
  }

  ghost predicate CreatesPod(c: Config, s: State, p: Pod, t: State) {
    && s.pass.Calling? && p.name in s.pass.todo && p.name !in s.used && !p.deleting
    && Stores(c, s, p, t) && t.deleted == s.deleted && t.written == s.written
    && t.pass == Calling(s.pass.basis, s.pass.todo - {p.name}, s.pass.failed, s.pass.created + {p.name})
  }

  ghost predicate FailsToCreate(s: State, n: string, t: State) {
    && s.pass.Calling? && n in s.pass.todo
    && t == s.(pass := Calling(s.pass.basis, s.pass.todo - {n}, s.pass.failed + {n}, s.pass.created))
  }

  /** After the last batch, or a batch with a failure, what was not called counts as failed. */
  ghost predicate StopsCalling(s: State, t: State) {
    && s.pass.Calling? && (s.pass.todo == {} || s.pass.failed != {})
    && t == s.(pass := Withdrawing(s.pass.basis, s.pass.failed + s.pass.todo, s.pass.created))
  }

  ghost predicate Withdraws(c: Config, s: State, n: string, t: State) {
    && s.pass.Withdrawing? && n in s.pass.failed
    && t == s.(scale := s.scale + [E.Observed(c.key, E.Create, n)],
               pass := Withdrawing(s.pass.basis, s.pass.failed - {n}, s.pass.created))
  }

  /** A step that changed something ends the pass; otherwise the update half runs. */
  ghost predicate EndsCreating(c: Config, s: State, run: UpdateRun, t: State) {
    && s.pass.Withdrawing? && s.pass.failed == {}
    && t == s.(pass := t.pass)
    && if s.pass.created != {} then t.pass == Resting else ChoosesUpdates(c, s.pass.basis, run, t.pass)
  }

  ghost predicate AnnouncesDelete(c: Config, s: State, t: State) {
    && s.pass.Removing? && s.pass.names != [] && !s.pass.announced
    && t == s.(scale := s.scale + [E.Expected(c.key, E.Delete, s.pass.names[0])],
               pass := Removing(s.pass.basis, s.pass.names, true, s.pass.modified))
  }

  /** A successful delete call marks the pod as terminating or removes it at once. */
  ghost predicate DeletesPod(c: Config, s: State, p: Pod, t: State) {
    && s.pass.Removing? && s.pass.names != [] && s.pass.announced
    && p.name == s.pass.names[0] && p.deleting && ChangesPod(c, s, p, t) && t.written == s.written
    && t.deleted == s.deleted + {p.name}
    && t.pass == Removing(s.pass.basis, s.pass.names[1..], false, true)
  }

  ghost predicate DeletesAtOnce(s: State, t: State) {
    && s.pass.Removing? && s.pass.names != [] && s.pass.announced
    && Erases(s, s.pass.names[0], t)
    && t.deleted == s.deleted + {s.pass.names[0]}
    && t.pass == Removing(s.pass.basis, s.pass.names[1..], false, true)
  }

  ghost predicate EndsDeletion(c: Config, s: State, run: UpdateRun, pass: Pass)
    requires s.pass.Removing?
  {
    if s.pass.modified then pass == Resting else ChoosesUpdates(c, s.pass.basis, run, pass)
  }

  ghost predicate FailsToDelete(c: Config, s: State, run: UpdateRun, t: State) {
    && s.pass.Removing? && s.pass.names != [] && s.pass.announced
    && t == s.(scale := s.scale + [E.Observed(c.key, E.Delete, s.pass.names[0])], pass := t.pass)
    && EndsDeletion(c, s, run, t.pass)
  }

  ghost predicate EndsDeleting(c: Config, s: State, run: UpdateRun, t: State) {
    && s.pass.Removing? && s.pass.names == []
    && t == s.(pass := t.pass) && EndsDeletion(c, s, run, t.pass)
  }

  /** An update call replaces the stored pod; the new version is announced in a later step. */
  ghost predicate UpdatesPod(c: Config, s: State, p: Pod, t: State) {
    && s.pass.Changing? && s.pass.names != [] && s.pass.version.None?
    && p.name == s.pass.names[0] && ChangesPod(c, s, p, t) && t.deleted == s.deleted
    && t.written == s.written[p.name := VersionOf(p)]
    && t.pass == Changing(s.pass.names, Some(p.resourceVersion))
  }

  ghost predicate ExpectsVersion(s: State, t: State) {
    && s.pass.Changing? && s.pass.names != [] && s.pass.version.Some?
    && t == s.(versions := s.versions + [V.Expected(s.pass.names[0], s.pass.version.value)],
               pass := Changing(s.pass.names[1..], None))
  }

  /** A chosen pod that is already marked for re-creation needs no call. */
  ghost predicate SkipsUpdate(s: State, t: State) {
    && s.pass.Changing? && s.pass.names != [] && s.pass.version.None?
    && t == s.(pass := Changing(s.pass.names[1..], None))
  }

  /** A pass may also end early, before it has planned anything. */
  ghost predicate GivesUp(s: State, t: State) {
    (s.pass.Checked? || s.pass.Gating?) && t == s.(pass := Resting)
  }

  /** The update half ends when it is done, or at its first failed call. */
  ghost predicate EndsUpdating(s: State, t: State) {
    && s.pass.Changing? && s.pass.version.None? && t == s.(pass := Resting)
  }

  ghost predicate Next(c: Config, s: State, m: Move, t: State) {
    match m
    case ClusterChange(p) =>
      ChangesPod(c, s, p, t) && t.pass == s.pass && t.deleted == s.deleted && t.written == s.written
    case ClusterRemove(n) => Erases(s, n, t) && t.pass == s.pass && t.deleted == s.deleted
    case Deliver => Delivers(s, t)
    case Handle => Handles(s, t)
    case Check => s.pass.Resting? && NothingAwaited(c, s.scale) && t == s.(pass := Checked)
    case List(list) => s.pass.Checked? && Lists(list, s.cache) && t == s.(pass := Gating(list, 0))
    case Gate => GatesOne(s, t)
    case Plan(iu, revision, step, run) => Plans(c, s, iu, revision, step, run, t)
    case Announce => Announces(c, s, t)
    case CreateOk(p) => CreatesPod(c, s, p, t)
    case CreateFail(n) => FailsToCreate(s, n, t)
    case StopCalling => StopsCalling(s, t)
    case Withdraw(n) => Withdraws(c, s, n, t)
    case EndCreating(run) => EndsCreating(c, s, run, t)
    case AnnounceDelete => AnnouncesDelete(c, s, t)
    case DeleteMarks(p) => DeletesPod(c, s, p, t)
    case DeleteRemoves => DeletesAtOnce(s, t)
    case DeleteFail(run) => FailsToDelete(c, s, run, t)
    case EndDeleting(run) => EndsDeleting(c, s, run, t)
    case UpdateOk(p) => UpdatesPod(c, s, p, t)
    case ExpectVersion => ExpectsVersion(s, t)
    case SkipUpdate => SkipsUpdate(s, t)
    case EndUpdating => EndsUpdating(s, t)
    case GiveUp => GivesUp(s, t)
  }

  /** A fresh controller over a synchronised cache. */
  ghost predicate Init(c: Config, s: State) {
    && (forall n | n in s.server :: Owned(c, n, s.server[n]) && VersionOf(s.server[n]) <= s.clock && n in s.used)
    && s.cache == s.server && s.watch == [] && s.notes == []
    && s.scale == [] && s.versions == [] && s.pass == Resting && s.deleted == {} && s.written == map[]
  }

  ghost predicate StepAt(c: Config, run: seq<State>, moves: seq<Move>, i: nat)
    requires |run| == |moves| + 1 && i < |moves|
  {
    Next(c, run[i], moves[i], run[i + 1])
  }

  ghost predicate IsRun(c: Config, run: seq<State>, moves: seq<Move>) {
    && |run| == |moves| + 1 && Init(c, run[0])
    && forall i | 0 <= i < |moves| :: StepAt(c, run, moves, i)
  }
}
