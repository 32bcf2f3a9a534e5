/** Resource version expectations: the oldest version of each object a pass may plan from. */
module Versions {
  import opened Kube

  function Value(digits: string): nat
    requires forall i | 0 <= i < |digits| :: '0' <= digits[i] <= '9'
  {
    if digits == "" then 0
    else 10 * Value(digits[..|digits| - 1]) + (digits[|digits| - 1] as int - '0' as int)
  }

  predicate IsDecimal(s: string) {
    s != "" && forall i | 0 <= i < |s| :: '0' <= s[i] <= '9'
  }

  /** An unsigned 64-bit decimal number, as strconv reads it in base ten. */
  function ParseUint(s: string): Option<nat> {
    if IsDecimal(s) && Value(s) < 0x1_0000_0000_0000_0000 then Some(Value(s)) else None
  }

  function Digit(n: nat): char
    requires n < 10
  {
    '0' + n as char
  }

  /** A number in decimal digits. */
  function Decimal(n: nat): string {
    if n < 10 then [Digit(n)] else Decimal(n / 10) + [Digit(n % 10)]
  }

  lemma {:induction false} DecimalValue(n: nat)
    ensures IsDecimal(Decimal(n)) && Value(Decimal(n)) == n
  {
    if n < 10 {
      assert [Digit(n)][..0] == "";
    } else {
      DecimalValue(n / 10);
      assert Decimal(n)[..|Decimal(n)| - 1] == Decimal(n / 10);
    }
  }

  /** Reading gives back every number written in decimal that fits 64 bits, and refuses the larger ones. */
  lemma ParseDecimal(n: nat)
    ensures ParseUint(Decimal(n)) == if n < 0x1_0000_0000_0000_0000 then Some(n) else None
  {
    DecimalValue(n);
  }

  predicate IsResourceVersionNewer(older: string, newer: string) {
    if older == "" then true
    else if ParseUint(older).None? then true
    else if ParseUint(newer).None? then false
    else ParseUint(newer).value >= ParseUint(older).value
  }

  /** Whether a version meets a lower bound; no bound is met by anything. */
  predicate Reaches(version: string, bound: Option<nat>) {
    bound.None? || (ParseUint(version).Some? && ParseUint(version).value >= bound.value)
  }

  lemma NewerIsReaching(older: string, newer: string)
    ensures IsResourceVersionNewer(older, newer) <==> Reaches(newer, ParseUint(older))
  {
  }

  /** A version written as a number reaches a bound exactly when it is at least as large; other text reaches none. */
  lemma ReachingIsAtLeast(version: string, n: nat, bound: nat)
    requires n < 0x1_0000_0000_0000_0000
    ensures Reaches(Decimal(n), Some(bound)) <==> n >= bound
    ensures !IsDecimal(version) ==> !Reaches(version, Some(bound))
    ensures Reaches(version, None)
  {
    ParseDecimal(n);
  }

  datatype Event = Expected(uid: string, version: string) | Cleared(uid: string)

  /** The reference meaning: the largest numeric version expected since the last clearing. */
  function Highest(log: seq<Event>, uid: string): Option<nat> {
    if log == [] then None
    else
      var before := Highest(log[..|log| - 1], uid);
      match log[|log| - 1]
      case Expected(u, version) =>
        if u == uid && ParseUint(version).Some? && Reaches(version, before) then ParseUint(version) else before
      case Cleared(u) =>
        if u == uid then None else before
  }

  /** Highest is a maximum: it bounds every numeric version expected since the last clearing, and is one of them. */
  lemma {:induction false} HighestIsMaximum(log: seq<Event>, uid: string, i: nat)
    requires i < |log| && log[i].Expected? && log[i].uid == uid
    requires forall j | i < j < |log| :: log[j] != Cleared(uid)
    requires ParseUint(log[i].version).Some?
    ensures Highest(log, uid).Some? && Highest(log, uid).value >= ParseUint(log[i].version).value
  {
    if i < |log| - 1 {
      HighestIsMaximum(log[..|log| - 1], uid, i);
    }
  }

  lemma {:induction false} HighestIsAttained(log: seq<Event>, uid: string) returns (i: nat)
    requires Highest(log, uid).Some?
    ensures i < |log| && log[i].Expected? && log[i].uid == uid && ParseUint(log[i].version) == Highest(log, uid)
    ensures forall j | i < j < |log| :: log[j] != Cleared(uid)
  {
    var last := |log| - 1;
    if log[last].Expected? && log[last].uid == uid && ParseUint(log[last].version) == Highest(log, uid) {
      i := last;
    } else {
      i := HighestIsAttained(log[..last], uid);
    }
  }

  datatype ObjectVersion = ObjectVersion(version: string, firstUnsatisfied: Time)

  /** The bound a stored entry stands for. */
  function Bound(m: map<string, ObjectVersion>, uid: string): Option<nat> {
    if uid in m then ParseUint(m[uid].version) else None
  }

  class ResourceVersionExpectation {
    var objectVersions: map<string, ObjectVersion>
    ghost var log: seq<Event>

    ghost predicate Valid()
      reads this
    {
      forall uid :: Bound(objectVersions, uid) == Highest(log, uid)
    }

    constructor ()
      ensures Valid() && log == []
    {
      objectVersions := map[];
      log := [];
    }

    method Expect(uid: string, version: string)
      requires Valid()
      modifies this
      ensures Valid() && log == old(log) + [Expected(uid, version)]
    {
      if uid !in objectVersions {
        objectVersions := objectVersions[uid := ObjectVersion("", 0)];
      }
      if IsResourceVersionNewer(objectVersions[uid].version, version) {
        objectVersions := objectVersions[uid := objectVersions[uid].(version := version)];
      }
      log := log + [Expected(uid, version)];
      assert log[..|log| - 1] == old(log);
      assert ParseUint("") == None;
    }

    method Observe(uid: string, version: string)
      requires Valid()
      modifies this
      ensures Valid()
      ensures log == old(log) + if uid in old(objectVersions) && Reaches(version, Highest(old(log), uid))
                                then [Cleared(uid)] else []
    {
      if uid !in objectVersions {
        return;
      }
      assert Bound(objectVersions, uid) == Highest(log, uid);
      if IsResourceVersionNewer(objectVersions[uid].version, version) {
        Clear(uid);
      }
    }

    /** A satisfied object is forgotten; an unsatisfied one stays, with the time it has been waiting. */
    method IsSatisfied(uid: string, version: string, now: Time) returns (ok: bool, elapsed: int)
      requires Valid()
      modifies this
      ensures Valid()
      ensures ok <==> Reaches(version, Highest(old(log), uid))
      ensures ok ==> elapsed == 0 && Highest(log, uid) == None && uid !in objectVersions
      ensures forall u | u != uid :: Highest(log, u) == Highest(old(log), u)
      ensures !ok ==>
        && log == old(log) && uid in objectVersions && uid in old(objectVersions)
        && elapsed == now - objectVersions[uid].firstUnsatisfied
        && var first := old(objectVersions)[uid].firstUnsatisfied;
           objectVersions[uid].firstUnsatisfied == if first == 0 then now else first
    {
      assert Bound(objectVersions, uid) == Highest(log, uid);
      if uid !in objectVersions {
        return true, 0;
      }
      if IsResourceVersionNewer(objectVersions[uid].version, version) {
        Clear(uid);
      }
      if uid in objectVersions {
        if objectVersions[uid].firstUnsatisfied == 0 {
          objectVersions := objectVersions[uid := objectVersions[uid].(firstUnsatisfied := now)];
          assert forall u :: Bound(objectVersions, u) == Bound(old(objectVersions), u);
        }
        return false, now - objectVersions[uid].firstUnsatisfied;
      }
      assert forall u :: u != uid ==> Bound(objectVersions, u) == Bound(old(objectVersions), u);
      assert forall u :: Bound(objectVersions, u) == Highest(log, u);
      return true, 0;
    }

    method Delete(uid: string)
      requires Valid()
      modifies this
      ensures Valid() && log == old(log) + [Cleared(uid)]
      ensures uid !in objectVersions
    {
      Clear(uid);
    }

    method Clear(uid: string)
      requires Valid()
      modifies this
      ensures Valid() && log == old(log) + [Cleared(uid)]
      ensures objectVersions == map u | u in old(objectVersions) && u != uid :: old(objectVersions)[u]
    {
      objectVersions := map u | u in objectVersions && u != uid :: objectVersions[u];
      log := log + [Cleared(uid)];
      assert log[..|log| - 1] == old(log);
      assert forall u :: Bound(old(objectVersions), u) == Highest(old(log), u);
    }
  }
}
