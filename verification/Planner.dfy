/** The rollout planner: how many pods a pass may create, delete and update. */
module Planner {
  import opened Kube

  /** An integer, a percentage of the replicas, or text that is neither. */
  datatype IntOrPercent = Int(n: int) | Percent(p: int) | Malformed

  datatype Spec = Spec(replicas: int, maxSurge: Option<IntOrPercent>, maxUnavailable: Option<IntOrPercent>)

  function FloorDiv(a: int, b: int): int
    requires b > 0
  {
    a / b
  }

  function CeilDiv(a: int, b: int): int
    requires b > 0
  {
    -FloorDiv(-a, b)
  }

  function Max(a: int, b: int): int { if a < b then b else a }

  function Min(a: int, b: int): int { if a < b then a else b }

  /** The value of an int-or-percent field. Text that does not parse resolves to zero. */
  function Resolve(v: IntOrPercent, total: int, roundUp: bool): int {
    match v
    case Int(n) => n
    case Percent(p) => if roundUp then CeilDiv(p * total, 100) else FloorDiv(p * total, 100)
    case Malformed => 0
  }

  function MaxSurge(spec: Spec): int {
    if spec.maxSurge.Some? then Resolve(spec.maxSurge.value, spec.replicas, true) else 0
  }

  /** A missing maxUnavailable is zero; it rounds up only when there is no surge. */
  function MaxUnavailable(spec: Spec): int {
    Resolve(if spec.maxUnavailable.Some? then spec.maxUnavailable.value else Int(0),
            spec.replicas, MaxSurge(spec) == 0)
  }

  datatype Diffs = Diffs(
    scaleUpNum: int,
    scaleDownNum: int,
    deleteReadyLimit: int,
    useSurge: int,
    updateNum: int,
    updateMaxUnavailable: int)

  /** What the planner sees of a pod list. */
  datatype Tally = Tally(total: nat, keptOld: nat, marked: nat, keptDown: nat)

  function TallyOf(pods: seq<Pod>, revision: string): Tally {
    Tally(|pods|,
          Count(KEPT_OUTDATED, pods, revision),
          Count(MARKED, pods, revision),
          Count(Class(Any, No, No, Any), pods, revision))
  }

  function UseSurge(maxSurge: int, t: Tally): int {
    if maxSurge > 0 then Min(maxSurge, Max(t.marked, t.keptOld)) else 0
  }

  /** The plan as a function of the resolved fields and the tally. */
  function PlanFor(replicas: int, maxSurge: int, maxUnavailable: int, t: Tally): Diffs {
    var useSurge := UseSurge(maxSurge, t);
    var expected := replicas + useSurge;
    var up := Max(expected - t.total, 0);
    var down := if up > 0 then 0 else Max(t.total - expected - t.marked, 0);
    var slack := maxUnavailable + t.total - replicas;
    Diffs(up, down,
          if t.marked > 0 || down > 0 then Max(slack - t.keptDown, 0) else 0,
          useSurge,
          t.keptOld,
          if t.keptOld > 0 then slack else 0)
  }

  function PlanOf(spec: Spec, pods: seq<Pod>, revision: string): Diffs {
    PlanFor(spec.replicas, MaxSurge(spec), MaxUnavailable(spec), TallyOf(pods, revision))
  }

  lemma {:induction false} TallyParts(pods: seq<Pod>, revision: string)
    ensures Count(OUTDATED, pods, revision)
         == Count(KEPT_OUTDATED, pods, revision) + Count(Class(No, Yes, Any, Any), pods, revision)
    ensures Count(MARKED, pods, revision)
         == Count(Class(Yes, Yes, Any, Any), pods, revision) + Count(Class(No, Yes, Any, Any), pods, revision)
    ensures Count(Class(Any, No, No, Any), pods, revision)
         == Count(Class(Yes, No, No, Any), pods, revision) + Count(Class(No, No, No, Any), pods, revision)
  {
    CountSplit(OUTDATED, pods, revision);
    CountSplit(MARKED, pods, revision);
    CountSplit(Class(Any, No, No, Any), pods, revision);
  }

  lemma CountStep(c: Class, pods: seq<Pod>, i: nat, revision: string)
    requires i < |pods|
    ensures Count(c, pods[..i + 1], revision) == Count(c, pods[..i], revision) + One(c, pods[i], revision)
  {
    assert pods[..i + 1][..i] == pods[..i];
  }

  /** The counting loop of the planner. */
  method CountPods(pods: seq<Pod>, updateRevision: string)
    returns (newCount: int, oldCount: int, toDeleteNew: int, toDeleteOld: int, downNew: int, downOld: int)
    ensures newCount == Count(UPDATED, pods, updateRevision)
    ensures oldCount == Count(OUTDATED, pods, updateRevision)
    ensures toDeleteNew == Count(Class(Yes, Yes, Any, Any), pods, updateRevision)
    ensures toDeleteOld == Count(Class(No, Yes, Any, Any), pods, updateRevision)
    ensures downNew == Count(Class(Yes, No, No, Any), pods, updateRevision)
    ensures downOld == Count(Class(No, No, No, Any), pods, updateRevision)
  {
    newCount, oldCount, toDeleteNew, toDeleteOld, downNew, downOld := 0, 0, 0, 0, 0, 0;
    for i := 0 to |pods|
      invariant newCount == Count(UPDATED, pods[..i], updateRevision)
      invariant oldCount == Count(OUTDATED, pods[..i], updateRevision)
      invariant toDeleteNew == Count(Class(Yes, Yes, Any, Any), pods[..i], updateRevision)
      invariant toDeleteOld == Count(Class(No, Yes, Any, Any), pods[..i], updateRevision)
      invariant downNew == Count(Class(Yes, No, No, Any), pods[..i], updateRevision)
      invariant downOld == Count(Class(No, No, No, Any), pods[..i], updateRevision)
    {
      CountStep(UPDATED, pods, i, updateRevision);
      CountStep(OUTDATED, pods, i, updateRevision);
      CountStep(Class(Yes, Yes, Any, Any), pods, i, updateRevision);
      CountStep(Class(No, Yes, Any, Any), pods, i, updateRevision);
      CountStep(Class(Yes, No, No, Any), pods, i, updateRevision);
      CountStep(Class(No, No, No, Any), pods, i, updateRevision);
      var p := pods[i];
      if EqualToRevisionHash(p, updateRevision) {
        newCount := newCount + 1;
        if IsSpecifiedDelete(p) {
          toDeleteNew := toDeleteNew + 1;
        } else if !IsRunning(p) {
          downNew := downNew + 1;
        }
      } else {
        oldCount := oldCount + 1;
        if IsSpecifiedDelete(p) {
          toDeleteOld := toDeleteOld + 1;
        } else if !IsRunning(p) {
          downOld := downOld + 1;
        }
      }
    }
    assert pods[..|pods|] == pods;
  }

  /** The assignments after the counting loop. */
  method PlanFromCounts(replicas: int, maxSurge: int, maxUnavailable: int, total: nat,
                        oldCount: nat, toDeleteNew: nat, toDeleteOld: nat, downNew: nat, downOld: nat)
    returns (res: Diffs)
    requires toDeleteOld <= oldCount
    ensures res == PlanFor(replicas, maxSurge, maxUnavailable,
                           Tally(total, oldCount - toDeleteOld, toDeleteNew + toDeleteOld, downNew + downOld))
    ensures IsPlan(res, replicas, maxSurge, maxUnavailable,
                   Tally(total, oldCount - toDeleteOld, toDeleteNew + toDeleteOld, downNew + downOld))
  {
    res := Diffs(0, 0, 0, 0, 0, 0);
    if maxSurge > 0 {
      var toDelete := toDeleteNew + toDeleteOld;
      if toDelete > 0 {
        res := res.(useSurge := toDelete);
      }
      if oldCount > toDeleteOld {
        res := res.(useSurge := Max(res.useSurge, oldCount - toDeleteOld));
      }
      res := res.(useSurge := Min(res.useSurge, maxSurge));
    }

    var expectedTotal := replicas + res.useSurge;
    var num := expectedTotal - total;
    if num > 0 {
      res := res.(scaleUpNum := num);
    } else {
      var downNum := total - expectedTotal - toDeleteNew - toDeleteOld;
      if downNum > 0 {
        res := res.(scaleDownNum := downNum);
      }
    }

    if toDeleteNew > 0 || toDeleteOld > 0 || res.scaleDownNum > 0 {
      var totalUnavailable := downOld + downNew;
      res := res.(deleteReadyLimit := Max(maxUnavailable + (total - replicas) - totalUnavailable, 0));
    }

    if oldCount > toDeleteOld {
      res := res.(updateNum := oldCount - toDeleteOld, updateMaxUnavailable := maxUnavailable + total - replicas);
    }
  }

  method CalculateDiffsWithExpectation(spec: Spec, pods: seq<Pod>, updateRevision: string) returns (res: Diffs)
    ensures res == PlanOf(spec, pods, updateRevision)
    ensures IsPlan(res, spec.replicas, MaxSurge(spec), MaxUnavailable(spec), TallyOf(pods, updateRevision))
  {
    var maxSurge := 0;
    if spec.maxSurge.Some? {
      maxSurge := Resolve(spec.maxSurge.value, spec.replicas, true);
    }
    var maxUnavailable :=
      Resolve(if spec.maxUnavailable.Some? then spec.maxUnavailable.value else Int(0),
              spec.replicas, maxSurge == 0);
    var _, oldCount, toDeleteNew, toDeleteOld, downNew, downOld := CountPods(pods, updateRevision);
    TallyParts(pods, updateRevision);
    assert maxSurge == MaxSurge(spec) && maxUnavailable == MaxUnavailable(spec);
    assert TallyOf(pods, updateRevision)
        == Tally(|pods|, oldCount - toDeleteOld, toDeleteNew + toDeleteOld, downNew + downOld);
    res := PlanFromCounts(spec.replicas, maxSurge, maxUnavailable, |pods|,
                          oldCount, toDeleteNew, toDeleteOld, downNew, downOld);
  }

  // ---------- What a plan promises ----------

  /**
   * A plan never asks for creations and deletions at once, never aims above replicas + maxSurge, deletes only
   * what is left above its target after the marked pods go, and uses surge only for pods about to be replaced.
   */
  lemma PlanMeaning(replicas: int, maxSurge: int, maxUnavailable: int, t: Tally)
    ensures
      && var d := PlanFor(replicas, maxSurge, maxUnavailable, t);
      && d.scaleUpNum >= 0 && d.scaleDownNum >= 0 && d.deleteReadyLimit >= 0 && d.useSurge >= 0
      && (d.scaleUpNum == 0 || d.scaleDownNum == 0)
      && (d.scaleUpNum > 0 ==> t.total + d.scaleUpNum == replicas + d.useSurge)
      && (d.scaleDownNum > 0 ==> t.total - t.marked - d.scaleDownNum == replicas + d.useSurge)
      && d.useSurge <= Max(maxSurge, 0)
      && (d.useSurge > 0 <==> maxSurge > 0 && t.marked + t.keptOld > 0)
      && (t.marked == 0 && t.keptOld == 0 && t.total == replicas ==> d == Diffs(0, 0, 0, 0, 0, 0))
  {
  }

  /**
   * What a plan is to be, number by number. The surge in use covers the pods to be replaced, marked or old,
   * as far as it is allowed. Creations, or deletions beside the marked pods, lead to replicas and that surge. The
   * limits leave replicas - maxUnavailable pods that are not known to be down.
   */
  predicate IsPlan(d: Diffs, replicas: int, maxSurge: int, maxUnavailable: int, t: Tally) {
    var u, target, least := d.useSurge, replicas + d.useSurge, replicas - maxUnavailable;
    && (if maxSurge <= 0 then u == 0
        else
          && u <= maxSurge && (u <= t.marked || u <= t.keptOld)
          && (u < maxSurge ==> t.marked <= u && t.keptOld <= u))
    && (if t.total < target then t.total + d.scaleUpNum == target else d.scaleUpNum == 0)
    && (if t.total - t.marked > target then t.total - t.marked - d.scaleDownNum == target else d.scaleDownNum == 0)
    && (if (t.marked == 0 && d.scaleDownNum == 0) || t.total - t.keptDown <= least then d.deleteReadyLimit == 0
        else t.total - t.keptDown - d.deleteReadyLimit == least)
    && d.updateNum == t.keptOld
    && (if t.keptOld == 0 then d.updateMaxUnavailable == 0 else t.total - d.updateMaxUnavailable == least)
  }

  /** The planner's numbers meet these demands, and no other numbers do. */
  lemma PlanIsUnique(d: Diffs, replicas: int, maxSurge: int, maxUnavailable: int, t: Tally)
    ensures IsPlan(d, replicas, maxSurge, maxUnavailable, t) <==> d == PlanFor(replicas, maxSurge, maxUnavailable, t)
  {
  }

  /** The tally in terms of the pods: their revision, the label that marks them, and their phase. */
  lemma TallyMeaning(pods: seq<Pod>, revision: string)
    ensures
      && var t := TallyOf(pods, revision);
      && t.total == |pods|
      && t.keptOld == |set i: nat | i < |pods| && !EqualToRevisionHash(pods[i], revision)
                                    && SpecifiedDeleteKey !in pods[i].labels|
      && t.marked == |set i: nat | i < |pods| && SpecifiedDeleteKey in pods[i].labels|
      && t.keptDown == |set i: nat | i < |pods| && SpecifiedDeleteKey !in pods[i].labels && !pods[i].phase.Running?|
  {
    CountIsCardinality(KEPT_OUTDATED, pods, revision);
    CountIsCardinality(MARKED, pods, revision);
    CountIsCardinality(Class(Any, No, No, Any), pods, revision);
    assert Places(KEPT_OUTDATED, pods, revision)
        == set i: nat | i < |pods| && !EqualToRevisionHash(pods[i], revision) && SpecifiedDeleteKey !in pods[i].labels;
    assert Places(MARKED, pods, revision) == set i: nat | i < |pods| && SpecifiedDeleteKey in pods[i].labels;
    assert Places(Class(Any, No, No, Any), pods, revision)
        == set i: nat | i < |pods| && SpecifiedDeleteKey !in pods[i].labels && !pods[i].phase.Running?;
  }

  /** The value a field stands for: a percentage is the nearest whole number of pods above, or below. */
  predicate ResolvesTo(v: IntOrPercent, total: int, roundUp: bool, r: int) {
    match v
    case Int(n) => r == n
    case Percent(p) => if roundUp then 100 * (r - 1) < p * total <= 100 * r else 100 * r <= p * total < 100 * (r + 1)
    case Malformed => r == 0
  }

  lemma ResolveIsExact(v: IntOrPercent, total: int, roundUp: bool, r: int)
    ensures Resolve(v, total, roundUp) == r <==> ResolvesTo(v, total, roundUp, r)
  {
    if v.Percent? {
      var x := v.p * total;
      assert Resolve(v, total, roundUp) == if roundUp then CeilDiv(x, 100) else FloorDiv(x, 100);
    }
  }

  /** A missing field asks for nothing; maxUnavailable is rounded up only when there is no surge. */
  lemma FieldsMeaning(spec: Spec)
    ensures spec.maxSurge.None? ==> MaxSurge(spec) == 0
    ensures spec.maxSurge.Some? ==> ResolvesTo(spec.maxSurge.value, spec.replicas, true, MaxSurge(spec))
    ensures spec.maxUnavailable.None? ==> MaxUnavailable(spec) == 0
    ensures spec.maxUnavailable.Some? ==>
      ResolvesTo(spec.maxUnavailable.value, spec.replicas, MaxSurge(spec) == 0, MaxUnavailable(spec))
  {
    if spec.maxSurge.Some? {
      ResolveIsExact(spec.maxSurge.value, spec.replicas, true, MaxSurge(spec));
    }
    if spec.maxUnavailable.Some? {
      ResolveIsExact(spec.maxUnavailable.value, spec.replicas, MaxSurge(spec) == 0, MaxUnavailable(spec));
    }
  }

  /** A field that asks for more than nothing, and one that asks for less than nothing. */
  predicate Positive(v: Option<IntOrPercent>) {
    v.Some? && (match v.value case Int(n) => n > 0 case Percent(p) => p > 0 case Malformed => false)
  }

  predicate Negative(v: Option<IntOrPercent>) {
    v.Some? && (match v.value case Int(n) => n < 0 case Percent(p) => p < 0 case Malformed => false)
  }

  lemma PercentRounding(p: int, total: int)
    requires total > 0
    ensures p > 0 ==> CeilDiv(p * total, 100) >= 1 && FloorDiv(p * total, 100) >= 0
    ensures p <= 0 ==> CeilDiv(p * total, 100) <= 0 && FloorDiv(p * total, 100) <= 0
    ensures p < 0 ==> FloorDiv(p * total, 100) < 0
    ensures p == 0 ==> CeilDiv(p * total, 100) == 0 && FloorDiv(p * total, 100) == 0
  {
    if p > 0 {
      assert p * total > 0;
    } else if p < 0 {
      assert p * total < 0;
    }
  }

  /** A field that asks for more than nothing survives rounding down. */
  predicate SurvivesRoundingDown(v: IntOrPercent, replicas: int) {
    v.Percent? ==> v.p * replicas >= 100
  }

  /** The sign of a resolved field is the field's own, except that rounding can turn a percentage into zero. */
  lemma ResolvedSign(v: IntOrPercent, replicas: int, roundUp: bool)
    requires replicas > 0
    ensures roundUp ==> (Resolve(v, replicas, roundUp) >= 1 <==> Positive(Some(v)))
    ensures !roundUp ==>
      (Resolve(v, replicas, roundUp) >= 1 <==> Positive(Some(v)) && SurvivesRoundingDown(v, replicas))
    ensures !roundUp ==> (Resolve(v, replicas, roundUp) < 0 <==> Negative(Some(v)))
    ensures Positive(Some(v)) ==> Resolve(v, replicas, roundUp) >= 0
  {
    if v.Percent? {
      PercentRounding(v.p, replicas);
    }
  }

  /** The room for progress: what maxUnavailable leaves, plus one pod of surge if any is allowed. */
  function RoomOf(spec: Spec): int {
    MaxUnavailable(spec) + Min(Max(MaxSurge(spec), 0), 1)
  }

  /**
   * When rounding leaves maxUnavailable at least one: always if it is an integer or the surge is zero, and else
   * exactly if the percentage is worth a whole pod. A negative surge rounds down as a positive one does.
   */
  lemma UnavailableSurvives(spec: Spec)
    requires spec.replicas > 0 && Positive(spec.maxUnavailable)
    ensures MaxUnavailable(spec) >= 1
       <==> MaxSurge(spec) == 0 || SurvivesRoundingDown(spec.maxUnavailable.value, spec.replicas)
  {
    ResolvedSign(spec.maxUnavailable.value, spec.replicas, MaxSurge(spec) == 0);
  }

  lemma SurgeSign(spec: Spec)
    requires spec.replicas > 0
    ensures MaxSurge(spec) >= 1 <==> Positive(spec.maxSurge)
  {
    if spec.maxSurge.Some? {
      ResolvedSign(spec.maxSurge.value, spec.replicas, true);
    }
  }

  /**
   * For every pair of fields, negative ones included, there is room for progress exactly when a positive
   * maxUnavailable survives rounding or comes with a positive surge, or the surge is positive and maxUnavailable
   * is not negative.
   */
  lemma RoundingBlocksExactly(spec: Spec)
    requires spec.replicas > 0
    ensures RoomOf(spec) >= 1
       <==> if Positive(spec.maxUnavailable) then
              || Positive(spec.maxSurge) || MaxSurge(spec) == 0
              || SurvivesRoundingDown(spec.maxUnavailable.value, spec.replicas)
            else Positive(spec.maxSurge) && !Negative(spec.maxUnavailable)
  {
    SurgeSign(spec);
    var v := if spec.maxUnavailable.Some? then spec.maxUnavailable.value else Int(0);
    ResolvedSign(v, spec.replicas, MaxSurge(spec) == 0);
  }

  lemma NotNegative(v: IntOrPercent, replicas: int, roundUp: bool)
    requires replicas > 0 && !Negative(Some(v))
    ensures Resolve(v, replicas, roundUp) >= 0
  {
    if v.Percent? {
      PercentRounding(v.p, replicas);
    }
  }

  lemma FieldsNotNegative(spec: Spec)
    requires spec.replicas > 0 && !Negative(spec.maxSurge) && !Negative(spec.maxUnavailable)
    ensures MaxSurge(spec) >= 0 && MaxUnavailable(spec) >= 0
  {
    if spec.maxSurge.Some? {
      NotNegative(spec.maxSurge.value, spec.replicas, true);
    }
    NotNegative(if spec.maxUnavailable.Some? then spec.maxUnavailable.value else Int(0),
                spec.replicas, MaxSurge(spec) == 0);
  }

  /**
   * Where no field is negative the resolved pair sums to at least one exactly when one field asks for more than
   * nothing: rounding never turns both into zero.
   */
  lemma RoundingNeverBlocks(spec: Spec)
    requires spec.replicas > 0
    ensures !Negative(spec.maxSurge) && !Negative(spec.maxUnavailable) ==>
      && MaxSurge(spec) >= 0 && MaxUnavailable(spec) >= 0
      && (MaxSurge(spec) + MaxUnavailable(spec) >= 1 <==> RoomOf(spec) >= 1)
      && (RoomOf(spec) >= 1 <==> Positive(spec.maxSurge) || Positive(spec.maxUnavailable))
  {
    if !Negative(spec.maxSurge) && !Negative(spec.maxUnavailable) {
      FieldsNotNegative(spec);
    }
    RoundingBlocksExactly(spec);
  }

  /** A negative surge with a small percentage: the code accepts it, and no room is left. */
  lemma NegativeSurgeBlocks()
    ensures
      && var spec := Spec(10, Some(Int(-1)), Some(Percent(5)));
      && Positive(spec.maxUnavailable) && MaxUnavailable(spec) == 0 && RoomOf(spec) == 0
  {
  }

  /**
   * While unmarked old pods exist and the surge pods are there, the update limit is positive; this is exactly the
   * room the two fields leave.
   */
  lemma UpdateLimitPositive(replicas: int, maxSurge: int, maxUnavailable: int, t: Tally)
    requires t.keptOld > 0 && maxSurge >= 0 && maxUnavailable >= 0
    requires t.total >= replicas + UseSurge(maxSurge, t)
    ensures
      && var limit := PlanFor(replicas, maxSurge, maxUnavailable, t).updateMaxUnavailable;
      && limit >= maxUnavailable + UseSurge(maxSurge, t)
      && (limit >= 1 <==> maxSurge + maxUnavailable >= 1 || t.total > replicas)
  {
  }
}
