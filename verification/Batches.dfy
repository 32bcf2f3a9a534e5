/** Slow-start batching: batches double while calls succeed, and a failed batch is the last. */
module Batches {
  import opened Kube
  import opened Api
  import Planner

  function Pow2(k: nat): nat {
    if k == 0 then 1 else 2 * Pow2(k - 1)
  }

  /** How many calls the first k batches make when none of them fails. */
  function Done(count: nat, initial: nat, k: nat): nat
    ensures Done(count, initial, k) <= count
  {
    if k == 0 then 0
    else
      var before := Done(count, initial, k - 1);
      before + Planner.Min(before + initial, count - before)
  }

  predicate AllOk(results: seq<bool>) {
    forall i | 0 <= i < |results| :: results[i]
  }

  function Successes(results: seq<bool>): nat {
    if results == [] then 0
    else Successes(results[..|results| - 1]) + if results[|results| - 1] then 1 else 0
  }

  /**
   * The run made `batches` batches and stopped for one of the two reasons there are: everything was called and
   * succeeded, or the last batch, and no earlier one, had a failure.
   */
  ghost predicate SlowStart(count: nat, initial: nat, results: seq<bool>, batches: nat, failed: bool) {
    && |results| == Done(count, initial, batches)
    && (failed ==> batches > 0 && AllOk(results[..Done(count, initial, batches - 1)]) && !AllOk(results))
    && (!failed ==> |results| == count && AllOk(results))
    && (batches > 0 ==> Done(count, initial, batches - 1) < count)
  }

  lemma {:induction false} SuccessesAppend(a: seq<bool>, b: seq<bool>)
    ensures Successes(a + b) == Successes(a) + Successes(b)
  {
    if b == [] {
      assert a + b == a;
    } else {
      assert (a + b)[..|a + b| - 1] == a + b[..|b| - 1];
      SuccessesAppend(a, b[..|b| - 1]);
    }
  }

  lemma {:induction false} SuccessesBound(results: seq<bool>)
    ensures Successes(results) <= |results|
    ensures Successes(results) == |results| <==> AllOk(results)
  {
    if results != [] {
      var front := results[..|results| - 1];
      SuccessesBound(front);
      assert results == front + [results[|results| - 1]];
    }
  }

  /** The writes that `results` leave when the calls create the pods of `queue` in turn. */
  function Creations(queue: seq<Pod>, results: seq<bool>): seq<Write>
    requires |results| <= |queue|
  {
    if results == [] then []
    else
      var last := |results| - 1;
      Creations(queue, results[..last]) + if results[last] then [Created(queue[last])] else []
  }

  function CreatedNames(queue: seq<Pod>, results: seq<bool>): set<string>
    requires |results| <= |queue|
  {
    if results == [] then {}
    else
      var last := |results| - 1;
      CreatedNames(queue, results[..last]) + if results[last] then {queue[last].name} else {}
  }

  /** The queue has been worked off front to back with the recorded outcomes, and nothing else was written. */
  ghost predicate Progress(fn: CreateFn, queue: seq<Pod>, writes: seq<Write>)
    reads fn, fn.server, fn.expectations
  {
    && fn.server.Valid() && fn.Announced()
    && |fn.outcomes| <= |queue|
    && fn.queue == queue[|fn.outcomes|..]
    && fn.server.writes == writes + Creations(queue, fn.outcomes)
    && fn.successNames == CreatedNames(queue, fn.outcomes)
    && fn.created == Successes(fn.outcomes)
  }

  /** Where the loop stands before a batch: every call so far succeeded. */
  ghost predicate Clean(count: nat, initial: nat, results: seq<bool>, batches: nat) {
    && |results| == Done(count, initial, batches)
    && AllOk(results)
    && (batches > 0 ==> Done(count, initial, batches - 1) < count)
  }

  /** The loop's own variables in terms of the outcomes so far. */
  ghost predicate Standing(count: int, initial: int, results: seq<bool>, batches: nat,
                           remaining: int, batchSize: int) {
    if count <= 0 || initial <= 0 then results == [] && batches == 0 && batchSize <= 0
    else
      && Clean(count, initial, results, batches)
      && remaining == count - |results|
      && batchSize == Planner.Min(|results| + initial, remaining)
  }

  lemma BatchRun(count: int, initial: int, before: seq<bool>, after: seq<bool>, batches: nat,
                 remaining: int, batchSize: nat)
    requires Standing(count, initial, before, batches, remaining, batchSize) && batchSize > 0
    requires before <= after && |after| == |before| + batchSize
    ensures 0 < batchSize <= remaining
    ensures AllOk(after) <==> Successes(after) - Successes(before) == batchSize
    ensures AllOk(after) ==>
      Standing(count, initial, after, batches + 1, remaining - batchSize,
               Planner.Min(2 * batchSize, remaining - batchSize))
    ensures !AllOk(after) ==> SlowStart(count, initial, after, batches + 1, true)
  {
    assert after[..|before|] == before;
    SuccessesBound(before);
    SuccessesBound(after);
  }

  method DoItSlowly(count: int, initialBatchSize: int, fn: CreateFn)
    returns (successes: nat, failed: bool, ghost batches: nat)
    requires fn.server.Valid() && fn.Announced() && count <= |fn.queue|
    requires fn.outcomes == [] && fn.successNames == {} && fn.created == 0
    modifies fn, fn.server
    ensures initialBatchSize <= 0 ==> fn.outcomes == [] && !failed
    ensures initialBatchSize > 0 ==>
      SlowStart(Planner.Max(count, 0), initialBatchSize, fn.outcomes, batches, failed)
    ensures successes == Successes(fn.outcomes)
    ensures Progress(fn, old(fn.queue), old(fn.server.writes))
  {
    var remaining := count;
    successes, failed, batches := 0, false, 0;
    ghost var queue := fn.queue;
    var batchSize := Planner.Min(remaining, initialBatchSize);
    while batchSize > 0
      invariant Standing(count, initialBatchSize, fn.outcomes, batches, remaining, batchSize)
      invariant successes == Successes(fn.outcomes)
      invariant Progress(fn, queue, old(fn.server.writes))
      decreases remaining
    {
      ghost var before := fn.outcomes;
      var curSuccesses := RunBatch(batchSize, fn, queue, old(fn.server.writes));
      successes := successes + curSuccesses;
      BatchRun(count, initialBatchSize, before, fn.outcomes, batches, remaining, batchSize);
      batches := batches + 1;
      if curSuccesses < batchSize {
        failed := true;
        return;
      }
      remaining := remaining - batchSize;
      batchSize := Planner.Min(2 * batchSize, remaining);
    }
  }

  lemma {:induction false} OutcomeStep(queue: seq<Pod>, before: seq<bool>, ok: bool)
    requires |before| < |queue|
    ensures
      && var p := queue[|before|];
      && Creations(queue, before + [ok]) == Creations(queue, before) + (if ok then [Created(p)] else [])
      && CreatedNames(queue, before + [ok]) == CreatedNames(queue, before) + (if ok then {p.name} else {})
      && Successes(before + [ok]) == Successes(before) + (if ok then 1 else 0)
  {
  }

  /** One batch: the calls run concurrently, so only how many of them succeeded matters to the caller. */
  method RunBatch(batchSize: nat, fn: CreateFn, ghost queue: seq<Pod>, ghost writes: seq<Write>)
    returns (successes: nat)
    requires batchSize <= |fn.queue| && Progress(fn, queue, writes)
    modifies fn, fn.server
    ensures |fn.outcomes| == |old(fn.outcomes)| + batchSize && old(fn.outcomes) <= fn.outcomes
    ensures Successes(fn.outcomes) == Successes(old(fn.outcomes)) + successes
    ensures successes <= batchSize
    ensures Progress(fn, queue, writes)
  {
    successes := 0;
    for i := 0 to batchSize
      invariant |fn.outcomes| == |old(fn.outcomes)| + i && old(fn.outcomes) <= fn.outcomes
      invariant Successes(fn.outcomes) == Successes(old(fn.outcomes)) + successes
      invariant successes <= i
      invariant Progress(fn, queue, writes)
    {
      ghost var before := fn.outcomes;
      var ok := fn.Call();
      if ok {
        successes := successes + 1;
      }
      OutcomeStep(queue, before, ok);
    }
  }

  // ---------- What slow start promises ----------

  /** The calls of k + 1 clean batches: the doubling hides the closed form initial * (2^(k+1) - 1). */
  lemma {:induction false} DoneClosedForm(count: nat, initial: nat, k: nat)
    ensures Done(count, initial, k) == Planner.Min(Pow2(k) * initial - initial, count)
  {
    if k > 0 {
      DoneClosedForm(count, initial, k - 1);
      Pow2Positive(k - 1);
      Doubling(Pow2(k - 1), initial);
    }
  }

  lemma Doubling(p: nat, initial: nat)
    ensures 2 * p * initial == 2 * (p * initial)
    ensures p > 0 ==> p * initial >= initial
  {
  }

  lemma {:induction false} Pow2Positive(k: nat)
    ensures Pow2(k) > 0
  {
    if k > 0 {
      Pow2Positive(k - 1);
    }
  }

  /** The number of batches is logarithmic: 2^(batches-1) * initial stays below count + initial. */
  lemma BatchesLogarithmic(count: nat, initial: nat, results: seq<bool>, batches: nat, failed: bool)
    requires initial > 0 && batches > 0 && SlowStart(count, initial, results, batches, failed)
    ensures Pow2(batches - 1) * initial < count + initial
  {
    DoneClosedForm(count, initial, batches - 1);
  }

  /** Slow start limits the damage: failed calls never exceed the successes by more than the initial batch. */
  lemma FailuresBounded(count: nat, initial: nat, results: seq<bool>, batches: nat, failed: bool)
    requires SlowStart(count, initial, results, batches, failed)
    ensures |results| <= count
    ensures |results| - Successes(results) <= Successes(results) + initial
    ensures failed <==> Successes(results) < |results|
    ensures !failed ==> Successes(results) == count
  {
    SuccessesBound(results);
    if failed {
      var cut := Done(count, initial, batches - 1);
      assert results == results[..cut] + results[cut..];
      SuccessesAppend(results[..cut], results[cut..]);
      SuccessesBound(results[..cut]);
      SuccessesBound(results[cut..]);
    }
  }
}
