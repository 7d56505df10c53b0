/** The loop all three loaders share: `for (var i = 0; i < (L-1)/3; i++)` over the
    split lines, handling lines 3i, 3i+1 and 3i+2 in pass i. */
module Triples {
  import opened Wrappers

  /** Why a load stops: a read of a line index past the end of the split text (the
      source then calls a method on `undefined`), or a propagated position that is
      `undefined` and is dereferenced (record number given). */
  datatype LoadError = MissingLine(index: nat) | UndefinedPosition(record: nat)

  /** What one pass of the loop does: append a datapoint, append nothing, or throw. */
  datatype Step<T> = Push(value: T) | Skip | Fail(error: LoadError)

  /** The datapoints appended so far, and the error thrown, if any. */
  datatype Progress<T> = Progress(points: seq<T>, failure: Option<LoadError>)

  /** Number of passes for `lineCount` split lines: ceil((lineCount - 1) / 3). */
  function IterationCount(lineCount: nat): nat
  {
    (lineCount + 1) / 3
  }

  /** The source's guard `i < (L-1)/3`, evaluated on real numbers, is the integer
      comparison 3i < L-1, and holds exactly for the first IterationCount(L) values of i. */
  lemma LoopGuard(lineCount: nat, i: nat)
    ensures (i as real) < ((lineCount - 1) as real) / 3.0 <==> 3 * i < lineCount - 1
    ensures 3 * i < lineCount - 1 <==> i < IterationCount(lineCount)
  {
    var n := IterationCount(lineCount);
    assert 3 * n <= lineCount + 1 < 3 * n + 3;
    assert (i as real) < ((lineCount - 1) as real) / 3.0 <==> 3 * i + 1 < lineCount;
  }

  /** IterationCount(L) is the ceiling of (L - 1) / 3 for every non-empty split. */
  lemma IterationCountIsCeiling(lineCount: nat)
    requires lineCount >= 1
    ensures var n := IterationCount(lineCount) as real;
      n - 1.0 < ((lineCount - 1) as real) / 3.0 <= n
  {
    var n := IterationCount(lineCount);
    assert 3 * n <= lineCount + 1 < 3 * n + 3;
  }

  /** The error a load over `lineCount` lines throws when only a missing TLE line can
      throw: line lineCount is read exactly when a last triple lacks its second TLE line. */
  function TripleFailure(lineCount: nat): Option<LoadError>
  {
    if lineCount % 3 == 2 then Some(MissingLine(lineCount)) else None
  }

  /** Every pass reads line 3i+1; line 3i+2 is missing exactly in the last pass
      when the line count is 2 more than a multiple of 3. */
  lemma TripleLines(lineCount: nat, i: nat)
    requires i < IterationCount(lineCount)
    ensures 3 * i + 1 < lineCount
    ensures 3 * i + 2 >= lineCount <==> i == IterationCount(lineCount) - 1 && lineCount % 3 == 2
  {
  }

  /** The state after `k` passes; a throw ends the loop, so later passes change nothing. */
  function Run<T>(step: nat -> Step<T>, k: nat): (p: Progress<T>)
    ensures |p.points| <= k
  {
    if k == 0 then Progress([], None)
    else
      var p := Run(step, k - 1);
      if p.failure.Some? then p
      else match step(k - 1)
        case Push(v) => Progress(p.points + [v], None)
        case Skip => p
        case Fail(e) => Progress(p.points, Some(e))
  }

  /** The passes among the first `k` that append, in increasing order. */
  function PushIndices<T>(step: nat -> Step<T>, k: nat): (idx: seq<nat>)
    ensures forall j :: 0 <= j < |idx| ==> idx[j] < k && step(idx[j]).Push?
    ensures forall j, j' :: 0 <= j < j' < |idx| ==> idx[j] < idx[j']
    ensures forall i :: 0 <= i < k && step(i).Push? ==> i in idx
  {
    if k == 0 then [] else PushIndices(step, k - 1) + (if step(k - 1).Push? then [k - 1] else [])
  }

  /** One more pass after a run without error appends, skips or throws as that pass says. */
  lemma RunOneMore<T>(step: nat -> Step<T>, i: nat)
    requires Run(step, i).failure.None?
    ensures step(i).Push? ==> Run(step, i + 1) == Progress(Run(step, i).points + [step(i).value], None)
    ensures step(i).Skip? ==> Run(step, i + 1) == Run(step, i)
    ensures step(i).Fail? ==> Run(step, i + 1) == Progress(Run(step, i).points, Some(step(i).error))
  {
  }

  /** Once a pass has thrown, the state is final. */
  lemma {:induction false} RunStaysFailed<T>(step: nat -> Step<T>, j: nat, k: nat)
    requires j <= k && Run(step, j).failure.Some?
    ensures Run(step, k) == Run(step, j)
    decreases k
  {
    if k > j {
      RunStaysFailed(step, j, k - 1);
    }
  }

  /** No error after k passes exactly when none of them throws. */
  lemma {:induction false} RunSucceeds<T>(step: nat -> Step<T>, k: nat)
    ensures Run(step, k).failure.None? <==> forall i :: 0 <= i < k ==> !step(i).Fail?
    decreases k
  {
    if k > 0 {
      RunSucceeds(step, k - 1);
    }
  }

  /** A pass that throws after passes without error ends the loop with its error. */
  lemma RunThrowsAt<T>(step: nat -> Step<T>, k: nat, n: nat)
    requires k < n && Run(step, k).failure.None? && step(k).Fail?
    ensures Run(step, n) == Progress(Run(step, k).points, Some(step(k).error))
  {
    RunStaysFailed(step, k + 1, n);
  }

  /** The error reported is that of the first pass that throws, and the datapoints are
      those of the passes before it. */
  lemma {:induction false} RunFailsAtFirst<T>(step: nat -> Step<T>, k: nat, i: nat)
    requires i < k && step(i).Fail?
    requires forall j :: 0 <= j < i ==> !step(j).Fail?
    ensures Run(step, k) == Progress(Run(step, i).points, Some(step(i).error))
  {
    RunSucceeds(step, i);
    assert Run(step, i + 1) == Progress(Run(step, i).points, Some(step(i).error));
    RunStaysFailed(step, i + 1, k);
  }

  /** Without a throw, the datapoints are those of the appending passes, one each, in pass order. */
  lemma {:induction false} RunKeepsPushes<T>(step: nat -> Step<T>, k: nat)
    requires forall i :: 0 <= i < k ==> !step(i).Fail?
    ensures var p, idx := Run(step, k), PushIndices(step, k);
      |p.points| == |idx| && forall j :: 0 <= j < |idx| ==> p.points[j] == step(idx[j]).value
    decreases k
  {
    if k > 0 {
      RunKeepsPushes(step, k - 1);
      RunSucceeds(step, k - 1);
    }
  }

  /** When every pass appends, pass i gives datapoint i. */
  lemma {:induction false} RunPushesAll<T>(step: nat -> Step<T>, k: nat)
    requires forall i :: 0 <= i < k ==> step(i).Push?
    ensures Run(step, k).failure.None? && |Run(step, k).points| == k
    ensures forall i :: 0 <= i < k ==> Run(step, k).points[i] == step(i).value
    decreases k
  {
    if k > 0 {
      RunPushesAll(step, k - 1);
    }
  }

  /** A loop whose passes over complete triples never throw, and whose pass over an
      incomplete last triple throws on its missing line, ends with the datapoints of the
      complete triples and the error TripleFailure. */
  lemma RunOverTriples<T>(step: nat -> Step<T>, lineCount: nat)
    requires forall i: nat :: 3 * i + 2 < lineCount ==> !step(i).Fail?
    requires lineCount % 3 == 2 ==> step(lineCount / 3) == Fail(MissingLine(lineCount))
    ensures Run(step, lineCount / 3).failure == None
    ensures Run(step, IterationCount(lineCount)) == Progress(Run(step, lineCount / 3).points, TripleFailure(lineCount))
  {
    var m := lineCount / 3;
    forall i | 0 <= i < m ensures !step(i).Fail? {
      assert 3 * i + 2 < lineCount;
    }
    RunSucceeds(step, m);
    if lineCount % 3 == 2 {
      assert IterationCount(lineCount) == m + 1;
      RunOneMore(step, m);
    } else {
      assert IterationCount(lineCount) == m;
    }
  }
}
