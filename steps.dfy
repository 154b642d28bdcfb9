/**
 * Step bookkeeping of the training loop: the accumulation factor
 * (train.py:81), the test that decides when the optimizer steps
 * (train.py:177) and the progress-log cadence (train.py:169).
 *
 * Python's `%` and Dafny's `%` differ for negative operands, but both give
 * 0 exactly when the divisor divides the dividend, and only that test is used.
 */
module Steps {
  import opened Device

  /** The batch size the accumulation simulates: `64` at train.py:81. */
  const TargetBatchSize := 64

  /**
   * `grad_acc_steps = 64 // batch_size`: the largest number of batches whose
   * examples fit in 64. It is at least 1 exactly when the batch size is at
   * most 64, and 0 above that (then the modulus at train.py:177 divides by zero).
   */
  function GradAccSteps(batchSize: int): (a: int)
    requires batchSize > 0
    ensures a >= 0 && a * batchSize <= TargetBatchSize < (a + 1) * batchSize
    ensures a >= 1 <==> batchSize <= TargetBatchSize
  {
    TargetBatchSize / batchSize
  }

  /**
   * Which counter the accumulation test at train.py:177 reads. `AsWritten` is the
   * code as written: `i` there is the variable that the device-move loop at
   * line 152 rebinds. `PerBatch` is the evident intent: the batch index from
   * `enumerate` at line 148.
   */
  datatype TriggerRule = AsWritten | PerBatch

  /** Whether `optimizer.step()` runs after a batch: `(i + 1) % grad_acc_steps == 0`. */
  function Fires(rule: TriggerRule, a: int, batchIndex: nat, loopIndex: int): bool
    requires a != 0
  {
    match rule
    case AsWritten => (loopIndex + 1) % a == 0
    case PerBatch => (batchIndex + 1) % a == 0
  }

  /** The number of optimizer steps in an epoch of `b` batches, each with the five batch slots. */
  function EpochOptSteps(rule: TriggerRule, a: int, b: nat): nat
    requires a != 0 || b == 0
  {
    if b == 0 then 0
    else EpochOptSteps(rule, a, b - 1) + (if Fires(rule, a, b - 1, BatchFields - 1) then 1 else 0)
  }

  /**
   * As written, the test does not depend on the batch: every batch of the epoch
   * steps the optimizer if `5 % grad_acc_steps == 0`, and none does otherwise.
   */
  lemma {:induction false} AsWrittenEpochSteps(a: int, b: nat)
    requires a != 0
    ensures EpochOptSteps(AsWritten, a, b) == if BatchFields % a == 0 then b else 0
  {
    if b > 0 {
      AsWrittenEpochSteps(a, b - 1);
    }
  }

  /** One more batch adds one to the quotient exactly when it completes a group of `a`. */
  lemma DivStep(n: nat, a: int)
    requires a > 0
    ensures (n + 1) / a == n / a + (if (n + 1) % a == 0 then 1 else 0)
  {
    var q, r := n / a, n % a;
    if r + 1 == a {
      DivUnique(n + 1, a, q + 1, 0);
    } else {
      DivUnique(n + 1, a, q, r + 1);
    }
  }

  /** Quotient and remainder are the only ones with the remainder in `0 .. a - 1`. */
  lemma DivUnique(m: int, a: int, q: int, r: int)
    requires a > 0 && 0 <= r < a && m == a * q + r
    ensures m / a == q && m % a == r
  {
    var q', r' := m / a, m % a;
    assert a * (q - q') == r' - r;
    if q > q' {
      MulAtLeast(a, q - q');
    } else if q < q' {
      MulAtLeast(a, q' - q);
    }
  }

  lemma MulAtLeast(a: int, d: int)
    requires a > 0 && d >= 1
    ensures a * d >= a
  {
  }

  /**
   * With the intended rule the optimizer steps after every `a`-th batch:
   * `floor(b / a)` steps per epoch, the leftover batches never flushed.
   */
  lemma {:induction false} PerBatchEpochSteps(a: int, b: nat)
    requires a > 0
    ensures EpochOptSteps(PerBatch, a, b) == b / a
  {
    if b > 0 {
      PerBatchEpochSteps(a, b - 1);
      assert Fires(PerBatch, a, b - 1, BatchFields - 1) == (b % a == 0);
      DivStep(b - 1, a);
    }
  }

  /**
   * The discrepancy, exhibited: with `--batch_size 32` the accumulation factor
   * is 2 and `5 % 2 != 0`, so as written no batch ever steps the optimizer,
   * while the intended rule steps once every two batches.
   */
  lemma AsWrittenNeverStepsAtBatchSize32(b: nat)
    ensures GradAccSteps(32) == 2
    ensures EpochOptSteps(AsWritten, GradAccSteps(32), b) == 0
    ensures EpochOptSteps(PerBatch, GradAccSteps(32), b) == b / 2
  {
    AsWrittenEpochSteps(2, b);
    PerBatchEpochSteps(2, b);
  }

  /**
   * As written, the optimizer steps at all only for batch sizes 33..64
   * (factor 1) and 11..12 (factor 5); for every other batch size up to 64 it never steps.
   */
  lemma AsWrittenStepsOnlyFor(batchSize: int)
    requires 0 < batchSize <= TargetBatchSize
    ensures BatchFields % GradAccSteps(batchSize) == 0 <==>
      33 <= batchSize || batchSize == 11 || batchSize == 12
  {
    var a := GradAccSteps(batchSize);
    assert 1 <= a <= 64;
    assert BatchFields % a == 0 <==> a == 1 || a == 5;
    if 33 <= batchSize {
      assert a == 1;
    } else if batchSize == 11 || batchSize == 12 {
      assert a == 5;
    } else if batchSize <= 10 {
      assert a >= 6;
    } else {
      assert 2 <= a <= 4;
    }
  }

  /** The global steps at which a progress line is printed, among steps `0 .. n - 1` (train.py:169). */
  function LogPoints(n: nat, k: int): seq<nat>
    requires k != 0 || n == 0
  {
    if n == 0 then []
    else LogPoints(n - 1, k) + (if (n - 1) % k == 0 then [n - 1] else [])
  }

  /** A line is printed exactly at the steps divisible by `log_step`, once each, in increasing order. */
  lemma {:induction false} LogPointsExactly(n: nat, k: int)
    requires k != 0
    ensures forall s: nat :: s in LogPoints(n, k) <==> s < n && s % k == 0
    ensures forall i, j :: 0 <= i < j < |LogPoints(n, k)| ==> LogPoints(n, k)[i] < LogPoints(n, k)[j]
  {
    if n > 0 {
      LogPointsExactly(n - 1, k);
      var prev := LogPoints(n - 1, k);
      assert forall i :: 0 <= i < |prev| ==> prev[i] in prev;
    }
  }

}
