/**
 * The checkpoint lifecycle of train.py:232-245, as functions of the dev-F1
 * history: which epoch's snapshot `best_model.pt` holds, and which per-epoch
 * files `ckpt_epoch_{epoch}.pt` remain on disk. Epochs are numbered from 1;
 * `h[e - 1]` is the dev F1 of epoch `e`. Only the order of F1 values matters,
 * so they are reals.
 */
module Checkpoints {
  import opened Wrappers

  /** Python's `max(list_dev_f1)` on a non-empty list. */
  function Max(h: seq<real>): (m: real)
    requires h != []
    ensures m in h
    ensures forall j :: 0 <= j < |h| ==> h[j] <= m
  {
    if |h| == 1 then h[0]
    else
      var prev := h[..|h| - 1];
      var m0 := Max(prev);
      assert forall j :: 0 <= j < |prev| ==> h[j] == prev[j];
      if h[|h| - 1] > m0 then h[|h| - 1] else m0
  }

  /**
   * The epoch whose snapshot `best_model.pt` holds after the epochs of `h`, as
   * line 234 decides it: the file is overwritten on the first epoch, or when the
   * epoch's F1 is strictly above the maximum of all earlier epochs (the test runs
   * before the append at line 245).
   */
  function BestEpoch(h: seq<real>): (best: Option<nat>)
    ensures best.Some? <==> h != []
    ensures best.Some? ==> 1 <= best.value <= |h|
  {
    if h == [] then None
    else
      var prev := h[..|h| - 1];
      if prev == [] || h[|h| - 1] > Max(prev) then Some(|h|) else BestEpoch(prev)
  }

  /** One more epoch: line 234's test decides whether the best file changes. */
  lemma BestEpochStep(h: seq<real>, x: real)
    ensures BestEpoch(h + [x]) == if |h| == 0 || x > Max(h) then Some(|h| + 1) else BestEpoch(h)
  {
    var hx := h + [x];
    assert hx[..|hx| - 1] == h;
    assert hx[|hx| - 1] == x;
    assert hx != [];
  }

  /**
   * The best file holds the FIRST epoch reaching the maximum F1: its F1 is at
   * least every epoch's, and strictly above every earlier epoch's (ties keep the earlier epoch).
   */
  lemma {:induction false} BestEpochIsFirstMax(h: seq<real>)
    requires h != []
    ensures BestEpoch(h).Some?
    ensures forall j :: 0 <= j < |h| ==> h[j] <= h[BestEpoch(h).value - 1]
    ensures forall j :: 0 <= j < BestEpoch(h).value - 1 ==> h[j] < h[BestEpoch(h).value - 1]
  {
    var prev := h[..|h| - 1];
    var x := h[|h| - 1];
    if prev != [] {
      assert forall j :: 0 <= j < |prev| ==> h[j] == prev[j];
      if x <= Max(prev) {
        BestEpochIsFirstMax(prev);
        var e := BestEpoch(prev).value;
        assert BestEpoch(h) == Some(e);
        assert Max(prev) <= prev[e - 1];
      }
    }
  }

  /** Conversely, the first epoch reaching the maximum is the one the best file holds. */
  lemma BestEpochUnique(h: seq<real>, e: nat)
    requires 1 <= e <= |h|
    requires forall j :: 0 <= j < |h| ==> h[j] <= h[e - 1]
    requires forall j :: 0 <= j < e - 1 ==> h[j] < h[e - 1]
    ensures BestEpoch(h) == Some(e)
  {
    BestEpochIsFirstMax(h);
    var b := BestEpoch(h).value;
    assert h[b - 1] <= h[e - 1] && h[e - 1] <= h[b - 1];
  }

  /**
   * The per-epoch files on disk after epochs `1 .. n`: each epoch writes its
   * file and removes it right away unless `epoch % save_epoch == 0` (line 237).
   */
  function KeptEpochs(n: nat, saveEpoch: int): set<nat>
    requires saveEpoch != 0 || n == 0
  {
    if n == 0 then {}
    else
      var kept := KeptEpochs(n - 1, saveEpoch);
      if n % saveEpoch != 0 then (kept + {n}) - {n} else kept + {n}
  }

  /** One more epoch: its file is written, then removed unless its number is a multiple. */
  lemma KeptEpochsStep(n: nat, saveEpoch: int)
    requires saveEpoch != 0
    ensures (n + 1) % saveEpoch != 0 ==> KeptEpochs(n + 1, saveEpoch) == (KeptEpochs(n, saveEpoch) + {n + 1}) - {n + 1}
    ensures (n + 1) % saveEpoch == 0 ==> KeptEpochs(n + 1, saveEpoch) == KeptEpochs(n, saveEpoch) + {n + 1}
  {
  }

  /**
   * After `n` epochs exactly the files of the epochs that are multiples of
   * `save_epoch` remain, whichever epoch the best file holds.
   */
  lemma {:induction false} KeptEpochsExactly(n: nat, saveEpoch: int)
    requires saveEpoch != 0
    ensures forall e: nat :: e in KeptEpochs(n, saveEpoch) <==> 1 <= e <= n && e % saveEpoch == 0
  {
    if n > 0 {
      KeptEpochsExactly(n - 1, saveEpoch);
    }
  }

}
