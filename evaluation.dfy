/**
 * Collecting dev-set predictions, train.py:193-215. Each dev batch is moved
 * to the device, its argmax class ids are appended to `predictions` in loader
 * order, and after the loop every id is mapped through `id2label`. The
 * classifier and `torch.argmax` are opaque: `argmax` stands for the class ids
 * the model in its current state predicts for a (moved) batch.
 */
module Evaluation {
  import opened Wrappers
  import opened Device

  /** The concatenation of the per-batch lists, in order (`predictions += preds`). */
  function Flatten<X>(xss: seq<seq<X>>): seq<X> {
    if xss == [] then [] else Flatten(xss[..|xss| - 1]) + xss[|xss| - 1]
  }

  /** The total number of elements of the per-batch lists. */
  function TotalLength<X>(xss: seq<seq<X>>): nat {
    if xss == [] then 0 else TotalLength(xss[..|xss| - 1]) + |xss[|xss| - 1]|
  }

  /** Concatenating the lists of two runs of batches is concatenating their concatenations. */
  lemma {:induction false} FlattenAppend<X>(a: seq<seq<X>>, b: seq<seq<X>>)
    ensures Flatten(a + b) == Flatten(a) + Flatten(b)
    ensures TotalLength(a + b) == TotalLength(a) + TotalLength(b)
    decreases |b|
  {
    if b == [] {
      assert a + b == a;
    } else {
      var b0 := b[..|b| - 1];
      assert (a + b)[..|a + b| - 1] == a + b0;
      assert (a + b)[|a + b| - 1] == b[|b| - 1];
      FlattenAppend(a, b0);
    }
  }

  /** The concatenation has one element per element of the lists. */
  lemma {:induction false} FlattenLength<X>(xss: seq<seq<X>>)
    ensures |Flatten(xss)| == TotalLength(xss)
    decreases |xss|
  {
    if xss != [] {
      FlattenLength(xss[..|xss| - 1]);
    }
  }

  /**
   * Order is kept: element `k` of batch `j` sits at position `k` after all
   * elements of the batches before `j`.
   */
  lemma FlattenAt<X>(xss: seq<seq<X>>, j: nat, k: nat)
    requires j < |xss| && k < |xss[j]|
    ensures TotalLength(xss[..j]) + k < |Flatten(xss)|
    ensures Flatten(xss)[TotalLength(xss[..j]) + k] == xss[j][k]
  {
    assert xss == xss[..j] + ([xss[j]] + xss[j + 1..]);
    FlattenAppend(xss[..j], [xss[j]] + xss[j + 1..]);
    FlattenAppend([xss[j]], xss[j + 1..]);
    assert Flatten([xss[j]]) == xss[j] by {
      assert [xss[j]][..0] == [];
    }
    FlattenLength(xss[..j]);
  }

  /**
   * `[id2label[p] for p in predictions]`: the labels of the ids in order, or
   * `None` (Python raises `KeyError`) when some id has no label.
   */
  function LookupAll<L>(ids: seq<int>, id2label: map<int, L>): (r: Option<seq<L>>)
    ensures r.Some? <==> forall k :: 0 <= k < |ids| ==> ids[k] in id2label
    ensures r.Some? ==> |r.value| == |ids| && forall k :: 0 <= k < |ids| ==> r.value[k] == id2label[ids[k]]
  {
    if ids == [] then Some([])
    else if ids[0] !in id2label then None
    else
      match LookupAll(ids[1..], id2label)
      case None => None
      case Some(rest) => Some([id2label[ids[0]]] + rest)
  }

  /** The class ids predicted for each batch. */
  function Predict<T>(batches: seq<seq<Option<T>>>, argmax: seq<Option<T>> -> seq<int>): (ps: seq<seq<int>>)
    ensures |ps| == |batches|
  {
    seq(|batches|, j requires 0 <= j < |batches| => argmax(batches[j]))
  }

  /** Predicting one more batch appends its ids. */
  lemma PredictAppend<T>(batches: seq<seq<Option<T>>>, b: seq<Option<T>>, argmax: seq<Option<T>> -> seq<int>)
    ensures Flatten(Predict(batches + [b], argmax)) == Flatten(Predict(batches, argmax)) + argmax(b)
  {
    var ps := Predict(batches + [b], argmax);
    assert ps[..|ps| - 1] == Predict(batches, argmax);
  }

  /**
   * The dev loop: every batch is moved in place, and the result is the
   * in-order concatenation of the per-batch predictions, mapped through `id2label`.
   * The loader yields a fresh list for each batch.
   */
  method CollectPredictions<T, L>(
    loader: seq<array<Option<T>>>, to: T -> T,
    argmax: seq<Option<T>> -> seq<int>, id2label: map<int, L>)
    returns (predictions: Option<seq<L>>)
    requires forall j :: 0 <= j < |loader| ==> loader[j].Length == BatchFields
    requires forall j, k :: 0 <= j < k < |loader| ==> loader[j] != loader[k]
    modifies loader
    ensures forall j :: 0 <= j < |loader| ==> loader[j][..] == Moved(old(loader[j][..]), to)
    ensures predictions == LookupAll(Flatten(Predict(Contents(loader), argmax)), id2label)
  {
    var ids: seq<int> := [];
    ghost var done: seq<seq<Option<T>>> := [];
    var i := 0;
    while i < |loader|
      invariant 0 <= i <= |loader|
      invariant forall j :: 0 <= j < i ==> loader[j][..] == Moved(old(loader[j][..]), to)
      invariant forall j :: i <= j < |loader| ==> loader[j][..] == old(loader[j][..])
      invariant |done| == i && forall j :: 0 <= j < i ==> done[j] == loader[j][..]
      invariant ids == Flatten(Predict(done, argmax))
    {
      var batch := loader[i];
      assert forall j :: 0 <= j < |loader| && j != i ==> loader[j] != batch;
      var _ := MoveToDevice(batch, to, i);
      var preds := argmax(batch[..]);
      PredictAppend(done, batch[..], argmax);
      ids := ids + preds;
      done := done + [batch[..]];
      i := i + 1;
    }
    assert done == Contents(loader);
    predictions := LookupAll(ids, id2label);
  }

}
