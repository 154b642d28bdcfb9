/**
 * Moving a batch to the compute device, train.py:152-154 and 196-198.
 *
 * A batch is the list (labels, input ids, attention mask, entity-1 positions,
 * entity-2 positions); the last three may be absent (`None`) depending on the
 * input-encoding method. The loop replaces each present slot by its moved
 * tensor, in place, and leaves absent slots absent. The tensor type and the
 * `.to(device)` call are opaque: `to` stands for `t.to(device)` with the
 * device fixed for the whole run.
 */
module Device {
  import opened Wrappers

  /** The number of slots a batch is unpacked into at train.py:155 and 200. */
  const BatchFields := 5

  /** One slot after the move: a present tensor is moved, an absent one stays absent. */
  function MoveSlot<T>(slot: Option<T>, to: T -> T): Option<T> {
    match slot
    case None => None
    case Some(t) => Some(to(t))
  }

  /** The batch after the move loop, slot by slot from the front. */
  function Moved<T>(s: seq<Option<T>>, to: T -> T): seq<Option<T>> {
    if s == [] then [] else [MoveSlot(s[0], to)] + Moved(s[1..], to)
  }

  /** The move keeps the length and the absent slots, and moves every present slot. */
  lemma {:induction false} MovedAt<T>(s: seq<Option<T>>, to: T -> T, k: nat)
    requires k < |s|
    ensures |Moved(s, to)| == |s|
    ensures s[k].None? ==> Moved(s, to)[k].None?
    ensures s[k].Some? ==> Moved(s, to)[k] == Some(to(s[k].value))
  {
    if k == 0 {
      if |s| > 1 {
        MovedAt(s[1..], to, 0);
      }
    } else {
      MovedAt(s[1..], to, k - 1);
    }
  }

  /**
   * The loop `for i in range(len(batch))`. It returns the value the variable `i`
   * holds afterwards: Python rebinds the caller's `i` (the batch index of the
   * enclosing `enumerate` loop), which ends as `len(batch) - 1`, or keeps its
   * old value `i0` when the batch is empty.
   */
  method MoveToDevice<T>(batch: array<Option<T>>, to: T -> T, i0: int) returns (i: int)
    modifies batch
    ensures batch[..] == Moved(old(batch[..]), to)
    ensures i == if batch.Length == 0 then i0 else batch.Length - 1
  {
    i := i0;
    var k := 0;
    while k < batch.Length
      invariant 0 <= k <= batch.Length
      invariant forall j :: 0 <= j < k ==> batch[j] == MoveSlot(old(batch[j]), to)
      invariant forall j :: k <= j < batch.Length ==> batch[j] == old(batch[j])
      invariant i == if k == 0 then i0 else k - 1
    {
      i := k;
      if batch[i].Some? {
        batch[i] := Some(to(batch[i].value));
      }
      k := k + 1;
    }
    ghost var before := old(batch[..]);
    if batch.Length == 0 {
      assert before == [];
    } else {
      MovedAt(before, to, 0);
      forall j | 0 <= j < batch.Length ensures batch[..][j] == Moved(before, to)[j] {
        MovedAt(before, to, j);
      }
    }
  }

  /** The contents of the batch lists the loader yields. */
  ghost function Contents<T>(loader: seq<array<Option<T>>>): (s: seq<seq<Option<T>>>)
    reads loader
    ensures |s| == |loader|
    ensures forall j :: 0 <= j < |loader| ==> s[j] == loader[j][..]
  {
    if loader == [] then [] else Contents(loader[..|loader| - 1]) + [loader[|loader| - 1][..]]
  }

}
