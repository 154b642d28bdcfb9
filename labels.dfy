/**
 * The label vocabulary: the dictionary from relation label to class id, and
 * its inversion `id2label` built at train.py:69.
 *
 * A Python dictionary keeps the order in which its items were inserted, so a
 * dictionary is modelled by the sequence of its items. Building a dictionary
 * from a list of pairs lets a later pair overwrite an earlier pair with the
 * same key.
 */
module LabelMap {

  /** No two items share a key: the items of a Python dictionary. */
  ghost predicate DistinctKeys<K, V>(items: seq<(K, V)>) {
    forall i, j :: 0 <= i < j < |items| ==> items[i].0 != items[j].0
  }

  /** No two items share a value: the class ids of the labels are distinct. */
  ghost predicate DistinctValues<K, V>(items: seq<(K, V)>) {
    forall i, j :: 0 <= i < j < |items| ==> items[i].1 != items[j].1
  }

  /** `dict(pairs)`: the pairs are inserted in order, a later pair replacing an earlier one. */
  function DictOf<K, V>(pairs: seq<(K, V)>): (m: map<K, V>)
    ensures m.Keys == set p | p in pairs :: p.0
    ensures forall k :: k in m ==> (k, m[k]) in pairs
    decreases |pairs|
  {
    if pairs == [] then map[]
    else
      var last := pairs[|pairs| - 1];
      var m0 := DictOf(pairs[..|pairs| - 1]);
      assert pairs == pairs[..|pairs| - 1] + [last];
      m0[last.0 := last.1]
  }

  /** The dictionary `LABEL_TO_ID`, given by its items in order. */
  function LabelToId<K, V>(items: seq<(K, V)>): map<K, V> {
    DictOf(items)
  }

  /** The list `[(v, k) for k, v in items]`. */
  function Swapped<K, V>(items: seq<(K, V)>): (s: seq<(V, K)>)
    ensures |s| == |items|
    ensures forall i :: 0 <= i < |items| ==> s[i] == (items[i].1, items[i].0)
  {
    seq(|items|, i requires 0 <= i < |items| => (items[i].1, items[i].0))
  }

  /** `id2label`: every class id maps back to a label that `LABEL_TO_ID` pairs with it. */
  function Id2Label<K, V>(items: seq<(K, V)>): (inv: map<V, K>)
    ensures inv.Keys == set p | p in items :: p.1
    ensures forall v :: v in inv ==> (inv[v], v) in items
  {
    SwappedPairs(items);
    DictOf(Swapped(items))
  }

  /** A pair is in the swapped list exactly when its mirror image is an item. */
  lemma SwappedPairs<K, V>(items: seq<(K, V)>)
    ensures (set p | p in Swapped(items) :: p.0) == (set p | p in items :: p.1)
    ensures forall v, k :: (v, k) in Swapped(items) ==> (k, v) in items
  {
    forall v, k | (v, k) in Swapped(items) ensures (k, v) in items {
      var i :| 0 <= i < |items| && Swapped(items)[i] == (v, k);
    }
    forall p | p in items ensures p.1 in (set q | q in Swapped(items) :: q.0) {
      var i :| 0 <= i < |items| && items[i] == p;
      assert Swapped(items)[i] in Swapped(items);
    }
  }

  /** The value stored for a key is the one of the LAST pair carrying that key. */
  lemma {:induction false} DictOfLastWins<K, V>(pairs: seq<(K, V)>, i: nat)
    requires i < |pairs|
    requires forall j :: i < j < |pairs| ==> pairs[j].0 != pairs[i].0
    ensures pairs[i].0 in DictOf(pairs) && DictOf(pairs)[pairs[i].0] == pairs[i].1
    decreases |pairs|
  {
    if i < |pairs| - 1 {
      DictOfLastWins(pairs[..|pairs| - 1], i);
    }
  }

  /** A dictionary built from pairs with distinct keys has one entry per pair. */
  lemma {:induction false} DictOfSize<K, V>(pairs: seq<(K, V)>)
    requires DistinctKeys(pairs)
    ensures |DictOf(pairs)| == |pairs|
    decreases |pairs|
  {
    if pairs != [] {
      var init := pairs[..|pairs| - 1];
      DictOfSize(init);
      var last := pairs[|pairs| - 1];
      assert forall j :: 0 <= j < |init| ==> init[j].0 != last.0;
      assert last.0 !in DictOf(init);
    }
  }

  /** `id2label[LABEL_TO_ID[k]] == k` for every label `k` when the class ids are distinct. */
  lemma Id2LabelInvertsLabelToId<K, V>(items: seq<(K, V)>)
    requires DistinctKeys(items) && DistinctValues(items)
    ensures forall k :: k in LabelToId(items) ==>
      LabelToId(items)[k] in Id2Label(items) && Id2Label(items)[LabelToId(items)[k]] == k
  {
    forall k | k in LabelToId(items)
      ensures LabelToId(items)[k] in Id2Label(items) && Id2Label(items)[LabelToId(items)[k]] == k
    {
      var i :| 0 <= i < |items| && items[i] == (k, LabelToId(items)[k]);
      var sw := Swapped(items);
      DictOfLastWins(sw, i);
    }
  }

  /** `LABEL_TO_ID[id2label[v]] == v` for every class id `v`: the labels are keys, hence distinct. */
  lemma LabelToIdInvertsId2Label<K, V>(items: seq<(K, V)>)
    requires DistinctKeys(items)
    ensures forall v :: v in Id2Label(items) ==>
      Id2Label(items)[v] in LabelToId(items) && LabelToId(items)[Id2Label(items)[v]] == v
  {
    forall v | v in Id2Label(items)
      ensures Id2Label(items)[v] in LabelToId(items) && LabelToId(items)[Id2Label(items)[v]] == v
    {
      var i :| 0 <= i < |items| && items[i] == (Id2Label(items)[v], v);
      DictOfLastWins(items, i);
    }
  }

  /** `len(id2label) == len(LABEL_TO_ID)` (lines 79 and 90 both size the classifier) when ids are distinct. */
  lemma NumLabelsAgree<K, V>(items: seq<(K, V)>)
    requires DistinctKeys(items) && DistinctValues(items)
    ensures |Id2Label(items)| == |LabelToId(items)| == |items|
  {
    DictOfSize(items);
    var sw := Swapped(items);
    assert DistinctKeys(sw) by {
      forall i, j | 0 <= i < j < |sw| ensures sw[i].0 != sw[j].0 {
        assert items[i].1 != items[j].1;
      }
    }
    DictOfSize(sw);
  }

}
