/** The order of operations: `Operation.order_sequence` sorts by the key
    (sequence is null, sequence), ascending, so operations with a sequence come first in
    ascending sequence and those without one come last. */
module OperationOrder {
  import opened Wrappers
  import opened Records

  /** The sort key `[sequence == None, sequence]`; the second part is only compared between
      two operations that both have a sequence. */
  function SequenceKey(sequence: Option<int>): (bool, int) {
    (sequence.None?, if sequence.Some? then sequence.value else 0)
  }

  /** Ascending lexicographic comparison of two sort keys (false before true). */
  predicate KeyLe(a: (bool, int), b: (bool, int)) {
    (!a.0 && b.0) || (a.0 == b.0 && a.1 <= b.1)
  }

  predicate SequenceLe(x: Option<int>, y: Option<int>) {
    KeyLe(SequenceKey(x), SequenceKey(y))
  }

  /** A list of operations as the order returns them. */
  predicate OrderedBySequence(ops: seq<Operation>) {
    forall i, j :: 0 <= i < j < |ops| ==> SequenceLe(ops[i].sequence, ops[j].sequence)
  }

  /** The comparison is a total preorder: reflexive, transitive and total, so sorting by it
      is well defined up to ties between operations without a sequence or with the same one. */
  lemma SequenceOrderIsTotalPreorder(x: Option<int>, y: Option<int>, z: Option<int>)
    ensures SequenceLe(x, x)
    ensures SequenceLe(x, y) || SequenceLe(y, x)
    ensures SequenceLe(x, y) && SequenceLe(y, z) ==> SequenceLe(x, z)
  {
  }

  /** Two operations compare as equal exactly when both lack a sequence or both have the same one. */
  lemma SequenceTies(x: Option<int>, y: Option<int>)
    ensures SequenceLe(x, y) && SequenceLe(y, x) <==> x == y
  {
  }

  /** A list is in operation order exactly when every operation with a sequence comes before
      every operation without one, and sequences ascend among the former. */
  lemma OrderedIff(ops: seq<Operation>)
    ensures OrderedBySequence(ops) <==>
      (forall i, j :: 0 <= i < j < |ops| && ops[i].sequence.None? ==> ops[j].sequence.None?) &&
      (forall i, j :: 0 <= i < j < |ops| && ops[i].sequence.Some? && ops[j].sequence.Some? ==>
         ops[i].sequence.value <= ops[j].sequence.value)
  {
  }
}
