/** Generic facts about sequences: duplicates and order-preserving
    sub-sequences. */
module Seqs {

  /** No value appears twice in `s`. */
  predicate NoDuplicates<T(==)>(s: seq<T>) {
    forall i, j :: 0 <= i < j < |s| ==> s[i] != s[j]
  }

  /** `idx` witnesses that `sub` is `s` with some elements dropped: it picks,
      in strictly increasing order, the position in `s` of every element of
      `sub`. */
  ghost predicate Embeds<T>(idx: seq<nat>, sub: seq<T>, s: seq<T>) {
    && |idx| == |sub|
    && (forall k :: 0 <= k < |idx| ==> idx[k] < |s| && sub[k] == s[idx[k]])
    && (forall k, l :: 0 <= k < l < |idx| ==> idx[k] < idx[l])
  }

  /** `sub` can be obtained from `s` by deleting elements, keeping the order of
      the rest. */
  ghost predicate IsSubsequence<T>(sub: seq<T>, s: seq<T>) {
    exists idx :: Embeds(idx, sub, s)
  }

  /** Each index of `idx`, plus one. */
  function Shift(idx: seq<nat>): (r: seq<nat>)
    ensures |r| == |idx|
    ensures forall k :: 0 <= k < |idx| ==> r[k] == idx[k] + 1
  {
    seq(|idx|, k requires 0 <= k < |idx| => idx[k] + 1)
  }

  /** An embedding into the tail of `s`, shifted by one, is an embedding
      into `s` that avoids position 0. */
  lemma EmbedsShift<T>(idx: seq<nat>, sub: seq<T>, s: seq<T>)
    requires |s| > 0 && Embeds(idx, sub, s[1..])
    ensures Embeds(Shift(idx), sub, s)
  {
    var shifted := Shift(idx);
    forall k | 0 <= k < |idx|
      ensures shifted[k] < |s| && sub[k] == s[shifted[k]]
    {
      assert s[1..][idx[k]] == s[idx[k] + 1];
    }
  }

  /** An embedding that avoids position 0 extends to one that also takes the
      head of `s`. */
  lemma EmbedsPrepend<T>(idx: seq<nat>, sub: seq<T>, s: seq<T>)
    requires |s| > 0 && Embeds(idx, sub, s)
    requires forall k :: 0 <= k < |idx| ==> idx[k] > 0
    ensures Embeds([0] + idx, [s[0]] + sub, s)
  {
    var idx' := [0] + idx;
    var sub' := [s[0]] + sub;
    forall k | 0 < k < |idx'|
      ensures idx'[k] < |s| && sub'[k] == s[idx'[k]]
    {
      assert idx'[k] == idx[k - 1] && sub'[k] == sub[k - 1];
    }
  }
}
