/** JavaScript's `Array.prototype.filter` and the facts about it that the
    list views rely on: it keeps exactly the wanted elements, in order. */
module Seqs {

  /** `s.filter(keep)`. */
  function Filter<T>(s: seq<T>, keep: T -> bool): (r: seq<T>)
    ensures |r| <= |s|
    ensures forall k :: 0 <= k < |r| ==> r[k] in s && keep(r[k])
  {
    if s == [] then [] else (if keep(s[0]) then [s[0]] else []) + Filter(s[1..], keep)
  }

  /** An element is in the result exactly when it is in `s` and wanted. */
  lemma {:induction false} FilterMembers<T>(s: seq<T>, keep: T -> bool)
    ensures forall x :: x in Filter(s, keep) <==> x in s && keep(x)
  {
    if s != [] {
      FilterMembers(s[1..], keep);
      assert s == [s[0]] + s[1..];
    }
  }

  /** `idx` lists, in increasing order, positions of `b` that spell out `a`. */
  ghost predicate Embeds<T>(a: seq<T>, b: seq<T>, idx: seq<nat>) {
    && |idx| == |a|
    && (forall k :: 0 <= k < |idx| ==> idx[k] < |b| && a[k] == b[idx[k]])
    && (forall k, l :: 0 <= k < l < |idx| ==> idx[k] < idx[l])
  }

  /** `a` is `b` with some elements left out and the rest in their order. */
  ghost predicate IsSubsequence<T>(a: seq<T>, b: seq<T>) {
    exists idx :: Embeds(a, b, idx)
  }

  function Shifted(idx: seq<nat>): (r: seq<nat>)
    ensures |r| == |idx|
    ensures forall k :: 0 <= k < |idx| ==> r[k] == idx[k] + 1
  {
    seq(|idx|, k requires 0 <= k < |idx| => idx[k] + 1)
  }

  lemma ShiftedMembers(idx: seq<nat>, i: nat)
    ensures i in Shifted(idx) <==> i > 0 && i - 1 in idx
  {
    if i > 0 && i - 1 in idx {
      var k :| 0 <= k < |idx| && idx[k] == i - 1;
      assert Shifted(idx)[k] == i;
    }
  }

  /** An embedding into the tail of `b` is an embedding into `b`, one further on. */
  lemma EmbedsInTail<T>(a: seq<T>, b: seq<T>, idx: seq<nat>)
    requires |b| > 0 && Embeds(a, b[1..], idx)
    ensures Embeds(a, b, Shifted(idx))
  {
    var sh := Shifted(idx);
    forall k | 0 <= k < |sh|
      ensures sh[k] < |b| && a[k] == b[sh[k]]
    {
      assert b[1..][idx[k]] == b[idx[k] + 1];
    }
  }

  /** Position 0 can be put in front of an embedding that avoids it. */
  lemma EmbedsWithHead<T>(a: seq<T>, b: seq<T>, idx: seq<nat>)
    requires |b| > 0 && Embeds(a, b, idx)
    requires forall k :: 0 <= k < |idx| ==> idx[k] > 0
    ensures Embeds([b[0]] + a, b, [0] + idx)
  {
  }

  /** The filter result is the subsequence of `s` at exactly the positions
      whose element is kept. */
  lemma {:induction false} FilterSelects<T>(s: seq<T>, keep: T -> bool) returns (idx: seq<nat>)
    ensures Embeds(Filter(s, keep), s, idx)
    ensures forall i :: 0 <= i < |s| ==> (keep(s[i]) <==> i in idx)
  {
    if s == [] {
      idx := [];
      return;
    }
    var tail := FilterSelects(s[1..], keep);
    var shifted := Shifted(tail);
    var rest := Filter(s[1..], keep);
    EmbedsInTail(rest, s, tail);
    if keep(s[0]) {
      EmbedsWithHead(rest, s, shifted);
      idx := [0] + shifted;
    } else {
      idx := shifted;
    }
    forall i | 0 <= i < |s|
      ensures keep(s[i]) <==> i in idx
    {
      ShiftedMembers(tail, i);
      if i > 0 {
        assert s[i] == s[1..][i - 1];
      }
    }
  }

  lemma FilterIsSubsequence<T>(s: seq<T>, keep: T -> bool)
    ensures IsSubsequence(Filter(s, keep), s)
  {
    var idx := FilterSelects(s, keep);
  }

  /** Nothing is dropped when every element is wanted. */
  lemma {:induction false} FilterKeepsAll<T>(s: seq<T>, keep: T -> bool)
    requires forall x :: x in s ==> keep(x)
    ensures Filter(s, keep) == s
  {
    if s != [] {
      FilterKeepsAll(s[1..], keep);
    }
  }

  /** Filtering twice with the same predicate is filtering once. */
  lemma FilterIdempotent<T>(s: seq<T>, keep: T -> bool)
    ensures Filter(Filter(s, keep), keep) == Filter(s, keep)
  {
    FilterMembers(s, keep);
    FilterKeepsAll(Filter(s, keep), keep);
  }

  /** Predicates that agree on the elements give the same result. */
  lemma {:induction false} FilterAgrees<T>(s: seq<T>, keep1: T -> bool, keep2: T -> bool)
    requires forall x :: x in s ==> keep1(x) == keep2(x)
    ensures Filter(s, keep1) == Filter(s, keep2)
  {
    if s != [] {
      FilterAgrees(s[1..], keep1, keep2);
    }
  }

  /** Two predicates of which exactly one holds for every element split the
      sequence: together the two results hold every element once. */
  lemma {:induction false} FilterSplits<T>(s: seq<T>, keep1: T -> bool, keep2: T -> bool)
    requires forall x :: x in s ==> keep1(x) != keep2(x)
    ensures multiset(Filter(s, keep1)) + multiset(Filter(s, keep2)) == multiset(s)
    ensures |Filter(s, keep1)| + |Filter(s, keep2)| == |s|
  {
    if s != [] {
      FilterSplits(s[1..], keep1, keep2);
      assert s == [s[0]] + s[1..];
    }
  }

  /** `s.filter((_, i) => i !== index)`, the positions counted from `from`:
      a position inside the sequence removes exactly that element, keeping
      the rest in order; a position outside it removes nothing. */
  function FilterOutIndex<T>(s: seq<T>, index: int, from: int): (r: seq<T>)
    ensures from <= index < from + |s| ==> r == s[..index - from] + s[index - from + 1..]
    ensures !(from <= index < from + |s|) ==> r == s
  {
    if s == [] then []
    else
      var rest := FilterOutIndex(s[1..], index, from + 1);
      if from != index then
        assert from < index < from + |s| ==>
                 s[..index - from] == [s[0]] + s[1..][..index - from - 1] &&
                 s[index - from + 1..] == s[1..][index - from..];
        [s[0]] + rest
      else
        rest
  }
}
