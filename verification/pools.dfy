/**
 The two review pools of EvidenceSerializer: the expert pool holds the
 reviews whose reviewer is on the topic's expert roster, the community pool
 all others. The roster is a set of reviewer ids passed in; the database
 traversal that produces it is not modelled.
 */
module Pools {
  import opened Tallies
  import opened Models

  /** A review belongs to the expert pool when its reviewer is on the
      roster, and to the community pool otherwise. */
  predicate InPool(r: EvidenceReview, experts: set<nat>, expert: bool) {
    (r.reviewer in experts) == expert
  }

  /** The reviews of the requested pool, in their original order
      (filter(reviewer__in=...) or exclude(reviewer__in=...)). */
  function Pool(reviews: seq<EvidenceReview>, experts: set<nat>, expert: bool): (p: seq<EvidenceReview>)
    ensures |p| <= |reviews|
    ensures forall i :: 0 <= i < |p| ==> InPool(p[i], experts, expert)
  {
    if |reviews| == 0 then []
    else
      (if InPool(reviews[0], experts, expert) then [reviews[0]] else [])
        + Pool(reviews[1..], experts, expert)
  }

  /** The pool keeps every review of its kind as often as it occurs, and
      no other review. */
  lemma {:induction false} PoolMultiset(reviews: seq<EvidenceReview>, experts: set<nat>, expert: bool)
    ensures forall r :: multiset(Pool(reviews, experts, expert))[r] ==
                        (if InPool(r, experts, expert) then multiset(reviews)[r] else 0)
  {
    if |reviews| > 0 {
      assert reviews == [reviews[0]] + reviews[1..];
      PoolMultiset(reviews[1..], experts, expert);
    }
  }

  /** The relationships deduced by a sequence of reviews, in order. */
  function Labels(reviews: seq<EvidenceReview>): (ls: seq<EvidenceRelationship>) {
    seq(|reviews|, i requires 0 <= i < |reviews| => reviews[i].deducedRelationship)
  }

  /** No review carries the sentinel. */
  lemma LabelsNeverSplit(reviews: seq<EvidenceReview>)
    ensures Split !in Labels(reviews)
  {
  }

  /** The labels of a review followed by others. */
  lemma LabelsCons(r: EvidenceReview, rest: seq<EvidenceReview>)
    ensures Labels([r] + rest) == [r.deducedRelationship] + Labels(rest)
  {
    assert ([r] + rest)[1..] == rest;
  }

  /** Filtering a sequence whose first review is of the requested kind. */
  lemma PoolConsIn(reviews: seq<EvidenceReview>, experts: set<nat>, expert: bool)
    requires |reviews| > 0 && InPool(reviews[0], experts, expert)
    ensures Pool(reviews, experts, expert) == [reviews[0]] + Pool(reviews[1..], experts, expert)
  {}

  /** Filtering a sequence whose first review is of the other kind. */
  lemma PoolConsOut(reviews: seq<EvidenceReview>, experts: set<nat>, expert: bool)
    requires |reviews| > 0 && !InPool(reviews[0], experts, expert)
    ensures Pool(reviews, experts, expert) == Pool(reviews[1..], experts, expert)
  {}

  /** Filtering distributes over concatenation. */
  lemma {:induction false} PoolConcat(a: seq<EvidenceReview>, b: seq<EvidenceReview>, experts: set<nat>, expert: bool)
    ensures Pool(a + b, experts, expert) == Pool(a, experts, expert) + Pool(b, experts, expert)
  {
    if |a| == 0 {
      assert a + b == b;
    } else {
      assert (a + b)[0] == a[0];
      assert (a + b)[1..] == a[1..] + b;
      PoolConcat(a[1..], b, experts, expert);
    }
  }

  /** Permuting the reviews permutes their labels. */
  lemma {:induction false} LabelsMultiset(a: seq<EvidenceReview>, b: seq<EvidenceReview>)
    requires multiset(a) == multiset(b)
    ensures multiset(Labels(a)) == multiset(Labels(b))
    decreases |a|
  {
    assert |a| == |multiset(a)| == |b|;
    if |a| > 0 {
      var x := a[0];
      assert x in multiset(b);
      var j :| 0 <= j < |b| && b[j] == x;
      var a' := a[..0] + a[1..];
      var b' := b[..j] + b[j + 1..];
      RemoveMatching(a, b, 0, j);
      LabelsMultiset(a', b');
      LabelsRemoveAt(a, 0);
      LabelsRemoveAt(b, j);
    }
  }

  /** Taking out the review at position j takes one copy of its label out
      of the labels' multiset. */
  lemma LabelsRemoveAt(b: seq<EvidenceReview>, j: nat)
    requires j < |b|
    ensures multiset(Labels(b)) == multiset(Labels(b[..j] + b[j + 1..])) + multiset{b[j].deducedRelationship}
  {
    assert Labels(b[..j] + b[j + 1..]) == Labels(b)[..j] + Labels(b)[j + 1..];
    MultisetRemoveAt(Labels(b), j);
  }

  /** A review of the other kind, inserted anywhere, leaves the pool as it was. */
  lemma {:induction false} PoolInsertOther(reviews: seq<EvidenceReview>, experts: set<nat>, expert: bool, i: nat, r: EvidenceReview)
    requires i <= |reviews|
    requires !InPool(r, experts, expert)
    ensures Pool(reviews[..i] + [r] + reviews[i..], experts, expert) == Pool(reviews, experts, expert)
  {
    var before := reviews[..i];
    var after := reviews[i..];
    PoolAppendOther(before, experts, expert, r);
    PoolConcat(before + [r], after, experts, expert);
    PoolConcat(before, after, experts, expert);
    assert before + after == reviews;
  }

  /** A review of the other kind, appended, leaves the pool as it was. */
  lemma PoolAppendOther(reviews: seq<EvidenceReview>, experts: set<nat>, expert: bool, r: EvidenceReview)
    requires !InPool(r, experts, expert)
    ensures Pool(reviews + [r], experts, expert) == Pool(reviews, experts, expert)
  {
    assert Pool([r], experts, expert) == [];
    PoolConcat(reviews, [r], experts, expert);
  }
}
