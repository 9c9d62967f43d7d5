/**
 The decision of get_consensus over one pool of labels: tally the labels,
 compute the 80% threshold, and return the first tallied label whose count
 reaches it, or nothing (the serializer's SPLIT) when none does.
 */
module Consensus {
  import opened Wrappers
  import opened Tallies

  /** ceil(n * 0.8), the number of agreeing reviews an 80% consensus needs,
      computed in integers: the least r with 5 * r >= 4 * n. */
  function Required(n: nat): (r: nat)
    ensures 5 * r >= 4 * n
    ensures r == 0 || 5 * (r - 1) < 4 * n
    ensures r <= n
  {
    (4 * n + 4) / 5
  }

  /** Position of the first entry whose count reaches the threshold, or |t|
      when there is none. */
  function FirstMeeting<L>(t: seq<Entry<L>>, required: nat): (k: nat)
    ensures k <= |t|
    ensures k < |t| ==> t[k].count >= required
    ensures forall j :: 0 <= j < k ==> t[j].count < required
  {
    if |t| == 0 then 0
    else if t[0].count >= required then 0
    else 1 + FirstMeeting(t[1..], required)
  }

  /** The label agreed on by at least 80% of the pool, if any: a returned
      label occurs in the pool with a supermajority, and nothing is
      returned exactly when no label of the pool has one. */
  function Supermajority<L(==)>(labels: seq<L>): (r: Option<L>)
    ensures r.Some? ==> r.value in labels && Reaches(labels, r.value)
    ensures r.None? <==> forall i :: 0 <= i < |labels| ==> !Reaches(labels, labels[i])
  {
    var t := Tally(labels);
    var k := FirstMeeting(t, Required(|labels|));
    if k < |t| then
      TallyWinner(labels, k);
      assert labels[FirstIndex(labels, t[k].key)] == t[k].key;
      Some(t[k].key)
    else
      TallyNoWinner(labels);
      None
  }

  /** A label reaches the threshold when at least 80% of the labels are it. */
  ghost predicate Reaches<L>(labels: seq<L>, l: L) {
    5 * Count(labels, l) >= 4 * |labels|
  }

  /** Counts of two different labels never exceed the number of labels. */
  lemma {:induction false} CountsOfTwo<L>(labels: seq<L>, a: L, b: L)
    requires a != b
    ensures Count(labels, a) + Count(labels, b) <= |labels|
  {
    if |labels| > 0 {
      CountsOfTwo(labels[..|labels| - 1], a, b);
    }
  }

  /** In a non-empty pool at most one label reaches 80%, so the order in
      which the tally is visited never decides between two winners. */
  lemma AtMostOneWinner<L>(labels: seq<L>, a: L, b: L)
    requires |labels| > 0
    requires Reaches(labels, a) && Reaches(labels, b)
    ensures a == b
  {
    if a != b {
      CountsOfTwo(labels, a, b);
    }
  }

  /** Reaching the threshold in integers is reaching ceil(0.8 n). */
  lemma ReachesRequired<L>(labels: seq<L>, l: L)
    ensures Reaches(labels, l) <==> Count(labels, l) >= Required(|labels|)
  {
  }

  /** A tally entry that reaches the threshold is a label of the pool
      chosen by at least 80% of it. */
  lemma TallyWinner<L>(labels: seq<L>, k: nat)
    requires k < |Tally(labels)|
    requires Tally(labels)[k].count >= Required(|labels|)
    ensures Tally(labels)[k].key in labels
    ensures Reaches(labels, Tally(labels)[k].key)
  {
    var t := Tally(labels);
    var w := t[k].key;
    TallyCounts(labels);
    TallyHasKey(labels, w);
    assert Keys(t)[k] == w;
  }

  /** When the scan runs off the end of the tally, no label of the pool has
      a supermajority. */
  lemma TallyNoWinner<L>(labels: seq<L>)
    requires FirstMeeting(Tally(labels), Required(|labels|)) == |Tally(labels)|
    ensures forall i :: 0 <= i < |labels| ==> !Reaches(labels, labels[i])
  {
    var t := Tally(labels);
    TallyCounts(labels);
    forall i | 0 <= i < |labels|
      ensures !Reaches(labels, labels[i])
    {
      var x := labels[i];
      TallyHasKey(labels, x);
      var j := FirstIndex(Keys(t), x);
      assert t[j].count < Required(|labels|);
    }
  }

  /** The result is l exactly when l occurs in the pool with a
      supermajority, and it is nothing exactly when no label of the pool
      has one. */
  lemma SupermajorityCorrect<L>(labels: seq<L>, l: L)
    ensures Supermajority(labels) == Some(l) <==> l in labels && Reaches(labels, l)
    ensures Supermajority(labels).None? <==> forall i :: 0 <= i < |labels| ==> !Reaches(labels, labels[i])
  {
    match Supermajority(labels)
    case Some(w) =>
      if l in labels && Reaches(labels, l) {
        AtMostOneWinner(labels, l, w);
      }
      assert labels[FirstIndex(labels, w)] == w;
    case None =>
      if l in labels {
        assert labels[FirstIndex(labels, l)] == l;
      }
  }

  /** Each label of a unanimous pool is the same label, so it is counted
      once per review. */
  lemma {:induction false} CountUnanimous<L>(labels: seq<L>, l: L)
    requires forall i :: 0 <= i < |labels| ==> labels[i] == l
    ensures Count(labels, l) == |labels|
  {
    if |labels| > 0 {
      CountUnanimous(labels[..|labels| - 1], l);
    }
  }

  /** An empty pool has no consensus. */
  lemma EmptyPoolSplit<L>(labels: seq<L>)
    requires |labels| == 0
    ensures Supermajority(labels).None?
  {
  }

  /** A non-empty pool that agrees on one label returns that label. */
  lemma UnanimousPool<L>(labels: seq<L>, l: L)
    requires |labels| > 0
    requires forall i :: 0 <= i < |labels| ==> labels[i] == l
    ensures Supermajority(labels) == Some(l)
  {
    CountUnanimous(labels, l);
    assert labels[0] == l;
    SupermajorityCorrect(labels, l);
  }

  /** The result depends only on how often each label occurs, not on the
      order of the reviews, and hence not on the tally's first-seen order. */
  lemma OrderIrrelevant<L>(a: seq<L>, b: seq<L>)
    requires multiset(a) == multiset(b)
    ensures Supermajority(a) == Supermajority(b)
  {
    assert |a| == |multiset(a)| == |b|;
    if Supermajority(a).Some? {
      WinnerTransfers(a, b);
    } else if Supermajority(b).Some? {
      WinnerTransfers(b, a);
    }
  }

  /** A winner of one pool wins every pool with the same label multiset. */
  lemma WinnerTransfers<L>(a: seq<L>, b: seq<L>)
    requires multiset(a) == multiset(b)
    requires Supermajority(a).Some?
    ensures Supermajority(b) == Supermajority(a)
  {
    var w := Supermajority(a).value;
    assert |a| == |multiset(a)| == |b|;
    CountIsMultiplicity(a, w);
    CountIsMultiplicity(b, w);
    assert w in multiset(b);
    SupermajorityCorrect(b, w);
  }

  /** The first index of l is the only index before which l never occurs. */
  lemma FirstIndexUnique<L>(xs: seq<L>, l: L, k: nat)
    requires k < |xs| && xs[k] == l
    requires forall j :: 0 <= j < k ==> xs[j] != l
    ensures FirstIndex(xs, l) == k
  {
  }

  /** One step of the tally loop: find the label among the keys and add
      one to its count, or append it with count 1. */
  method Increment<L(==)>(counts: seq<Entry<L>>, l: L) returns (counts': seq<Entry<L>>)
    requires DistinctKeys(counts)
    ensures counts' == Bump(counts, l)
  {
    var k := 0;
    while k < |counts| && counts[k].key != l
      invariant k <= |counts|
      invariant forall j :: 0 <= j < k ==> counts[j].key != l
    {
      k := k + 1;
    }
    if k < |counts| {
      FirstIndexUnique(Keys(counts), l, k);
      counts' := counts[k := Entry(l, counts[k].count + 1)];
    } else {
      assert l !in Keys(counts);
      counts' := counts + [Entry(l, 1)];
    }
  }

  /** The first loop of get_consensus: tally the labels in order. Each
      count is the number of occurrences of its label. */
  method FillTally<L(==)>(labels: seq<L>) returns (counts: seq<Entry<L>>)
    ensures counts == Tally(labels)
    ensures forall i :: 0 <= i < |counts| ==> counts[i].count == Count(labels, counts[i].key)
  {
    counts := [];
    for i := 0 to |labels|
      invariant counts == Tally(labels[..i])
    {
      assert labels[..i + 1][..i] == labels[..i];
      counts := Increment(counts, labels[i]);
    }
    assert labels[..|labels|] == labels;
    TallyCounts(labels);
  }

  /** The second loop of get_consensus: the position of the first entry
      whose count reaches the threshold, or |counts| if none does. */
  method ScanTally<L>(counts: seq<Entry<L>>, required: nat) returns (k: nat)
    ensures k <= |counts|
    ensures k < |counts| ==> counts[k].count >= required
    ensures forall j :: 0 <= j < k ==> counts[j].count < required
  {
    k := 0;
    while k < |counts| && counts[k].count < required
      invariant k <= |counts|
      invariant forall j :: 0 <= j < k ==> counts[j].count < required
    {
      k := k + 1;
    }
  }

  /** The loops of get_consensus: fill the tally review by review, then
      return the first tallied label whose count reaches ceil(0.8 n). */
  method ComputeConsensus<L(==)>(labels: seq<L>) returns (r: Option<L>)
    ensures r == Supermajority(labels)
    ensures r.Some? ==> r.value in labels && Reaches(labels, r.value)
    ensures r.None? ==> forall i :: 0 <= i < |labels| ==> !Reaches(labels, labels[i])
  {
    var counts := FillTally(labels);
    var required := (4 * |labels| + 4) / 5;
    var k := ScanTally(counts, required);
    FirstMeetingUnique(counts, required, k);
    r := if k < |counts| then Some(counts[k].key) else None;
  }

  /** The first-meeting position is the only one with its two properties. */
  lemma FirstMeetingUnique<L>(t: seq<Entry<L>>, required: nat, k: nat)
    requires k <= |t|
    requires k < |t| ==> t[k].count >= required
    requires forall j :: 0 <= j < k ==> t[j].count < required
    ensures FirstMeeting(t, required) == k
  {
  }
}
