/**
 Model of the consensus fields of EvidenceSerializer (api/serializers.py):
 the reviews of one evidence item are split into the expert pool (reviewer
 on the topic's expert roster) and the community pool (everyone else); for
 each pool the serializer reports the consensus relationship and the number
 of reviews. The roster is a set of reviewer ids passed in; the database
 traversal that produces it is not modelled.
 */
module Serializers {
  import opened Wrappers
  import opened Models
  import opened Tallies
  import opened Consensus
  import opened Pools

  /** get_num_reviews: the number of reviews in the requested pool. */
  function NumReviews(reviews: seq<EvidenceReview>, experts: set<nat>, expert: bool): (n: nat)
    ensures n == |Pool(reviews, experts, expert)|
  {
    if |reviews| == 0 then 0
    else (if InPool(reviews[0], experts, expert) then 1 else 0) + NumReviews(reviews[1..], experts, expert)
  }

  /** Number of reviews of the requested pool that deduced relationship l. */
  function Votes(reviews: seq<EvidenceReview>, experts: set<nat>, expert: bool, l: EvidenceRelationship): (v: nat)
    ensures v <= NumReviews(reviews, experts, expert)
  {
    if |reviews| == 0 then 0
    else
      (if InPool(reviews[0], experts, expert) && reviews[0].deducedRelationship == l then 1 else 0)
        + Votes(reviews[1..], experts, expert, l)
  }

  /** No relationship chosen in the pool is chosen by at least 80% of it. */
  ghost predicate NoSupermajority(reviews: seq<EvidenceReview>, experts: set<nat>, expert: bool) {
    forall i :: 0 <= i < |reviews| && InPool(reviews[i], experts, expert) ==>
      5 * Votes(reviews, experts, expert, reviews[i].deducedRelationship) < 4 * NumReviews(reviews, experts, expert)
  }

  /** get_consensus: the relationship on which at least 80% of the pool
      agrees, or Split when there is none. A returned relationship is a
      real review label backed by a supermajority; Split is returned
      exactly when no relationship chosen in the pool has one. */
  function GetConsensus(reviews: seq<EvidenceReview>, experts: set<nat>, expert: bool): (c: EvidenceRelationship)
    ensures c != Split ==>
      && Votes(reviews, experts, expert, c) > 0
      && 5 * Votes(reviews, experts, expert, c) >= 4 * NumReviews(reviews, experts, expert)
    ensures c == Split <==> NoSupermajority(reviews, experts, expert)
  {
    var labels := Labels(Pool(reviews, experts, expert));
    LabelsNeverSplit(Pool(reviews, experts, expert));
    match Supermajority(labels)
    case Some(l) =>
      VotesAreCounts(reviews, experts, expert, l);
      VoterExists(reviews, experts, expert, l);
      l
    case None =>
      NoWinnerMeansSplit(reviews, experts, expert);
      Split
  }

  /** When the pool's labels have no supermajority, no relationship chosen
      in the pool reaches 80% of the votes. */
  lemma {:induction false} NoWinnerMeansSplit(reviews: seq<EvidenceReview>, experts: set<nat>, expert: bool)
    requires Supermajority(Labels(Pool(reviews, experts, expert))).None?
    ensures NoSupermajority(reviews, experts, expert)
  {
    var labels := Labels(Pool(reviews, experts, expert));
    forall i | 0 <= i < |reviews| && InPool(reviews[i], experts, expert)
      ensures 5 * Votes(reviews, experts, expert, reviews[i].deducedRelationship)
              < 4 * NumReviews(reviews, experts, expert)
    {
      var l := reviews[i].deducedRelationship;
      VotesAreCounts(reviews, experts, expert, l);
      PoolHasLabel(reviews, experts, expert, i);
      assert !Reaches(labels, labels[FirstIndex(labels, l)]);
    }
  }

  /** A relationship with a vote was chosen by some review of the pool. */
  lemma {:induction false} VoterExists(reviews: seq<EvidenceReview>, experts: set<nat>, expert: bool, l: EvidenceRelationship)
    requires Votes(reviews, experts, expert, l) > 0
    ensures exists i :: 0 <= i < |reviews| && InPool(reviews[i], experts, expert) && reviews[i].deducedRelationship == l
  {
    if !(InPool(reviews[0], experts, expert) && reviews[0].deducedRelationship == l) {
      VoterExists(reviews[1..], experts, expert, l);
      var j :| 0 <= j < |reviews[1..]| && InPool(reviews[1..][j], experts, expert) && reviews[1..][j].deducedRelationship == l;
      assert reviews[j + 1] == reviews[1..][j];
    }
  }

  /** A review of the pool contributes its label to the pool's labels. */
  lemma PoolHasLabel(reviews: seq<EvidenceReview>, experts: set<nat>, expert: bool, i: nat)
    requires i < |reviews| && InPool(reviews[i], experts, expert)
    ensures reviews[i].deducedRelationship in Labels(Pool(reviews, experts, expert))
  {
    var p := Pool(reviews, experts, expert);
    PoolMultiset(reviews, experts, expert);
    assert reviews[i] in multiset(reviews);
    assert reviews[i] in multiset(p);
    var j :| 0 <= j < |p| && p[j] == reviews[i];
    assert Labels(p)[j] == reviews[i].deducedRelationship;
  }

  /** The votes for l are the count of l among the pool's labels. */
  lemma {:induction false} VotesAreCounts(reviews: seq<EvidenceReview>, experts: set<nat>, expert: bool, l: EvidenceRelationship)
    ensures Votes(reviews, experts, expert, l) == Count(Labels(Pool(reviews, experts, expert)), l)
  {
    if |reviews| > 0 {
      var r := reviews[0];
      var rest := Pool(reviews[1..], experts, expert);
      VotesAreCounts(reviews[1..], experts, expert, l);
      if InPool(r, experts, expert) {
        PoolConsIn(reviews, experts, expert);
        LabelsCons(r, rest);
        CountCons(r.deducedRelationship, Labels(rest), l);
      } else {
        PoolConsOut(reviews, experts, expert);
      }
    }
  }

  /** The expert and community pools are disjoint and together hold every
      review, so the two reported counts add up to the number of reviews. */
  lemma {:induction false} PoolsComplementary(reviews: seq<EvidenceReview>, experts: set<nat>)
    ensures multiset(Pool(reviews, experts, true)) + multiset(Pool(reviews, experts, false)) == multiset(reviews)
    ensures multiset(Pool(reviews, experts, true)) !! multiset(Pool(reviews, experts, false))
    ensures NumReviews(reviews, experts, true) + NumReviews(reviews, experts, false) == |reviews|
  {
    var e := multiset(Pool(reviews, experts, true));
    var c := multiset(Pool(reviews, experts, false));
    PoolMultiset(reviews, experts, true);
    PoolMultiset(reviews, experts, false);
    assert e + c == multiset(reviews);
    forall r | r in e
      ensures r !in c
    {
    }
    assert |e + c| == |e| + |c|;
  }

  /** The consensus fields of a serialized evidence item. */
  datatype ConsensusFields = ConsensusFields(
    expertConsensus: EvidenceRelationship,
    numExpertReviews: nat,
    communityConsensus: EvidenceRelationship,
    numCommunityReviews: nat)

  /** The four consensus fields of EvidenceSerializer for one evidence item. */
  function SerializeConsensus(reviews: seq<EvidenceReview>, experts: set<nat>): (f: ConsensusFields)
    ensures f.numExpertReviews + f.numCommunityReviews == |reviews|
    ensures |reviews| == 0 ==> f == ConsensusFields(Split, 0, Split, 0)
    ensures experts == {} ==> f.numExpertReviews == 0 && f.expertConsensus == Split
  {
    PoolsComplementary(reviews, experts);
    ConsensusFields(
      GetConsensus(reviews, experts, true),
      NumReviews(reviews, experts, true),
      GetConsensus(reviews, experts, false),
      NumReviews(reviews, experts, false))
  }

  /** A review whose reviewer belongs to the other pool, inserted anywhere,
      changes neither this pool's consensus nor its count. */
  lemma {:induction false} InsertIntoOtherPool(reviews: seq<EvidenceReview>, experts: set<nat>, expert: bool, i: nat, r: EvidenceReview)
    requires i <= |reviews|
    requires !InPool(r, experts, expert)
    ensures GetConsensus(reviews[..i] + [r] + reviews[i..], experts, expert) == GetConsensus(reviews, experts, expert)
    ensures NumReviews(reviews[..i] + [r] + reviews[i..], experts, expert) == NumReviews(reviews, experts, expert)
  {
    PoolInsertOther(reviews, experts, expert, i, r);
    SamePoolSameFields(reviews[..i] + [r] + reviews[i..], reviews, experts, expert);
  }

  /** Both fields of a pool are functions of the pool alone. */
  lemma SamePoolSameFields(a: seq<EvidenceReview>, b: seq<EvidenceReview>, experts: set<nat>, expert: bool)
    requires Pool(a, experts, expert) == Pool(b, experts, expert)
    ensures GetConsensus(a, experts, expert) == GetConsensus(b, experts, expert)
    ensures NumReviews(a, experts, expert) == NumReviews(b, experts, expert)
  {
  }

  /** The order in which the reviews are listed never changes a pool's
      consensus or count, so the tally's first-seen order is immaterial. */
  lemma {:induction false} ReorderingIrrelevant(a: seq<EvidenceReview>, b: seq<EvidenceReview>, experts: set<nat>, expert: bool)
    requires multiset(a) == multiset(b)
    ensures GetConsensus(a, experts, expert) == GetConsensus(b, experts, expert)
    ensures NumReviews(a, experts, expert) == NumReviews(b, experts, expert)
  {
    var pa := Pool(a, experts, expert);
    var pb := Pool(b, experts, expert);
    PoolMultiset(a, experts, expert);
    PoolMultiset(b, experts, expert);
    assert multiset(pa) == multiset(pb);
    assert |pa| == |multiset(pa)| == |pb|;
    LabelsMultiset(pa, pb);
    OrderIrrelevant(Labels(pa), Labels(pb));
  }

  /** Five expert reviews, four SUPPORTS and one DISPUTES. */
  const FourOfFive: seq<EvidenceReview> :=
    [EvidenceReview(1, Supports), EvidenceReview(2, Supports), EvidenceReview(3, Supports),
     EvidenceReview(4, Supports), EvidenceReview(5, Disputes)]

  /** The threshold for five reviews is ceil(5 * 0.8) = 4, so the experts
      agree on SUPPORTS, and the community pool is empty. */
  lemma FourOfFiveScenario()
    ensures SerializeConsensus(FourOfFive, {1, 2, 3, 4, 5}) == ConsensusFields(Supports, 5, Split, 0)
  {
    var experts := {1, 2, 3, 4, 5};
    FourOfFiveExperts();
    assert NumReviews(FourOfFive, experts, false) == 0;
  }

  lemma FourOfFiveExperts()
    ensures GetConsensus(FourOfFive, {1, 2, 3, 4, 5}, true) == Supports
  {
    var experts := {1, 2, 3, 4, 5};
    assert NumReviews(FourOfFive, experts, true) == 5;
    assert Votes(FourOfFive, experts, true, Supports) == 4;
    assert !NoSupermajority(FourOfFive, experts, true);
  }

  /** Three community reviews split one-one-one: nobody reaches
      ceil(3 * 0.8) = 3, so the result is SPLIT. */
  lemma ThreeWaySplitScenario()
    ensures GetConsensus(
      [EvidenceReview(1, Proves), EvidenceReview(2, Supports), EvidenceReview(3, Unrelated)],
      {}, false) == Split
  {
    var reviews := [EvidenceReview(1, Proves), EvidenceReview(2, Supports), EvidenceReview(3, Unrelated)];
    assert NumReviews(reviews, {}, false) == 3;
    forall l: EvidenceRelationship
      ensures Votes(reviews, {}, false, l) <= 1
    {
    }
  }

  /** The exception raised by a lookup of a member the enumeration lacks. */
  datatype LookupError = AttributeError(name: string)

  /** get_consensus as written against the six-member enumeration, which
      has no SPLIT member: where no label reaches 80%, the lookup of
      EvidenceRelationship.SPLIT raises instead of returning. */
  function GetConsensusAsWritten(reviews: seq<EvidenceReview>, experts: set<nat>, expert: bool): (r: Result<ReviewLabel, LookupError>)
    ensures r.Failure? <==> NoSupermajority(reviews, experts, expert)
    ensures r.Success? ==> r.value == GetConsensus(reviews, experts, expert)
  {
    match Supermajority(Labels(Pool(reviews, experts, expert)))
    case Some(l) =>
      LabelsNeverSplit(Pool(reviews, experts, expert));
      assert GetConsensus(reviews, experts, expert) == l;
      Success(l)
    case None =>
      NoWinnerMeansSplit(reviews, experts, expert);
      Failure(AttributeError("SPLIT"))
  }

  /** An evidence item without reviews already takes the raising path. */
  lemma NoReviewsRaisesAsWritten(experts: set<nat>, expert: bool)
    ensures GetConsensusAsWritten([], experts, expert) == Failure(AttributeError("SPLIT"))
  {
  }

  /** With the sentinel in the enumeration, get_consensus is total: it
      agrees with the code as written wherever that returns, and answers
      Split exactly where that raises. */
  lemma SplitSentinelRepairs(reviews: seq<EvidenceReview>, experts: set<nat>, expert: bool)
    ensures match GetConsensusAsWritten(reviews, experts, expert)
      case Success(l) => GetConsensus(reviews, experts, expert) == l
      case Failure(_) => GetConsensus(reviews, experts, expert) == Split
  {
  }
}
