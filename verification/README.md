# Evidence consensus of the Quaerendo claims backend

Quaerendo stores claims, the evidence cited for them and reviews of that
evidence. When an evidence item is serialized, `EvidenceSerializer` derives
four read-only fields from its reviews:

- `expert_consensus_relationship` and `num_expert_reviews`, computed over the
  reviews whose reviewer is on the expert roster of the claim's topic;
- `community_consensus_relationship` and `num_community_reviews`, computed
  over all other reviews.

A pool's consensus is the relationship chosen by at least 80% of that pool.
The labels are counted into a dictionary in first-seen order. The threshold
is `ceil(n * 0.8)`. The first label whose count reaches it is returned, or
`SPLIT` if none does.

The project models this computation as pure functions over a sequence of
reviews and a set of expert reviewer ids. It also models the relationship
enumeration and the truncation rule of `Claim.__str__`.

| file | module | models |
|---|---|---|
| wrappers.dfy | `Wrappers` | `Option` and `Result` |
| models.dfy | `Models` | the relationship enumeration with the `Split` sentinel, its stored values, the review record, `Claim.__str__` |
| tally.dfy | `Tallies` | the insertion-ordered label dictionary and the counting facts about it |
| consensus.dfy | `Consensus` | the 80% threshold, the first-meeting scan, the supermajority and its loop form |
| pools.dfy | `Pools` | the expert/community partition of the reviews |
| serializers.dfy | `Serializers` | `get_consensus`, `get_num_reviews`, the four serialized fields |

Modelling decisions:

- A review is a reviewer id plus the relationship that reviewer deduced. The
  expert roster is a `set<nat>` parameter, and an empty set stands for a
  topic without experts.
- The tally is generic in the label type, so a stored value outside the
  enumeration would be counted like any other. The serializer instantiates
  it with the closed enumeration.
- The sentinel is the constructor `Split`. A review label is the subset type
  `ReviewLabel`, which excludes it.
- `ceil(n * 0.8)` is modelled as the least integer `r` with `5 * r >= 4 * n`,
  computed as `(4 * n + 4) / 5`. This is a modelling assumption about the
  floating-point expression, and it holds for `4n/5 < 2^52`.
  - The double nearest to 0.8 is `0.8 * (1 + 2^-54)`. The exact product
    `n * 0.8` therefore exceeds `4n/5` by `4n/5 * 2^-54`. That excess is
    below 1/4 and below half a unit in the last place of `4n/5`.
  - When `4n/5` is an integer, the product rounds back to it.
  - Otherwise `4n/5` lies at least 0.2 above the integer below it and at
    least 0.2 below the integer above it. A unit in the last place is at
    most 1/2 in this range, so the rounded product stays above the lower
    integer and at most the upper one, and both ceilings agree.
  - From `4n/5 >= 2^52` on, a unit in the last place is 1 and they can
    differ. For `n = 5629499534213124` the exact quotient `4n/5` is
    4503599627370499.2, the double product rounds down to
    4503599627370499, and `(4n + 4) / 5` is 4503599627370500.
- The pool keeps the reviews in their listed order. `ReorderingIrrelevant`
  shows that the order never matters, so the unspecified ordering of a
  database query is harmless.
- The code has no separate guard for an empty pool, and the model follows
  the code: an empty pool gives an empty tally, so the scan finds no label
  and the result is `Split` (`Consensus.EmptyPoolSplit`, `Serializers.SerializeConsensus`).

## Model

| member | source | states |
|---|---|---|
| Models.Value | api/models.py:42-67 | every relationship's stored value is non-empty and fits the 25-character columns of lines 54 and 67 that hold it |
| Models.FromChoice | api/models.py:42-48 | reading a stored string gives a choice whose value is that string, and gives nothing exactly when the string is none of the six choice values |
| Models.ChoicesClosed | api/models.py:42-48 | there are exactly six choices, with pairwise different values, and a relationship is a choice exactly when it is not the `Split` sentinel |
| Models.ChoiceRoundTrip | api/models.py:42-48 | storing a review label and reading it back gives the same label |
| Models.Take | api/models.py:36 | Python's `s[:n]` gives a prefix of `s` of length `min(len(s), n)` |
| Models.RStrip | api/models.py:36 | `rstrip(' ')` gives a prefix that does not end in a space, and it removes only spaces |
| Models.ClaimHead | api/models.py:36 | the head is a prefix of the claim text of at most 30 characters, does not end in a space, and only spaces of the first 30 characters were dropped |
| Models.StrippedPrefixUnique | api/models.py:36 | only one string satisfies that description, so the head is determined by it |
| Models.TruncatedClaim | api/models.py:36-38 | "..." follows the stripped head exactly when the text is longer than 30 characters; the result is at most 33 characters; text of at most 30 characters with no trailing space is shown unchanged |
| Models.ClaimStr | api/models.py:39 | the string is `Claim: "` followed by the truncated text, then `" (`, at most the first 30 characters of the source URL, and `)`; it is at most 75 characters long |
| Tallies.Bump | api/serializers.py:100-103 | one dictionary update keeps the keys distinct, adds one to the count of an existing key, appends a new key with count 1, and changes nothing else |
| Tallies.Tally | api/serializers.py:96-103 | the tally never holds a label twice |
| Tallies.TallyHasKey | api/serializers.py:99-103 | a label is a key of the tally exactly when some review in the pool chose it |
| Tallies.TallyCounts | api/serializers.py:99-103 | each tallied count equals the number of occurrences of its label in the pool |
| Tallies.TallyTotal | api/serializers.py:96-103 | the tallied counts add up to the pool size |
| Tallies.TallyFirstSeenOrder | api/serializers.py:99-104 | the dictionary is iterated in the order in which its labels first occur in the pool |
| Consensus.Required | api/serializers.py:98 | the threshold is the least integer `r` with `5r >= 4n`, that is `ceil(0.8 n)`, and is at most `n` |
| Consensus.FirstMeeting | api/serializers.py:104-106 | the scan stops at the first entry whose count reaches the threshold, and every earlier entry is below it |
| Consensus.AtMostOneWinner | api/serializers.py:98-106 | in a non-empty pool two labels that both reach 80% are the same label |
| Consensus.Supermajority | api/serializers.py:96-107 | the tally-and-scan of `get_consensus`: a returned label occurs in the pool and at least 80% of the pool chose it; nothing is returned exactly when no label of the pool reaches 80% |
| Consensus.TallyWinner | api/serializers.py:104-106 | the tally entry at which the scan stops is a label of the pool chosen by at least 80% of it |
| Consensus.TallyNoWinner | api/serializers.py:104-107 | when the scan passes every entry, no label of the pool reaches 80% |
| Consensus.SupermajorityCorrect | api/serializers.py:96-107 | the result is `l` exactly when `l` occurs with at least 80% support, and it is nothing exactly when no label of the pool has that support |
| Consensus.EmptyPoolSplit | api/serializers.py:96-107 | an empty pool has no consensus |
| Consensus.UnanimousPool | api/serializers.py:98-106 | a non-empty pool that agrees on one label returns that label |
| Consensus.OrderIrrelevant | api/serializers.py:99-106 | two pools with the same labels in any order get the same result, so the first-seen order never decides |
| Consensus.Increment | api/serializers.py:100-103 | the search-and-update step of the tally loop performs exactly one dictionary update |
| Consensus.FillTally | api/serializers.py:96-103 | after the first loop each dictionary count is the number of occurrences of its label |
| Consensus.ScanTally | api/serializers.py:104-106 | the second loop stops at the first count that reaches the threshold, with every earlier count below it |
| Consensus.ComputeConsensus | api/serializers.py:96-107 | the two loops of `get_consensus` (fill the tally, then scan it) return the supermajority label if there is one, and otherwise nothing |
| Pools.Pool | api/serializers.py:89-93 | every review in a pool has a reviewer of the requested kind, and the pool is no longer than the review list |
| Pools.PoolMultiset | api/serializers.py:89-93 | a pool keeps every review of its kind as often as it occurs, and no other review |
| Pools.PoolInsertOther | api/serializers.py:89-93 | a review by the other kind of reviewer, inserted anywhere, leaves the pool unchanged |
| Serializers.NumReviews | api/serializers.py:117-124 | the reported count is the size of the pool that the consensus is computed over |
| Serializers.GetConsensus | api/serializers.py:87-107 | a returned relationship was chosen in the pool by at least 80% of the pool's reviews; `Split` is returned exactly when no relationship chosen in the pool reaches 80% |
| Serializers.PoolsComplementary | api/serializers.py:117-124 | the expert and community pools are disjoint, together hold every review, and their counts add up to the number of reviews |
| Serializers.SerializeConsensus | api/serializers.py:109-130 | the two counts add up to the number of reviews; without reviews the fields are `Split, 0, Split, 0`; with an empty roster the expert fields are `Split` and 0 |
| Serializers.InsertIntoOtherPool | api/serializers.py:89-93 | adding a review by the other kind of reviewer changes neither this pool's consensus nor its count |
| Serializers.ReorderingIrrelevant | api/serializers.py:96-107 | listing the reviews in another order changes neither consensus nor count |
| Serializers.FourOfFiveScenario | api/serializers.py:96-107 | five expert reviews, four SUPPORTS and one DISPUTES, give expert consensus SUPPORTS with 5 reviews, and community `Split` with 0 |
| Serializers.FourOfFiveExperts | api/serializers.py:96-107 | with threshold 4 of 5, the expert pool of that example agrees on SUPPORTS |
| Serializers.ThreeWaySplitScenario | api/serializers.py:96-107 | three community reviews split PROVES/SUPPORTS/UNRELATED give `Split` |
| Serializers.GetConsensusAsWritten | api/serializers.py:107 | against the six-member enumeration, the method raises exactly when no relationship reaches 80%, and otherwise returns the same label as the corrected model |
| Serializers.NoReviewsRaisesAsWritten | api/serializers.py:96-107 | as written, an evidence item without reviews already raises at the `SPLIT` lookup |
| Serializers.SplitSentinelRepairs | api/serializers.py:104-107 | with the sentinel added, the method agrees with the code as written wherever that returns, and answers `Split` exactly where that raises |

## Left out

- The database traversal `obj.claim.topic.experts` and the queryset filters
  are replaced by a review sequence and a roster set. A later migration
  replaces `Claim.topic` with a many-to-many `topics`, so the traversal is
  schema plumbing rather than logic.
- The `create` methods of `ClaimCreateSerializer` and
  `EvidenceWithReviewSerializer` are persistence and request-context side
  effects.
- The plain field-mapping serializers and the schema decorators are
  declarative and have no behaviour.
- Consensus.Required: the floating-point product in `math.ceil(n * 0.8)` is
  replaced by the integer ceiling. Their agreement for `4n/5 < 2^52` is
  argued above but not proved in Dafny, and beyond that bound the source can
  return one less than the model.
- Serializers.SerializeConsensus: the source runs separate queries for each
  of the four fields (api/serializers.py:89-93 and 119-124, called from
  110-130). The model reads one review sequence and one roster. A count and
  the consensus beside it agree, and the two counts add up to the number of
  reviews, only when every query sees the same snapshot. Concurrent writes
  between the queries are not modelled.
- `Entity.__str__`, `Source.__str__` and `Evidence.__str__` are plain
  formatting. `Comment` and the generic foreign keys are library bound.
- `EvidenceReview.evidence` is implicit, because a review sequence belongs to
  one evidence item. `additional_comments` is never read by the computation.
- `Models.ClaimStr`: the 200-character limit of `claim_text` is a database
  constraint. It is not required, because the format is defined for any
  length.
- `Models.Take`: Python indexes strings by code point, and Dafny's `char` is
  a Unicode scalar value. The two agree on every string without lone
  surrogates.
- The frontend (`App.tsx`, `EvidenceDetails.tsx`, `MainTheme.ts`) is user
  interface and routing.

## Findings

| source | as written | input that shows it | evidently intended | confidence | as-written member | corrected member |
|---|---|---|---|---|---|---|
| api/serializers.py:107 | returns `EvidenceRelationship.SPLIT`, but the enumeration at api/models.py:42-48 has no `SPLIT` member, so the lookup raises `AttributeError` | an evidence item with no reviews, or three reviews split PROVES/SUPPORTS/UNRELATED | a `SPLIT` sentinel is returned when no label reaches 80% | low, not executed: the two files come from different revisions. serializers.py:7 imports `Topic`, and serializers.py:47-52 and 89 use `claim.topic` and `source_of_claim`, but this models.py defines no `Topic`, and its `Claim` has only `source` (api/models.py:27). With this pair the import fails before line 107 can run, and the models.py that serializers.py runs with may define `SPLIT` | `Serializers.GetConsensusAsWritten` (counterexample `Serializers.NoReviewsRaisesAsWritten`) | `Serializers.GetConsensus` (`Serializers.SplitSentinelRepairs`) |
