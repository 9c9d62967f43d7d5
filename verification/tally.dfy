/**
 The label tally of get_consensus: a dictionary from label to count, filled
 review by review, whose iteration order is the order in which labels were
 first seen. It is modelled as a sequence of entries with distinct keys.
 The label type is a parameter, so a value outside the enumeration would be
 tallied like any other.
 */
module Tallies {

  datatype Entry<L> = Entry(key: L, count: nat)

  /** Number of occurrences of l in labels. */
  function Count<L(==)>(labels: seq<L>, l: L): (c: nat)
    ensures c <= |labels|
    ensures c > 0 <==> l in labels
  {
    if |labels| == 0 then 0
    else Count(labels[..|labels| - 1], l) + (if labels[|labels| - 1] == l then 1 else 0)
  }

  /** Index of the first occurrence of l in xs. */
  function FirstIndex<L(==)>(xs: seq<L>, l: L): (k: nat)
    requires l in xs
    ensures k < |xs| && xs[k] == l
    ensures forall j :: 0 <= j < k ==> xs[j] != l
  {
    if xs[0] == l then 0 else 1 + FirstIndex(xs[1..], l)
  }

  /** The keys of a tally, in iteration order. */
  function Keys<L>(t: seq<Entry<L>>): (ks: seq<L>)
    ensures |ks| == |t|
    ensures forall i :: 0 <= i < |t| ==> ks[i] == t[i].key
  {
    if |t| == 0 then [] else Keys(t[..|t| - 1]) + [t[|t| - 1].key]
  }

  /** No label is a key twice. */
  ghost predicate DistinctKeys<L>(t: seq<Entry<L>>) {
    forall i, j :: 0 <= i < j < |t| ==> t[i].key != t[j].key
  }

  /** Sum of the counts of a tally. */
  function Total<L>(t: seq<Entry<L>>): (sum: nat) {
    if |t| == 0 then 0 else Total(t[..|t| - 1]) + t[|t| - 1].count
  }

  /** One dictionary update: the count of an existing key goes up by one,
      and a new key is inserted at the end with count one. */
  function Bump<L(==)>(t: seq<Entry<L>>, l: L): (t': seq<Entry<L>>)
    requires DistinctKeys(t)
    ensures DistinctKeys(t')
    ensures |t'| == if l in Keys(t) then |t| else |t| + 1
    ensures forall i :: 0 <= i < |t| ==>
      t'[i] == Entry(t[i].key, t[i].count + if t[i].key == l then 1 else 0)
    ensures l !in Keys(t) ==> t'[|t|] == Entry(l, 1)
  {
    if l in Keys(t) then
      var k := FirstIndex(Keys(t), l);
      t[k := Entry(l, t[k].count + 1)]
    else
      t + [Entry(l, 1)]
  }

  /** The tally of a sequence of labels, filled front to back. */
  function Tally<L(==)>(labels: seq<L>): (t: seq<Entry<L>>)
    ensures DistinctKeys(t)
  {
    if |labels| == 0 then [] else Bump(Tally(labels[..|labels| - 1]), labels[|labels| - 1])
  }

  /** The count of a label is its multiplicity in the labels. */
  lemma {:induction false} CountIsMultiplicity<L>(labels: seq<L>, l: L)
    ensures Count(labels, l) == multiset(labels)[l]
  {
    if |labels| > 0 {
      var front := labels[..|labels| - 1];
      assert labels == front + [labels[|labels| - 1]];
      CountIsMultiplicity(front, l);
    }
  }

  /** A label is a key of the tally exactly when it occurs in the labels. */
  lemma {:induction false} TallyHasKey<L>(labels: seq<L>, l: L)
    ensures l in Keys(Tally(labels)) <==> l in labels
  {
    if |labels| > 0 {
      var front := labels[..|labels| - 1];
      var x := labels[|labels| - 1];
      assert labels == front + [x];
      TallyHasKey(front, l);
      var t0 := Tally(front);
      var t := Bump(t0, x);
      if l in Keys(t0) {
        var k := FirstIndex(Keys(t0), l);
        assert Keys(t)[k] == l;
      }
      if l in Keys(t) {
        var k := FirstIndex(Keys(t), l);
        if k < |t0| {
          assert Keys(t0)[k] == l;
        }
      }
    }
  }

  /** Every entry of the tally holds the number of occurrences of its key. */
  lemma {:induction false} TallyCounts<L>(labels: seq<L>)
    ensures forall i :: 0 <= i < |Tally(labels)| ==>
      Tally(labels)[i].count == Count(labels, Tally(labels)[i].key)
  {
    if |labels| > 0 {
      var front := labels[..|labels| - 1];
      var x := labels[|labels| - 1];
      assert labels == front + [x];
      TallyCounts(front);
      TallyHasKey(front, x);
      var t0 := Tally(front);
      var t := Bump(t0, x);
      forall i | 0 <= i < |t|
        ensures t[i].count == Count(labels, t[i].key)
      {
        if i < |t0| {
          assert t[i].count == Count(front, t[i].key) + if t[i].key == x then 1 else 0;
        } else {
          assert t[i] == Entry(x, 1);
        }
      }
    }
  }

  /** Replacing one entry changes the total by the change in that entry. */
  lemma {:induction false} TotalUpdate<L>(t: seq<Entry<L>>, k: nat, e: Entry<L>)
    requires k < |t|
    ensures Total(t[k := e]) + t[k].count == Total(t) + e.count
  {
    var u := t[k := e];
    if k < |t| - 1 {
      assert u[..|u| - 1] == t[..|t| - 1][k := e];
      TotalUpdate(t[..|t| - 1], k, e);
    } else {
      assert u[..|u| - 1] == t[..|t| - 1];
    }
  }

  /** The counts of the tally add up to the number of labels. */
  lemma {:induction false} TallyTotal<L>(labels: seq<L>)
    ensures Total(Tally(labels)) == |labels|
  {
    if |labels| > 0 {
      var front := labels[..|labels| - 1];
      var x := labels[|labels| - 1];
      TallyTotal(front);
      var t0 := Tally(front);
      assert Tally(labels) == Bump(t0, x);
      if x in Keys(t0) {
        var k := FirstIndex(Keys(t0), x);
        assert Bump(t0, x) == t0[k := Entry(x, t0[k].count + 1)];
        TotalUpdate(t0, k, Entry(x, t0[k].count + 1));
      } else {
        var t := t0 + [Entry(x, 1)];
        assert Bump(t0, x) == t;
        assert t[..|t| - 1] == t0;
      }
    }
  }

  /** The tally iterates its keys in the order of their first occurrence:
      of two keys, the one met first in the labels comes first. */
  lemma {:induction false} TallyFirstSeenOrder<L>(labels: seq<L>, i: nat, j: nat)
    requires i < j < |Tally(labels)|
    ensures Tally(labels)[i].key in labels && Tally(labels)[j].key in labels
    ensures FirstIndex(labels, Tally(labels)[i].key) < FirstIndex(labels, Tally(labels)[j].key)
  {
    var front := labels[..|labels| - 1];
    var x := labels[|labels| - 1];
    assert labels == front + [x];
    var t0 := Tally(front);
    var t := Tally(labels);
    assert t == Bump(t0, x);
    var a := t[i].key;
    var b := t[j].key;
    assert a == t0[i].key;
    TallyHasKey(front, a);
    assert a in Keys(t0);
    FirstIndexPrefix(front, [x], a);
    if j < |t0| {
      assert b == t0[j].key;
      TallyFirstSeenOrder(front, i, j);
      FirstIndexPrefix(front, [x], b);
    } else {
      assert b == x && x !in Keys(t0);
      TallyHasKey(front, x);
      FirstIndexAppended(front, x);
    }
  }

  /** A label absent from xs is first met right after it. */
  lemma FirstIndexAppended<L>(xs: seq<L>, l: L)
    requires l !in xs
    ensures FirstIndex(xs + [l], l) == |xs|
  {
  }

  /** Appending does not move the first occurrence of a label already present. */
  lemma {:induction false} FirstIndexPrefix<L>(xs: seq<L>, ys: seq<L>, l: L)
    requires l in xs
    ensures FirstIndex(xs + ys, l) == FirstIndex(xs, l)
  {
    if xs[0] != l {
      assert (xs + ys)[1..] == xs[1..] + ys;
      FirstIndexPrefix(xs[1..], ys, l);
    }
  }

  /** Count distributes over concatenation. */
  lemma {:induction false} CountConcat<L>(a: seq<L>, b: seq<L>, l: L)
    ensures Count(a + b, l) == Count(a, l) + Count(b, l)
  {
    if |b| == 0 {
      assert a + b == a;
    } else {
      assert (a + b)[..|a + b| - 1] == a + b[..|b| - 1];
      CountConcat(a, b[..|b| - 1], l);
    }
  }

  lemma CountCons<L>(x: L, ys: seq<L>, l: L)
    ensures Count([x] + ys, l) == (if x == l then 1 else 0) + Count(ys, l)
  {
    CountConcat([x], ys, l);
    assert [x][..0] == [];
  }

  /** Taking out the element at position j takes one copy of it out of the multiset. */
  lemma MultisetRemoveAt<T>(b: seq<T>, j: nat)
    requires j < |b|
    ensures multiset(b) == multiset(b[..j] + b[j + 1..]) + multiset{b[j]}
  {
    assert b == b[..j] + [b[j]] + b[j + 1..];
  }

  /** Taking one matching element out of two permutations of each other
      leaves permutations of each other. */
  lemma RemoveMatching<T>(a: seq<T>, b: seq<T>, i: nat, j: nat)
    requires multiset(a) == multiset(b)
    requires i < |a| && j < |b| && a[i] == b[j]
    ensures multiset(a[..i] + a[i + 1..]) == multiset(b[..j] + b[j + 1..])
  {
    MultisetRemoveAt(a, i);
    MultisetRemoveAt(b, j);
    assert multiset(a[..i] + a[i + 1..]) == multiset(a) - multiset{a[i]};
    assert multiset(b[..j] + b[j + 1..]) == multiset(b) - multiset{b[j]};
  }
}
