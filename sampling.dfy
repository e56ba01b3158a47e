/** Stratified sampling of a partition (`DataProcessor.perform_stratified_sampling`
    and its four helpers): the value-level specification of each step and
    the properties of their composition. The loops that carry the steps out
    are methods of `Processor.DataProcessor`. */
module Sampling {
  import opened Common

  // ---------------------------------------------------------------------
  // distribute_sample_size

  /** The relations drawn for one extra sample: numpy's choice without
      replacement of `sampleSize % n` of the n ids is the prefix of a
      random permutation of 0..n-1. */
  function Bonus(perm: seq<nat>, n: nat, sampleSize: nat): seq<nat>
    requires n > 0 && |perm| == n
  {
    perm[..sampleSize % n]
  }

  /** The quota of one relation: the even share, plus one for the relations
      drawn for the remainder. */
  function Quota(n: nat, sampleSize: nat, bonus: seq<nat>, relId: nat): nat
    requires n > 0
  {
    sampleSize / n + if relId in bonus then 1 else 0
  }

  /** The sum of `weights[i]` over the ids i < n that are in `ids`. */
  function SumWhere(n: nat, weights: map<nat, nat>, ids: set<nat>): nat
    requires forall i: nat :: i < n ==> i in weights
  {
    if n == 0 then 0
    else SumWhere(n - 1, weights, ids) + if n - 1 in ids then weights[n - 1] else 0
  }

  /** The number of ids i < n that are in `ids`. */
  function CountWhere(n: nat, ids: set<nat>): nat {
    if n == 0 then 0 else CountWhere(n - 1, ids) + if n - 1 in ids then 1 else 0
  }

  /** The ids of `ids` below n. */
  function IdsBelow(ids: set<nat>, n: nat): set<nat> {
    set i | i in ids && i < n
  }

  lemma {:induction false} CountWhereElements(n: nat, s: seq<nat>)
    requires Distinct(s) && forall k :: 0 <= k < |s| ==> s[k] < n
    ensures CountWhere(n, Elements<nat>(s)) == |s|
  {
    CountWhereIsCard(n, Elements<nat>(s));
    DistinctCard<nat>(s);
    forall x | x in Elements<nat>(s) ensures x < n {
      var k :| 0 <= k < |s| && s[k] == x;
    }
    assert Elements<nat>(s) == IdsBelow(Elements<nat>(s), n);
  }

  lemma {:induction false} CountWhereIsCard(n: nat, ids: set<nat>)
    ensures CountWhere(n, ids) == |IdsBelow(ids, n)|
  {
    if n > 0 {
      CountWhereIsCard(n - 1, ids);
      if n - 1 in ids {
        assert IdsBelow(ids, n) == IdsBelow(ids, n - 1) + {n - 1};
      } else {
        assert IdsBelow(ids, n) == IdsBelow(ids, n - 1);
      }
    } else {
      assert IdsBelow(ids, n) == {};
    }
  }

  /** The quotas of the first k ids are k even shares plus one per drawn id
      among them. */
  lemma {:induction false} QuotaPrefixSum(n: nat, sampleSize: nat, bonus: seq<nat>,
                                          sizes: map<nat, nat>, k: nat)
    requires 0 < n && k <= n
    requires forall i: nat :: i < n ==> i in sizes && sizes[i] == Quota(n, sampleSize, bonus, i)
    ensures SumWhere(k, sizes, Below(n)) == k * (sampleSize / n) + CountWhere(k, Elements<nat>(bonus))
  {
    if k > 0 {
      var q := sampleSize / n;
      QuotaPrefixSum(n, sampleSize, bonus, sizes, k - 1);
      assert k - 1 in Below(n);
      assert sizes[k - 1] == q + if k - 1 in Elements<nat>(bonus) then 1 else 0;
      assert (k - 1) * q + q == k * q;
    }
  }

  /** The quotas of all n relations add up to the sample size, and each is
      the even share or one more. */
  lemma QuotasSumToSampleSize(n: nat, sampleSize: nat, perm: seq<nat>, sizes: map<nat, nat>)
    requires 0 < n && IsPermutation(perm, n)
    requires forall i: nat :: i < n ==> i in sizes && sizes[i] == Quota(n, sampleSize, Bonus(perm, n, sampleSize), i)
    ensures SumWhere(n, sizes, Below(n)) == sampleSize
    ensures forall i: nat :: i < n ==> sizes[i] == sampleSize / n || sizes[i] == sampleSize / n + 1
  {
    var bonus := Bonus(perm, n, sampleSize);
    QuotaPrefixSum(n, sampleSize, bonus, sizes, n);
    assert Distinct(bonus) by {
      forall i, j | 0 <= i < j < |bonus| ensures bonus[i] != bonus[j] {
        assert bonus[i] == perm[i] && bonus[j] == perm[j];
      }
    }
    CountWhereElements(n, bonus);
  }

  // ---------------------------------------------------------------------
  // group_by_class

  /** The indices of the samples of class `c`, ascending. */
  function Members(rels: seq<nat>, c: nat): (r: seq<nat>)
    decreases |rels|
    ensures forall k :: 0 <= k < |r| ==> r[k] < |rels| && rels[r[k]] == c
    ensures forall i, j :: 0 <= i < j < |r| ==> r[i] < r[j]
  {
    if rels == [] then []
    else Members(rels[..|rels| - 1], c) + if rels[|rels| - 1] == c then [|rels| - 1] else []
  }

  /** Every sample of class `c` is a member of it. */
  lemma {:induction false} MembersComplete(rels: seq<nat>, c: nat)
    ensures forall k :: 0 <= k < |rels| && rels[k] == c ==> k in Members(rels, c)
    decreases |rels|
  {
    if rels != [] {
      var init := rels[..|rels| - 1];
      MembersComplete(init, c);
      forall k | 0 <= k < |rels| - 1 && rels[k] == c ensures k in Members(rels, c) {
        assert init[k] == c;
      }
    }
  }

  /** `group_by_class`: the classes in order of first occurrence, and each
      class's ascending member indices. */
  function Groups(rels: seq<nat>): map<nat, seq<nat>> {
    map c | c in rels :: Members(rels, c)
  }

  /** Grouping partitions the indices: every index is in the group of its
      own class and in no other, the groups are ascending, and the class
      order lists every class once. */
  lemma GroupsPartition(rels: seq<nat>)
    ensures Distinct(FirstOccurrences<nat>([], rels))
    ensures forall c :: c in FirstOccurrences<nat>([], rels) <==> c in Groups(rels)
    ensures forall k, c :: 0 <= k < |rels| && c in Groups(rels) ==>
      (k in Groups(rels)[c] <==> c == rels[k])
    ensures forall c, i, j :: c in Groups(rels) && 0 <= i < j < |Groups(rels)[c]| ==>
      Groups(rels)[c][i] < Groups(rels)[c][j]
  {
    FirstOccurrencesSpec<nat>([], rels);
    forall k, c | 0 <= k < |rels| && c in Groups(rels)
      ensures k in Groups(rels)[c] <==> c == rels[k]
    {
      MembersComplete(rels, c);
      if k in Groups(rels)[c] {
        var i :| 0 <= i < |Members(rels, c)| && Members(rels, c)[i] == k;
      }
    }
  }

  // ---------------------------------------------------------------------
  // sample_by_class

  /** Each class has a random permutation of its member positions. */
  ghost predicate WellDrawn(order: seq<nat>, groups: map<nat, seq<nat>>, perms: map<nat, seq<nat>>) {
    forall c :: c in order ==> c in groups && c in perms && IsPermutation(perms[c], |groups[c]|)
  }

  /** numpy's choice without replacement of `size` members of a group: the
      members at the first `size` positions of a random permutation. */
  function Picks(group: seq<nat>, size: nat, perm: seq<nat>): (r: seq<nat>)
    requires |perm| == |group| && forall k :: 0 <= k < |perm| ==> perm[k] < |group|
    ensures |r| == Min(size, |group|)
  {
    seq(Min(size, |group|), k requires 0 <= k < Min(size, |group|) => group[perm[k]])
  }

  /** The picks are distinct members of the group. */
  lemma PicksDistinct(group: seq<nat>, size: nat, perm: seq<nat>)
    requires IsPermutation(perm, |group|) && Distinct(group)
    ensures Distinct(Picks(group, size, perm))
    ensures forall k :: 0 <= k < |Picks(group, size, perm)| ==> Picks(group, size, perm)[k] in group
  {
    var r := Picks(group, size, perm);
    forall i, j | 0 <= i < j < |r| ensures r[i] != r[j] {
      assert perm[i] != perm[j];
    }
  }

  /** `sample_by_class`: a KeyError when a class has no quota, otherwise
      each class's picks. */
  function SampleByClass(order: seq<nat>, groups: map<nat, seq<nat>>, sizes: map<nat, nat>,
                         perms: map<nat, seq<nat>>): (r: Result<map<nat, seq<nat>>>)
    requires WellDrawn(order, groups, perms)
    ensures r.Success? <==> forall c :: c in order ==> c in sizes
    ensures r.Failure? ==> r.error == KeyError
    ensures r.Success? ==> r.value.Keys == Elements<nat>(order)
    ensures r.Success? ==> forall c :: c in order ==> |r.value[c]| == Min(sizes[c], |groups[c]|)
  {
    if forall c :: c in order ==> c in sizes then
      Success(map c | c in order :: Picks(groups[c], sizes[c], perms[c]))
    else Failure(KeyError)
  }

  // ---------------------------------------------------------------------
  // aggregate_sample_indices

  /** The picked indices, class after class in class order. */
  function Concat(order: seq<nat>, samples: map<nat, seq<nat>>): seq<nat>
    requires forall c :: c in order ==> c in samples
    decreases |order|
  {
    if order == [] then []
    else Concat(order[..|order| - 1], samples) + samples[order[|order| - 1]]
  }

  /** `aggregate_sample_indices`: numpy refuses to concatenate no arrays. */
  function Aggregate(order: seq<nat>, samples: map<nat, seq<nat>>): (r: Result<seq<nat>>)
    requires forall c :: c in order ==> c in samples
    ensures r.Failure? <==> order == []
    ensures r.Failure? ==> r.error == ValueError
  {
    if order == [] then Failure(ValueError) else Success(Concat(order, samples))
  }

  /** The sum over the classes of `order` of min(quota, class size). */
  function SumOfMins(order: seq<nat>, groups: map<nat, seq<nat>>, sizes: map<nat, nat>): nat
    requires forall c :: c in order ==> c in groups && c in sizes
    decreases |order|
  {
    if order == [] then 0
    else
      var c := order[|order| - 1];
      SumOfMins(order[..|order| - 1], groups, sizes) + Min(sizes[c], |groups[c]|)
  }

  /** The sampled indices point into the partition, no index is drawn
      twice, and class c contributes min(quota, |c|) of them. */
  lemma {:induction false} ConcatPicks(rels: seq<nat>, order: seq<nat>, sizes: map<nat, nat>,
                                       perms: map<nat, seq<nat>>)
    requires Distinct(order) && WellDrawn(order, Groups(rels), perms)
    requires forall c :: c in order ==> c in sizes
    ensures var samples := SampleByClass(order, Groups(rels), sizes, perms).value;
      var idx := Concat(order, samples);
      && |idx| == SumOfMins(order, Groups(rels), sizes)
      && Distinct(idx)
      && (forall k :: 0 <= k < |idx| ==> idx[k] < |rels| && rels[idx[k]] in order)
    decreases |order|
  {
    var groups := Groups(rels);
    var samples := SampleByClass(order, groups, sizes, perms).value;
    if order != [] {
      var init := order[..|order| - 1];
      var c := order[|order| - 1];
      assert WellDrawn(init, groups, perms);
      ConcatPicks(rels, init, sizes, perms);
      var initSamples := SampleByClass(init, groups, sizes, perms).value;
      assert Concat(init, samples) == Concat(init, initSamples) by {
        ConcatAgree(init, samples, initSamples);
      }
      var prev := Concat(init, samples);
      var picked := samples[c];
      assert Distinct(groups[c]);
      PicksDistinct(groups[c], sizes[c], perms[c]);
      assert forall k :: 0 <= k < |picked| ==> picked[k] < |rels| && rels[picked[k]] == c;
      assert c !in init;
      DistinctAppend(prev, picked, rels, init, c);
    }
  }

  lemma {:induction false} ConcatAgree(order: seq<nat>, a: map<nat, seq<nat>>, b: map<nat, seq<nat>>)
    requires forall c :: c in order ==> c in a && c in b && a[c] == b[c]
    ensures Concat(order, a) == Concat(order, b)
    decreases |order|
  {
    if order != [] {
      ConcatAgree(order[..|order| - 1], a, b);
    }
  }

  /** Appending picks of a class not seen before keeps the indices
      duplicate-free. */
  lemma DistinctAppend(prev: seq<nat>, picked: seq<nat>, rels: seq<nat>, init: seq<nat>, c: nat)
    requires Distinct(prev) && Distinct(picked) && c !in init
    requires forall k :: 0 <= k < |prev| ==> prev[k] < |rels| && rels[prev[k]] in init
    requires forall k :: 0 <= k < |picked| ==> picked[k] < |rels| && rels[picked[k]] == c
    ensures Distinct(prev + picked)
  {
    var s := prev + picked;
    forall i, j | 0 <= i < j < |s| ensures s[i] != s[j] {
      if i < |prev| && j >= |prev| {
        assert rels[s[i]] in init;
      }
    }
  }

  // ---------------------------------------------------------------------
  // Totals

  /** The sum along a sequence of classes of their weights. */
  function SumAlong(order: seq<nat>, weights: map<nat, nat>): nat
    requires forall c :: c in order ==> c in weights
    decreases |order|
  {
    if order == [] then 0 else SumAlong(order[..|order| - 1], weights) + weights[order[|order| - 1]]
  }

  lemma {:induction false} SumWhereAdd(n: nat, weights: map<nat, nat>, ids: set<nat>, c: nat)
    requires forall i: nat :: i < n ==> i in weights
    requires c !in ids
    ensures SumWhere(n, weights, ids + {c}) == SumWhere(n, weights, ids) + if c < n then weights[c] else 0
  {
    if n > 0 {
      SumWhereAdd(n - 1, weights, ids, c);
    }
  }

  lemma {:induction false} SumAlongIsSumWhere(order: seq<nat>, weights: map<nat, nat>, n: nat)
    requires Distinct(order) && forall k :: 0 <= k < |order| ==> order[k] < n
    requires forall i: nat :: i < n ==> i in weights
    ensures SumAlong(order, weights) == SumWhere(n, weights, Elements<nat>(order))
    decreases |order|
  {
    if order == [] {
      assert Elements<nat>(order) == {};
      SumWhereNone(n, weights);
    } else {
      var init := order[..|order| - 1];
      var c := order[|order| - 1];
      forall i, j | 0 <= i < j < |init| ensures init[i] != init[j] {
        assert init[i] == order[i] && init[j] == order[j];
      }
      SumAlongIsSumWhere(init, weights, n);
      var prev := Elements<nat>(init);
      assert Elements<nat>(order) == prev + {c};
      assert c !in prev;
      assert c < n;
      SumWhereAdd(n, weights, prev, c);

    }
  }

  lemma {:induction false} SumWhereNone(n: nat, weights: map<nat, nat>)
    requires forall i: nat :: i < n ==> i in weights
    ensures SumWhere(n, weights, {}) == 0
  {
    if n > 0 {
      SumWhereNone(n - 1, weights);
    }
  }

  lemma {:induction false} SumWhereMonotone(n: nat, weights: map<nat, nat>, ids: set<nat>, all: set<nat>)
    requires forall i: nat :: i < n ==> i in weights
    requires ids <= all
    ensures SumWhere(n, weights, ids) <= SumWhere(n, weights, all)
    ensures (forall i: nat :: i < n && i in all ==> i in ids) ==>
      SumWhere(n, weights, ids) == SumWhere(n, weights, all)
  {
    if n > 0 {
      SumWhereMonotone(n - 1, weights, ids, all);
    }
  }

  lemma {:induction false} SumOfMinsAtMostQuotas(order: seq<nat>, groups: map<nat, seq<nat>>, sizes: map<nat, nat>)
    requires forall c :: c in order ==> c in groups && c in sizes
    ensures SumOfMins(order, groups, sizes) <= SumAlong(order, sizes)
    ensures (forall c :: c in order ==> sizes[c] <= |groups[c]|) ==>
      SumOfMins(order, groups, sizes) == SumAlong(order, sizes)
    decreases |order|
  {
    if order != [] {
      SumOfMinsAtMostQuotas(order[..|order| - 1], groups, sizes);
    }
  }

  /** The stratified sample never exceeds the requested size; it reaches it
      exactly when every relation occurs in the partition at least as often
      as its quota. */
  lemma StratifiedTotal(n: nat, sampleSize: nat, perm: seq<nat>, sizes: map<nat, nat>,
                        order: seq<nat>, groups: map<nat, seq<nat>>)
    requires 0 < n && IsPermutation(perm, n)
    requires forall i: nat :: i < n ==> i in sizes && sizes[i] == Quota(n, sampleSize, Bonus(perm, n, sampleSize), i)
    requires Distinct(order) && forall c :: c in order ==> c in groups && c < n
    ensures SumOfMins(order, groups, sizes) <= sampleSize
    ensures (forall i: nat :: i < n ==> i in order) && (forall c :: c in order ==> sizes[c] <= |groups[c]|) ==>
      SumOfMins(order, groups, sizes) == sampleSize
  {
    QuotasSumToSampleSize(n, sampleSize, perm, sizes);
    SumOfMinsAtMostQuotas(order, groups, sizes);
    AlongAtMostTotal(n, sizes, order);
  }

  /** Summing the weights of distinct ids below n gives at most the sum of
      all n weights, and exactly that when every id is listed. */
  lemma AlongAtMostTotal(n: nat, sizes: map<nat, nat>, order: seq<nat>)
    requires forall i: nat :: i < n ==> i in sizes
    requires Distinct(order) && forall c :: c in order ==> c < n
    ensures SumAlong(order, sizes) <= SumWhere(n, sizes, Below(n))
    ensures (forall i: nat :: i < n ==> i in order) ==> SumAlong(order, sizes) == SumWhere(n, sizes, Below(n))
  {
    forall k | 0 <= k < |order| ensures order[k] < n {
      assert order[k] in order;
    }
    SumAlongIsSumWhere(order, sizes, n);
    assert Elements<nat>(order) <= Below(n);
    SumWhereMonotone(n, sizes, Elements<nat>(order), Below(n));
  }
}
