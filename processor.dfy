/** `DataProcessor`: parses the partitions into samples while building the
    label hierarchy, samples a partition by relation class, and hands the
    enriched samples of one curriculum stage to a `Batcher`. The module
    holds the value-level specifications of the steps (the folds over a
    partition, the stratified sample, the iterator's data) and the class
    that performs them in place. */
module Processor {
  import opened Common
  import opened Samples
  import opened Hierarchy
  import opened Sampling
  import opened Batching
  import opened Curriculum
  import opened Batchers

  // ---------------------------------------------------------------------
  // Parsing

  /** The first failure of a fold is the fold's failure: once the prefix
      `data[..i]` has been absorbed and record i fails, so does the whole. */
  lemma {:induction false} AbsorbAllStopsAt(cfg: Config, vocab: Vocab, b: Build, data: seq<RawRecord>, i: nat)
    requires i < |data|
    requires AbsorbAll(cfg, vocab, b, data[..i]).Success?
    requires AbsorbRecord(cfg, vocab, AbsorbAll(cfg, vocab, b, data[..i]).value.0, data[i]).Failure?
    ensures AbsorbAll(cfg, vocab, b, data) ==
      Failure(AbsorbRecord(cfg, vocab, AbsorbAll(cfg, vocab, b, data[..i]).value.0, data[i]).error)
    decreases |data|
  {
    var init := data[..|data| - 1];
    if |data| == i + 1 {
      assert init == data[..i];
    } else {
      assert init[..i] == data[..i];
      AbsorbAllStopsAt(cfg, vocab, b, init, i);
    }
  }

  /** `preprocess_data`: every partition parsed in turn on the growing
      tables; a partition named twice keeps its last parse. */
  function ParseAll(cfg: Config, vocab: Vocab, b: Build, parts: seq<(string, seq<RawRecord>)>)
    : Result<(Build, map<string, seq<Sample>>)>
    decreases |parts|
  {
    if parts == [] then Success((b, map[]))
    else
      match ParseAll(cfg, vocab, b, parts[..|parts| - 1])
      case Failure(e) => Failure(e)
      case Success(prev) =>
        var last := parts[|parts| - 1];
        match AbsorbAll(cfg, vocab, prev.0, last.1)
        case Failure(e) => Failure(e)
        case Success(next) => Success((next.0, prev.1[last.0 := next.1]))
  }

  /** Parsing keeps the tables valid and only grows them. */
  lemma {:induction false} ParseAllValid(cfg: Config, vocab: Vocab, b: Build, parts: seq<(string, seq<RawRecord>)>)
    requires BuildValid(b, vocab)
    requires ParseAll(cfg, vocab, b, parts).Success?
    ensures BuildValid(ParseAll(cfg, vocab, b, parts).value.0, vocab)
    ensures Grows(b, ParseAll(cfg, vocab, b, parts).value.0)
    decreases |parts|
  {
    if parts != [] {
      var init := parts[..|parts| - 1];
      var last := parts[|parts| - 1];
      ParseAllValid(cfg, vocab, b, init);
      var prev := ParseAll(cfg, vocab, b, init).value;
      AbsorbAllKeepsValid(cfg, vocab, prev.0, last.1);
      AbsorbAllSamples(cfg, vocab, prev.0, last.1);
      GrowsTransitive(b, prev.0, AbsorbAll(cfg, vocab, prev.0, last.1).value.0);
    }
  }

  /** The parsed partitions are exactly the named ones. */
  lemma {:induction false} ParseAllNames(cfg: Config, vocab: Vocab, b: Build, parts: seq<(string, seq<RawRecord>)>)
    requires ParseAll(cfg, vocab, b, parts).Success?
    ensures forall name :: name in ParseAll(cfg, vocab, b, parts).value.1 <==>
      exists k :: 0 <= k < |parts| && parts[k].0 == name
    decreases |parts|
  {
    if parts != [] {
      var init := parts[..|parts| - 1];
      ParseAllNames(cfg, vocab, b, init);
      forall name | exists k :: 0 <= k < |parts| && parts[k].0 == name
        ensures name in ParseAll(cfg, vocab, b, parts).value.1
      {
        var k :| 0 <= k < |parts| && parts[k].0 == name;
        if k < |init| { assert init[k].0 == name; }
      }
      forall name | name in ParseAll(cfg, vocab, b, init).value.1
        ensures exists k :: 0 <= k < |parts| && parts[k].0 == name
      {
        var k :| 0 <= k < |init| && init[k].0 == name;
        assert parts[k].0 == name;
      }
    }
  }

  /** Every parsed sample, of every partition, is a sample of the final
      tables. */
  lemma {:induction false} ParseAllSamples(cfg: Config, vocab: Vocab, b: Build, parts: seq<(string, seq<RawRecord>)>)
    requires BuildValid(b, vocab)
    requires ParseAll(cfg, vocab, b, parts).Success?
    ensures var r := ParseAll(cfg, vocab, b, parts).value;
      forall name, k :: name in r.1 && 0 <= k < |r.1[name]| ==> SampleFrom(r.1[name][k], r.0, cfg.relationMasking)
    decreases |parts|
  {
    if parts != [] {
      var init := parts[..|parts| - 1];
      var last := parts[|parts| - 1];
      ParseAllSamples(cfg, vocab, b, init);
      ParseAllValid(cfg, vocab, b, init);
      var prev := ParseAll(cfg, vocab, b, init).value;
      AbsorbAllSamples(cfg, vocab, prev.0, last.1);
      var next := AbsorbAll(cfg, vocab, prev.0, last.1).value;
      forall name, k | name in prev.1 && 0 <= k < |prev.1[name]|
        ensures SampleFrom(prev.1[name][k], next.0, cfg.relationMasking)
      {
        SampleFromGrows(prev.1[name][k], prev.0, next.0, cfg.relationMasking);
      }
    }
  }

  /** The reversed subject-object map closed by every unobserved triple of
      the product, mapped to no_relation, is the closed triple map. */
  lemma ClosedByUnused(t: LabelTables, reversed: map<Triple, string>, closed: map<Triple, string>)
    requires IsReverse(t.subjObj2Triples, reversed)
    requires closed.Keys == reversed.Keys + (AllTriples(t) - reversed.Keys)
    requires forall tr :: tr in reversed ==> closed[tr] == reversed[tr]
    requires forall tr :: tr in AllTriples(t) - reversed.Keys ==> closed[tr] == NO_RELATION
    ensures ClosedTripleMap(t, closed)
  {
    forall tr | tr in closed ensures Grouped(t.subjObj2Triples, tr) || tr in AllTriples(t) {
      if tr in reversed {
        assert tr in t.subjObj2Triples[reversed[tr]];
      }
    }
  }

  // ---------------------------------------------------------------------
  // Stratified sampling of a partition

  /** The relation id of every sample. */
  function Rels(data: seq<Sample>): (rels: seq<nat>)
    ensures |rels| == |data|
    ensures forall k :: 0 <= k < |data| ==> rels[k] == data[k].base.relation
  {
    seq(|data|, k requires 0 <= k < |data| => data[k].base.relation)
  }

  /** The random draws of one stratified sample: a permutation of the n
      relation ids for the remainder, and one of each class's members. */
  ghost predicate Drawable(n: nat, data: seq<Sample>, bonusPerm: seq<nat>, classPerms: map<nat, seq<nat>>) {
    && (n > 0 ==> IsPermutation(bonusPerm, n))
    && WellDrawn(FirstOccurrences<nat>([], Rels(data)), Groups(Rels(data)), classPerms)
  }

  /** `distribute_sample_size` for the ids `ids` of n relations. */
  function Quotas(n: nat, sampleSize: nat, bonusPerm: seq<nat>, ids: set<nat>): map<nat, nat>
    requires n > 0 && |bonusPerm| == n
  {
    map i | i in ids :: Quota(n, sampleSize, Bonus(bonusPerm, n, sampleSize), i)
  }

  /** The samples at the given indices. */
  function Gather(data: seq<Sample>, idx: seq<nat>): (r: seq<Sample>)
    requires forall k :: 0 <= k < |idx| ==> idx[k] < |data|
    ensures |r| == |idx|
  {
    seq(|idx|, k requires 0 <= k < |idx| => data[idx[k]])
  }

  /** `perform_stratified_sampling` over relation table `rel2id`: a
      ZeroDivisionError with no relations, a KeyError when a sample's
      relation has no quota, a ValueError for an empty partition. */
  function Stratified(rel2id: map<string, nat>, sampleSize: nat, bonusPerm: seq<nat>,
                      data: seq<Sample>, classPerms: map<nat, seq<nat>>): Result<seq<Sample>>
    requires Drawable(|rel2id|, data, bonusPerm, classPerms)
  {
    var n := |rel2id|;
    if n == 0 then Failure(ZeroDivisionError)
    else
      var sizes := Quotas(n, sampleSize, bonusPerm, rel2id.Values);
      var rels := Rels(data);
      var order := FirstOccurrences<nat>([], rels);
      match SampleByClass(order, Groups(rels), sizes, classPerms)
      case Failure(e) => Failure(e)
      case Success(samples) =>
        FirstOccurrencesSpec<nat>([], rels);
        ConcatPicks(rels, order, sizes, classPerms);
        match Aggregate(order, samples)
        case Failure(e) => Failure(e)
        case Success(idx) => Success(Gather(data, idx))
  }

  /** The stratified sample fails exactly in the three cases above. */
  lemma StratifiedFails(rel2id: map<string, nat>, sampleSize: nat, bonusPerm: seq<nat>,
                        data: seq<Sample>, classPerms: map<nat, seq<nat>>)
    requires Drawable(|rel2id|, data, bonusPerm, classPerms)
    ensures var r := Stratified(rel2id, sampleSize, bonusPerm, data, classPerms);
      && (r == Failure(ZeroDivisionError) <==> |rel2id| == 0)
      && (r == Failure(KeyError) <==> |rel2id| > 0 && exists k :: 0 <= k < |data| && data[k].base.relation !in rel2id.Values)
      && (r == Failure(ValueError) <==>
            |rel2id| > 0 && data == [])
      && (r.Failure? ==> r.error in {ZeroDivisionError, KeyError, ValueError})
  {
    var n := |rel2id|;
    if n > 0 {
      var sizes := Quotas(n, sampleSize, bonusPerm, rel2id.Values);
      var rels := Rels(data);
      var order := FirstOccurrences<nat>([], rels);
      FirstOccurrencesSpec<nat>([], rels);
      if exists k :: 0 <= k < |data| && data[k].base.relation !in rel2id.Values {
        var k :| 0 <= k < |data| && data[k].base.relation !in rel2id.Values;
        assert rels[k] in order;
      } else {
        forall c | c in order ensures c in sizes {
          assert c in rels;
          var k :| 0 <= k < |rels| && rels[k] == c;
        }
        if data != [] {
          assert rels[0] in order;
        }
      }
    }
  }

  /** A successful stratified sample is made of distinct samples of the
      partition, class c contributing min(quota, |c|) of them, and is no
      longer than the partition. */
  lemma StratifiedPicks(rel2id: map<string, nat>, sampleSize: nat, bonusPerm: seq<nat>,
                        data: seq<Sample>, classPerms: map<nat, seq<nat>>)
    requires Drawable(|rel2id|, data, bonusPerm, classPerms)
    requires Stratified(rel2id, sampleSize, bonusPerm, data, classPerms).Success?
    ensures var r := Stratified(rel2id, sampleSize, bonusPerm, data, classPerms).value;
      && (exists idx: seq<nat> :: Distinct(idx) && (forall k :: 0 <= k < |idx| ==> idx[k] < |data|) && r == Gather(data, idx))
      && |r| == SumOfMins(FirstOccurrences<nat>([], Rels(data)), Groups(Rels(data)),
                          Quotas(|rel2id|, sampleSize, bonusPerm, rel2id.Values))
      && |r| <= |data|
  {
    var n := |rel2id|;
    var sizes := Quotas(n, sampleSize, bonusPerm, rel2id.Values);
    var rels := Rels(data);
    var order := FirstOccurrences<nat>([], rels);
    FirstOccurrencesSpec<nat>([], rels);
    ConcatPicks(rels, order, sizes, classPerms);
    var idx := Concat(order, SampleByClass(order, Groups(rels), sizes, classPerms).value);
    DistinctCard(idx);
    assert Elements(idx) <= Below(|data|);
    SubsetCard(Elements(idx), Below(|data|));
  }

  lemma {:induction false} SubsetCard<T>(a: set<T>, b: set<T>)
    requires a <= b
    ensures |a| <= |b|
    decreases a
  {
    if a != {} {
      var x :| x in a;
      SubsetCard(a - {x}, b - {x});
    }
  }

  /** With relation ids 0..n-1 a stratified sample is no longer than the
      requested size, and exactly as long when every relation occurs in the
      partition at least as often as its quota. */
  lemma StratifiedSize(rel2id: map<string, nat>, sampleSize: nat, bonusPerm: seq<nat>,
                       data: seq<Sample>, classPerms: map<nat, seq<nat>>)
    requires Drawable(|rel2id|, data, bonusPerm, classPerms)
    requires Stratified(rel2id, sampleSize, bonusPerm, data, classPerms).Success?
    requires rel2id.Values == Below(|rel2id|)
    ensures var r := Stratified(rel2id, sampleSize, bonusPerm, data, classPerms).value;
      var sizes := Quotas(|rel2id|, sampleSize, bonusPerm, rel2id.Values);
      && |r| <= sampleSize
      && ((forall i: nat :: i < |rel2id| ==> i in Rels(data) && sizes[i] <= |Groups(Rels(data))[i]|) ==>
            |r| == sampleSize)
  {
    var n := |rel2id|;
    var sizes := Quotas(n, sampleSize, bonusPerm, rel2id.Values);
    var rels := Rels(data);
    var order := FirstOccurrences<nat>([], rels);
    var groups := Groups(rels);
    var r := Stratified(rel2id, sampleSize, bonusPerm, data, classPerms).value;
    FirstOccurrencesSpec<nat>([], rels);
    assert forall c :: c in rels ==> c < n by {
      StratifiedFails(rel2id, sampleSize, bonusPerm, data, classPerms);
    }
    assert |r| == SumOfMins(order, groups, sizes) by {
      StratifiedPicks(rel2id, sampleSize, bonusPerm, data, classPerms);
    }
    QuotaTotal(n, sampleSize, bonusPerm, rel2id.Values, rels, order, groups, sizes);
  }

  /** The sum of min(quota, |class|) over the classes of a partition whose
      relation ids are below n. */
  lemma QuotaTotal(n: nat, sampleSize: nat, bonusPerm: seq<nat>, ids: set<nat>, rels: seq<nat>,
                   order: seq<nat>, groups: map<nat, seq<nat>>, sizes: map<nat, nat>)
    requires n > 0 && IsPermutation(bonusPerm, n)
    requires ids == Below(n) && sizes == Quotas(n, sampleSize, bonusPerm, ids)
    requires groups == Groups(rels)
    requires Distinct(order) && forall c :: c in order <==> c in rels
    requires forall c :: c in rels ==> c < n
    ensures SumOfMins(order, groups, sizes) <= sampleSize
    ensures (forall i: nat :: i < n ==> i in rels && sizes[i] <= |groups[i]|) ==>
      SumOfMins(order, groups, sizes) == sampleSize
  {
    StratifiedTotal(n, sampleSize, bonusPerm, sizes, order, groups);
  }

  // ---------------------------------------------------------------------
  // The iterator's data

  /** The partition a name selects; `partitions` is a defaultdict, so a
      missing name reads as an empty partition. */
  function PartitionOf(partitions: map<string, seq<Sample>>, name: string): seq<Sample> {
    if name in partitions then partitions[name] else []
  }

  /** The partition after the optional stratified sample. */
  function Sampled(cfg: Config, rel2id: map<string, nat>, data: seq<Sample>,
                   bonusPerm: seq<nat>, classPerms: map<nat, seq<nat>>): Result<seq<Sample>>
    requires cfg.sampleSize.Some? ==> Drawable(|rel2id|, data, bonusPerm, classPerms)
  {
    if cfg.sampleSize.None? then Success(data)
    else Stratified(rel2id, cfg.sampleSize.value, bonusPerm, data, classPerms)
  }

  /** What `create_iterator` hands to the Batcher: the stage's view and the
      enriched samples, or the first error on the way there, including the
      Batcher's label lookup and its refusal of a zero batch size. */
  function IteratorData(cfg: Config, b: Build, d: Derived, numRel: nat, data: seq<Sample>, masking: bool,
                        stageName: string, bonusPerm: seq<nat>, classPerms: map<nat, seq<nat>>)
    : Result<(View, seq<Sample>)>
    requires cfg.sampleSize.Some? ==> Drawable(|b.tables.rel2id|, data, bonusPerm, classPerms)
  {
    match Sampled(cfg, b.tables.rel2id, data, bonusPerm, classPerms)
    case Failure(e) => Failure(e)
    case Success(sampled) =>
      match ParseStage(stageName)
      case None => Failure(ValueError)
      case Some(stage) =>
        var v := StageView(stage, b.tables, d);
        match EnrichAll(v, numRel, masking, b.graph, sampled)
        case Failure(e) => Failure(e)
        case Success(cleaned) =>
          if Labels(v, cleaned).Failure? then Failure(KeyError)
          else if cfg.batchSize == 0 then Failure(ValueError)
          else Success((v, cleaned))
  }

  /** The sampled partition is made of samples of the partition and is no
      longer than it. */
  lemma SampledFromPartition(cfg: Config, rel2id: map<string, nat>, data: seq<Sample>,
                             bonusPerm: seq<nat>, classPerms: map<nat, seq<nat>>)
    requires cfg.sampleSize.Some? ==> Drawable(|rel2id|, data, bonusPerm, classPerms)
    requires Sampled(cfg, rel2id, data, bonusPerm, classPerms).Success?
    ensures var s := Sampled(cfg, rel2id, data, bonusPerm, classPerms).value;
      |s| <= |data| && forall k :: 0 <= k < |s| ==> s[k] in data
  {
    if cfg.sampleSize.Some? {
      StratifiedPicks(rel2id, cfg.sampleSize.value, bonusPerm, data, classPerms);
      var s := Sampled(cfg, rel2id, data, bonusPerm, classPerms).value;
      var idx: seq<nat> :| Distinct(idx) && (forall k :: 0 <= k < |idx| ==> idx[k] < |data|) && s == Gather(data, idx);
      forall k | 0 <= k < |s| ensures s[k] in data {
        assert s[k] == data[idx[k]];
      }
    }
  }

  /** On the processor's own samples, sampling fails only on an empty
      partition. */
  lemma SampledSucceeds(cfg: Config, vocab: Vocab, b: Build, data: seq<Sample>,
                        bonusPerm: seq<nat>, classPerms: map<nat, seq<nat>>)
    requires BuildValid(b, vocab)
    requires forall k :: 0 <= k < |data| ==> SampleFrom(data[k], b, cfg.relationMasking)
    requires cfg.sampleSize.Some? ==> Drawable(|b.tables.rel2id|, data, bonusPerm, classPerms)
    ensures Sampled(cfg, b.tables.rel2id, data, bonusPerm, classPerms).Success? <==>
      (cfg.sampleSize.Some? ==> data != [])
  {
    if cfg.sampleSize.Some? {
      var rel2id := b.tables.rel2id;
      StratifiedFails(rel2id, cfg.sampleSize.value, bonusPerm, data, classPerms);
      forall k | 0 <= k < |data| ensures data[k].base.relation in rel2id.Values {
        assert data[k].base.relation < |rel2id|;
      }
      if data != [] {
        assert data[0].base.relation < |rel2id|;
      }
    }
  }

  /** The sampled partition is made of the processor's own samples. */
  lemma SampledSamples(cfg: Config, b: Build, data: seq<Sample>,
                       bonusPerm: seq<nat>, classPerms: map<nat, seq<nat>>)
    requires forall k :: 0 <= k < |data| ==> SampleFrom(data[k], b, cfg.relationMasking)
    requires cfg.sampleSize.Some? ==> Drawable(|b.tables.rel2id|, data, bonusPerm, classPerms)
    requires Sampled(cfg, b.tables.rel2id, data, bonusPerm, classPerms).Success?
    ensures var s := Sampled(cfg, b.tables.rel2id, data, bonusPerm, classPerms).value;
      forall k :: 0 <= k < |s| ==> SampleFrom(s[k], b, cfg.relationMasking)
  {
    SampledFromPartition(cfg, b.tables.rel2id, data, bonusPerm, classPerms);
    var s := Sampled(cfg, b.tables.rel2id, data, bonusPerm, classPerms).value;
    forall k | 0 <= k < |s| ensures SampleFrom(s[k], b, cfg.relationMasking) {
      var j :| 0 <= j < |data| && data[j] == s[k];
    }
  }

  /** Enriching the processor's own samples succeeds and every label the
      Batcher looks up resolves. */
  lemma CleanedLabels(stage: Stage, b: Build, vocab: Vocab, d: Derived, cfgMasking: bool,
                      masking: bool, data: seq<Sample>)
    requires BuildValid(b, vocab) && DerivedFrom(b.tables, d)
    requires forall k :: 0 <= k < |data| ==> SampleFrom(data[k], b, cfgMasking)
    requires masking ==> cfgMasking
    ensures EnrichAll(StageView(stage, b.tables, d), |b.tables.rel2id|, masking, b.graph, data).Success?
    ensures Labels(StageView(stage, b.tables, d),
                   EnrichAll(StageView(stage, b.tables, d), |b.tables.rel2id|, masking, b.graph, data).value).Success?
  {
    var v := StageView(stage, b.tables, d);
    var numRel := |b.tables.rel2id|;
    EnrichAllSucceeds(stage, b, vocab, d, cfgMasking, masking, data);
    var cleaned := EnrichAll(v, numRel, masking, b.graph, data).value;
    EnrichAllSpec(v, numRel, masking, b.graph, data);
    forall k | 0 <= k < |cleaned| ensures LabelOf(v, cleaned[k].supplemental.triple).Success? {
      LabelsResolve(stage, b, vocab, d, cfgMasking, masking, data[k]);
    }
  }

  /** The enriched samples of the processor can be batched. */
  lemma CleanedBatchable(v: View, numRel: nat, masking: bool, b: Build, cfgMasking: bool,
                         data: seq<Sample>)
    requires forall k :: 0 <= k < |data| ==> SampleFrom(data[k], b, cfgMasking)
    requires EnrichAll(v, numRel, masking, b.graph, data).Success?
    ensures Batchable(EnrichAll(v, numRel, masking, b.graph, data).value)
  {
    EnrichedBatchable(v, numRel, masking, b.graph, data);
  }

  /** `create_iterator` on the processor's own partition succeeds when the
      partition is non-empty or not sampled, the stage is known, the batch
      size is not zero, and masking is asked for only when the processor
      recorded it or the sample is empty. */
  lemma IteratorSucceeds(cfg: Config, vocab: Vocab, b: Build, d: Derived, data: seq<Sample>, masking: bool,
                         stageName: string, bonusPerm: seq<nat>, classPerms: map<nat, seq<nat>>)
    requires BuildValid(b, vocab) && DerivedFrom(b.tables, d)
    requires forall k :: 0 <= k < |data| ==> SampleFrom(data[k], b, cfg.relationMasking)
    requires cfg.sampleSize.Some? ==> Drawable(|b.tables.rel2id|, data, bonusPerm, classPerms)
    requires cfg.sampleSize.Some? ==> data != []
    requires ParseStage(stageName).Some? && cfg.batchSize != 0
    requires masking && !cfg.relationMasking ==> Sampled(cfg, b.tables.rel2id, data, bonusPerm, classPerms) == Success([])
    ensures IteratorData(cfg, b, d, |b.tables.rel2id|, data, masking, stageName, bonusPerm, classPerms).Success?
  {
    SampledSucceeds(cfg, vocab, b, data, bonusPerm, classPerms);
    var sampled := Sampled(cfg, b.tables.rel2id, data, bonusPerm, classPerms).value;
    var stage := ParseStage(stageName).value;
    var v := StageView(stage, b.tables, d);
    var numRel := |b.tables.rel2id|;
    if masking && !cfg.relationMasking {
      assert EnrichAll(v, numRel, masking, b.graph, sampled) == Success([]);
      assert Labels(v, []).Success?;
    } else {
      SampledSamples(cfg, b, data, bonusPerm, classPerms);
      CleanedLabels(stage, b, vocab, d, cfg.relationMasking, masking, sampled);
    }
    IteratorDataFrom(cfg, b, d, numRel, data, masking, stageName, bonusPerm, classPerms, sampled, stage);
  }

  /** The iterator's data, from the outcome of each of its steps. */
  lemma IteratorDataFrom(cfg: Config, b: Build, d: Derived, numRel: nat, data: seq<Sample>, masking: bool,
                         stageName: string, bonusPerm: seq<nat>, classPerms: map<nat, seq<nat>>,
                         sampled: seq<Sample>, stage: Stage)
    requires cfg.sampleSize.Some? ==> Drawable(|b.tables.rel2id|, data, bonusPerm, classPerms)
    requires Sampled(cfg, b.tables.rel2id, data, bonusPerm, classPerms) == Success(sampled)
    requires ParseStage(stageName) == Some(stage)
    requires EnrichAll(StageView(stage, b.tables, d), numRel, masking, b.graph, sampled).Success?
    requires Labels(StageView(stage, b.tables, d),
                    EnrichAll(StageView(stage, b.tables, d), numRel, masking, b.graph, sampled).value).Success?
    requires cfg.batchSize != 0
    ensures IteratorData(cfg, b, d, numRel, data, masking, stageName, bonusPerm, classPerms) ==
      Success((StageView(stage, b.tables, d), EnrichAll(StageView(stage, b.tables, d), numRel, masking, b.graph, sampled).value))
  {
  }

  /** The converse: each of those conditions is needed. */
  lemma IteratorFails(cfg: Config, vocab: Vocab, b: Build, d: Derived, data: seq<Sample>, masking: bool,
                      stageName: string, bonusPerm: seq<nat>, classPerms: map<nat, seq<nat>>)
    requires BuildValid(b, vocab)
    requires forall k :: 0 <= k < |data| ==> SampleFrom(data[k], b, cfg.relationMasking)
    requires cfg.sampleSize.Some? ==> Drawable(|b.tables.rel2id|, data, bonusPerm, classPerms)
    requires IteratorData(cfg, b, d, |b.tables.rel2id|, data, masking, stageName, bonusPerm, classPerms).Success?
    ensures cfg.sampleSize.Some? ==> data != []
    ensures ParseStage(stageName).Some? && cfg.batchSize != 0
    ensures masking && !cfg.relationMasking ==> Sampled(cfg, b.tables.rel2id, data, bonusPerm, classPerms) == Success([])
  {
    SampledSucceeds(cfg, vocab, b, data, bonusPerm, classPerms);
    if masking && !cfg.relationMasking {
      SampledSamples(cfg, b, data, bonusPerm, classPerms);
      var sampled := Sampled(cfg, b.tables.rel2id, data, bonusPerm, classPerms).value;
      MaskingUnrecorded(StageView(ParseStage(stageName).value, b.tables, d), |b.tables.rel2id|, b, sampled);
    }
  }

  /** Asking for masking on samples parsed without it fails on the first
      sample. */
  lemma MaskingUnrecorded(v: View, numRel: nat, b: Build, data: seq<Sample>)
    requires forall k :: 0 <= k < |data| ==> SampleFrom(data[k], b, false)
    ensures EnrichAll(v, numRel, true, b.graph, data).Success? ==> data == []
  {
    EnrichAllSpec(v, numRel, true, b.graph, data);
    if data != [] {
      assert data[0].supplemental.relationMasking.None?;
    }
  }

  // ---------------------------------------------------------------------
  // Facts about the loops' prefixes

  /** A partition that fails to parse makes the whole parse fail. */
  lemma {:induction false} ParseAllStopsAt(cfg: Config, vocab: Vocab, b: Build,
                                           parts: seq<(string, seq<RawRecord>)>, i: nat)
    requires i < |parts|
    requires ParseAll(cfg, vocab, b, parts[..i]).Success?
    requires AbsorbAll(cfg, vocab, ParseAll(cfg, vocab, b, parts[..i]).value.0, parts[i].1).Failure?
    ensures ParseAll(cfg, vocab, b, parts) ==
      Failure(AbsorbAll(cfg, vocab, ParseAll(cfg, vocab, b, parts[..i]).value.0, parts[i].1).error)
    decreases |parts|
  {
    var init := parts[..|parts| - 1];
    if |parts| == i + 1 {
      assert init == parts[..i];
    } else {
      assert init[..i] == parts[..i];
      ParseAllStopsAt(cfg, vocab, b, init, i);
    }
  }

  /** Parsing fails only on an unknown entity type, with a KeyError. */
  lemma {:induction false} AbsorbAllError(cfg: Config, vocab: Vocab, b: Build, data: seq<RawRecord>)
    requires AbsorbAll(cfg, vocab, b, data).Failure?
    ensures AbsorbAll(cfg, vocab, b, data).error == KeyError
    decreases |data|
  {
    if data != [] && AbsorbAll(cfg, vocab, b, data[..|data| - 1]).Failure? {
      AbsorbAllError(cfg, vocab, b, data[..|data| - 1]);
    }
  }

  /** A sample that fails to enrich makes the whole loop fail. */
  lemma {:induction false} EnrichAllStopsAt(v: View, numRel: nat, masking: bool, graph: Graph,
                                            data: seq<Sample>, i: nat)
    requires i < |data|
    requires EnrichAll(v, numRel, masking, graph, data[..i]).Success?
    requires Enrich(v, numRel, masking, graph, data[i]).Failure?
    ensures EnrichAll(v, numRel, masking, graph, data) == Failure(Enrich(v, numRel, masking, graph, data[i]).error)
    decreases |data|
  {
    var init := data[..|data| - 1];
    if |data| == i + 1 {
      assert init == data[..i];
    } else {
      assert init[..i] == data[..i];
      EnrichAllStopsAt(v, numRel, masking, graph, init, i);
    }
  }

  /** One more sample joins the group of its class, at the end. */
  lemma GroupsStep(rels: seq<nat>, i: nat)
    requires i < |rels|
    ensures var g := Groups(rels[..i]);
      Groups(rels[..i + 1]) == g[rels[i] := (if rels[i] in g then g[rels[i]] else []) + [i]]
  {
    var pre, cur := rels[..i], rels[..i + 1];
    var g, h := Groups(pre), Groups(cur);
    var e := g[rels[i] := (if rels[i] in g then g[rels[i]] else []) + [i]];
    assert cur[..i] == pre && cur[i] == rels[i];
    forall c | c in cur ensures c in pre || c == rels[i] {
      var k :| 0 <= k < i + 1 && cur[k] == c;
      if k < i { assert pre[k] == c; }
    }
    forall c | c in pre ensures c in cur {
      var k :| 0 <= k < i && pre[k] == c;
      assert cur[k] == c;
    }
    forall c | c in h ensures c in e && h[c] == e[c] {
      assert h[c] == Members(pre, c) + if rels[i] == c then [i] else [];
      assert c !in g ==> Members(pre, c) == [] by { MembersAbsent(pre, c); }
    }
  }

  /** A class with no sample has no members. */
  lemma MembersAbsent(rels: seq<nat>, c: nat)
    ensures c !in rels ==> Members(rels, c) == []
  {
    var m := Members(rels, c);
    if m != [] {
      assert rels[m[0]] == c;
    }
  }

  /** One step of `group_by_class`: the class of sample i gets an empty
      group and a place in the class order when it is new, then i joins
      its group. */
  lemma GroupByClassStep(rels: seq<nat>, i: nat, groups: map<nat, seq<nat>>, order: seq<nat>)
    requires i < |rels|
    requires groups == Groups(rels[..i]) && order == FirstOccurrences<nat>([], rels[..i])
    ensures var c := rels[i];
      var g := if c !in groups then groups[c := []] else groups;
      && Groups(rels[..i + 1]) == g[c := g[c] + [i]]
      && FirstOccurrences<nat>([], rels[..i + 1]) == if c !in groups then order + [c] else order
  {
    GroupsStep(rels, i);
    FirstOccurrencesSpec<nat>([], rels[..i]);
    assert rels[..i + 1][..i] == rels[..i];
    Overwrite(groups, rels[i], [], [] + [i]);
  }

  /** The triples of the product of the subject, relation and object ids. */
  lemma AllTriplesAre(t: LabelTables, all: set<Triple>)
    requires forall tr :: tr in all <==>
      tr.subj in t.subj2id.Values && tr.rel in t.rel2id.Values && tr.obj in t.obj2id.Values
    ensures all == AllTriples(t)
  {
    forall tr | tr in AllTriples(t) ensures tr in all {
      var s, r, o :| s in t.subj2id.Values && r in t.rel2id.Values && o in t.obj2id.Values && tr == Triple(s, r, o);
    }
  }

  /** One more partition parsed on the tables the earlier ones left. */
  lemma ParseAllExtends(cfg: Config, vocab: Vocab, b0: Build, parts: seq<(string, seq<RawRecord>)>, i: nat,
                        b: Build, parsed: map<string, seq<Sample>>, b': Build, samples: seq<Sample>)
    requires i < |parts|
    requires ParseAll(cfg, vocab, b0, parts[..i]) == Success((b, parsed))
    requires AbsorbAll(cfg, vocab, b, parts[i].1) == Success((b', samples))
    ensures ParseAll(cfg, vocab, b0, parts[..i + 1]) == Success((b', parsed[parts[i].0 := samples]))
  {
    assert parts[..i + 1][..i] == parts[..i];
  }

  /** A partition that fails to parse fails the whole parse with a KeyError. */
  lemma ParseAllFails(cfg: Config, vocab: Vocab, b0: Build, parts: seq<(string, seq<RawRecord>)>, i: nat,
                      b: Build, parsed: map<string, seq<Sample>>)
    requires i < |parts|
    requires ParseAll(cfg, vocab, b0, parts[..i]) == Success((b, parsed))
    requires AbsorbAll(cfg, vocab, b, parts[i].1).Failure?
    ensures ParseAll(cfg, vocab, b0, parts).Failure?
    ensures ParseAll(cfg, vocab, b0, parts).error == KeyError
  {
    ParseAllStopsAt(cfg, vocab, b0, parts, i);
    AbsorbAllError(cfg, vocab, b, parts[i].1);
  }

  /** Once every partition parsed, the parsed partitions may replace the
      old ones without breaking the invariant. */
  lemma ParseAllDone(cfg: Config, vocab: Vocab, b0: Build, parts: seq<(string, seq<RawRecord>)>,
                     b: Build, parsed: map<string, seq<Sample>>, d: Derived, n: nat,
                     partitions: map<string, seq<Sample>>)
    requires BuildValid(b0, vocab)
    requires ParseAll(cfg, vocab, b0, parts[..|parts|]) == Success((b, parsed))
    requires ProcessorValid(cfg, vocab, b, d, n, partitions)
    ensures ParseAll(cfg, vocab, b0, parts) == Success((b, parsed))
    ensures ProcessorValid(cfg, vocab, b, d, n, parsed)
  {
    assert parts[..|parts|] == parts;
    ParseAllSamples(cfg, vocab, b0, parts);
  }

  lemma Overwrite<K, V>(m: map<K, V>, k: K, v: V, v': V)
    ensures m[k := v][k := v'] == m[k := v']
  {
  }

  /** Parsing stopped at record `i`: the records before it parsed into `b`
      and record `i` does not. */
  ghost predicate StoppedAt(cfg: Config, vocab: Vocab, b0: Build, data: seq<RawRecord>, i: nat, b: Build)
    requires i < |data|
  {
    && AbsorbAll(cfg, vocab, b0, data[..i]).Success?
    && AbsorbAll(cfg, vocab, b0, data[..i]).value.0 == b
    && AbsorbRecord(cfg, vocab, b, data[i]).Failure?
  }

  lemma StopsHere(cfg: Config, vocab: Vocab, b0: Build, data: seq<RawRecord>, i: nat,
                  b: Build, parsed: seq<Sample>)
    requires i < |data|
    requires AbsorbAll(cfg, vocab, b0, data[..i]) == Success((b, parsed))
    requires Featurize(cfg, vocab, data[i]).Failure?
    ensures StoppedAt(cfg, vocab, b0, data, i, b)
    ensures AbsorbAll(cfg, vocab, b0, data).Failure?
    ensures Featurize(cfg, vocab, data[i]).error == KeyError
  {
    AbsorbAllStopsAt(cfg, vocab, b0, data, i);
    AbsorbAllError(cfg, vocab, b0, data);
  }

  /** The tables and graph the loop body of `parse_data` leaves are those
      of `AbsorbRecord`. */
  lemma StepMatches(cfg: Config, vocab: Vocab, b: Build, d: RawRecord, f: Features, b': Build, s: Sample)
    requires Featurize(cfg, vocab, d) == Success(f)
    requires b'.tables == StepTables(b.tables, f, RelationName(cfg, d))
    requires var name := RelationName(cfg, d);
      var relId := b'.tables.rel2id[name];
      var triple := Triple(f.subjectId, relId, f.objectId);
      && b'.graph == (if cfg.relationMasking then AddTo(b.graph, (f.subjectId, f.objectId), relId) else b.graph)
      && s == Sample(Base(f.tokens, f.pos, f.ner, f.deprel, f.subjPositions, f.objPositions,
                          relId, f.subjectId, f.objectId, None),
                     Supplemental(triple, if cfg.relationMasking then Some(MaskTriple(triple)) else None))
    ensures AbsorbRecord(cfg, vocab, b, d) == Success((b', s))
  {
  }

  lemma AbsorbAllExtends(cfg: Config, vocab: Vocab, b0: Build, data: seq<RawRecord>, i: nat,
                         b: Build, parsed: seq<Sample>, b': Build, s: Sample)
    requires i < |data|
    requires AbsorbAll(cfg, vocab, b0, data[..i]) == Success((b, parsed))
    requires AbsorbRecord(cfg, vocab, b, data[i]) == Success((b', s))
    ensures AbsorbAll(cfg, vocab, b0, data[..i + 1]) == Success((b', parsed + [s]))
  {
    assert data[..i + 1][..i] == data[..i];
  }

  /** Samples of the tables stay samples of them as they grow. */
  lemma PartitionsGrow(partitions: map<string, seq<Sample>>, b: Build, b': Build, masking: bool)
    requires Grows(b, b')
    requires forall name, k :: name in partitions && 0 <= k < |partitions[name]| ==>
      SampleFrom(partitions[name][k], b, masking)
    ensures forall name, k :: name in partitions && 0 <= k < |partitions[name]| ==>
      SampleFrom(partitions[name][k], b', masking)
  {
    forall name, k | name in partitions && 0 <= k < |partitions[name]|
      ensures SampleFrom(partitions[name][k], b', masking)
    {
      SampleFromGrows(partitions[name][k], b, b', masking);
    }
  }

  /** The processor's invariant over its state: the tables and graph keep
      their invariants, the derived maps are those of the tables, and every
      partition holds samples of them. */
  ghost predicate ProcessorValid(cfg: Config, vocab: Vocab, b: Build, d: Derived, numRel: nat,
                                 partitions: map<string, seq<Sample>>)
  {
    && BuildValid(b, vocab)
    && DerivedFrom(b.tables, d)
    && numRel == |b.tables.rel2id|
    && forall name, k :: name in partitions && 0 <= k < |partitions[name]| ==>
         SampleFrom(partitions[name][k], b, cfg.relationMasking)
  }

  /** Parsing one more partition keeps the invariant once the derived maps
      are recomputed from the grown tables. */
  lemma ParsedValid(cfg: Config, vocab: Vocab, b0: Build, d0: Derived, n0: nat,
                    partitions: map<string, seq<Sample>>, data: seq<RawRecord>,
                    b: Build, samples: seq<Sample>, d: Derived, n: nat)
    requires ProcessorValid(cfg, vocab, b0, d0, n0, partitions)
    requires AbsorbAll(cfg, vocab, b0, data) == Success((b, samples))
    requires DerivedFrom(b.tables, d) && n == |b.tables.rel2id|
    ensures ProcessorValid(cfg, vocab, b, d, n, partitions)
  {
    AbsorbAllKeepsValid(cfg, vocab, b0, data);
    AbsorbAllSamples(cfg, vocab, b0, data);
    PartitionsGrow(partitions, b0, b, cfg.relationMasking);
  }

  /** The tables a successful parse leaves keep their ids contiguous. */
  lemma ParsedTables(cfg: Config, vocab: Vocab, b0: Build, data: seq<RawRecord>)
    requires BuildValid(b0, vocab)
    requires AbsorbAll(cfg, vocab, b0, data).Success?
    ensures ContiguousIds(AbsorbAll(cfg, vocab, b0, data).value.0.tables.rel2id)
  {
    AbsorbAllKeepsValid(cfg, vocab, b0, data);
  }

  /** The draws of numpy's shuffle for any prefix of length at most n:
      draw i is at most i. */
  ghost predicate ShuffleDraws(js: seq<nat>, n: nat) {
    n <= |js| && forall i :: 0 <= i < |js| ==> js[i] <= i
  }

  lemma ShuffleDrawsPrefix(js: seq<nat>, n: nat, m: nat)
    requires ShuffleDraws(js, n) && m <= n
    ensures ValidDraws(js[..m], m)
  {
    assert forall i :: 0 <= i < m ==> js[..m][i] == js[i];
  }

  /** The data `create_iterator` hands to the Batcher can be batched, its
      labels resolve, and it is no longer than the partition it came from. */
  lemma IteratorBatchable(cfg: Config, vocab: Vocab, b: Build, d: Derived, n: nat,
                          partitions: map<string, seq<Sample>>, name: string, masking: bool,
                          stageName: string, bonusPerm: seq<nat>, classPerms: map<nat, seq<nat>>)
    requires ProcessorValid(cfg, vocab, b, d, n, partitions)
    requires cfg.sampleSize.Some? ==> Drawable(|b.tables.rel2id|, PartitionOf(partitions, name), bonusPerm, classPerms)
    requires IteratorData(cfg, b, d, n, PartitionOf(partitions, name), masking, stageName, bonusPerm, classPerms).Success?
    ensures var (view, cleaned) := IteratorData(cfg, b, d, n, PartitionOf(partitions, name), masking, stageName,
                                                bonusPerm, classPerms).value;
      && Batchable(cleaned) && |cleaned| <= |PartitionOf(partitions, name)|
      && Labels(view, cleaned).Success? && cfg.batchSize != 0
  {
    var data := PartitionOf(partitions, name);
    assert forall k :: 0 <= k < |data| ==> SampleFrom(data[k], b, cfg.relationMasking);
    SampledFromPartition(cfg, b.tables.rel2id, data, bonusPerm, classPerms);
    SampledSamples(cfg, b, data, bonusPerm, classPerms);
    var sampled := Sampled(cfg, b.tables.rel2id, data, bonusPerm, classPerms).value;
    var v := StageView(ParseStage(stageName).value, b.tables, d);
    CleanedBatchable(v, n, masking, b, cfg.relationMasking, sampled);
    EnrichAllSpec(v, n, masking, b.graph, sampled);
  }

  /** A Batcher built over `cleaned`: its settings, its labels and its
      batches are those of the samples in the order the shuffle (skipped
      for evaluation) leaves them. */
  ghost predicate BuiltOver(bt: Batcher, view: View, cleaned: seq<Sample>, batchSize: int, isEval: bool,
                            dropout: real, js: seq<nat>)
    reads bt
  {
    && ValidDraws(js, |cleaned|)
    && var arranged := if isEval then cleaned else Shuffled(cleaned, js);
    && bt.view == view && bt.isEval == isEval && bt.batchSize == batchSize && bt.dropout == dropout
    && bt.numExamples == |cleaned|
    && Labels(view, arranged).Success? && bt.labels == Labels(view, arranged).value
    && Batching.CreateBatches(arranged, batchSize) == Success(bt.batches)
  }

  // ---------------------------------------------------------------------
  // The processor

  class DataProcessor {
    const config: Config
    const vocab: Vocab
    /** `name2id`: the tables built while parsing ... */
    var tables: LabelTables
    /** ... and the maps derived from them at the end of each parse. */
    var derived: Derived
    var graph: Graph
    var numRel: nat
    var partitions: map<string, seq<Sample>>

    function State(): Build
      reads this`tables, this`graph
    {
      Build(tables, graph)
    }

    /** The tables and graph keep their invariants, the derived maps are
        those of the tables, and every partition holds samples of them. */
    ghost predicate Valid()
      reads this
    {
      ProcessorValid(config, vocab, State(), derived, numRel, partitions)
    }

    /** `DataProcessor.__init__` up to the call of `preprocess_data`: empty
        tables and graph. */
    constructor(config: Config, vocab: Vocab)
      ensures this.config == config && this.vocab == vocab
      ensures tables == EmptyTables && graph == map[]
      ensures derived == Derived(map[], map[], map[], map[], map[])
      ensures numRel == 0 && partitions == map[]
      ensures Valid()
    {
      this.config := config;
      this.vocab := vocab;
      tables := EmptyTables;
      derived := Derived(map[], map[], map[], map[], map[]);
      graph := map[];
      numRel := 0;
      partitions := map[];
      new;
      EmptyBuildValid(vocab);
    }

    /** `preprocess_data`, with the partition files already read: each
        partition parsed in turn; the partitions are replaced only once all
        of them parsed. */
    method PreprocessData(parts: seq<(string, seq<RawRecord>)>) returns (r: Result<()>)
      requires Valid()
      modifies this
      ensures r.Success? <==> ParseAll(config, vocab, old(State()), parts).Success?
      ensures r.Success? ==>
        && State() == ParseAll(config, vocab, old(State()), parts).value.0
        && partitions == ParseAll(config, vocab, old(State()), parts).value.1
        && Valid()
      ensures r.Failure? ==> r.error == KeyError && partitions == old(partitions)
    {
      var parsed: map<string, seq<Sample>> := map[];
      var i := 0;
      while i < |parts|
        invariant 0 <= i <= |parts|
        invariant Valid() && partitions == old(partitions)
        invariant ParseAll(config, vocab, old(State()), parts[..i]) == Success((State(), parsed))
      {
        ghost var (before, d0, n0) := (State(), derived, numRel);
        var p := ParseData(parts[i].1);
        if p.Failure? {
          ParseAllFails(config, vocab, old(State()), parts, i, before, parsed);
          return Failure(p.error);
        }
        ParsedValid(config, vocab, before, d0, n0, partitions, parts[i].1, State(), p.value, derived, numRel);
        ParseAllExtends(config, vocab, old(State()), parts, i, before, parsed, State(), p.value);
        parsed := parsed[parts[i].0 := p.value];
        i := i + 1;
      }
      ParseAllDone(config, vocab, old(State()), parts, State(), parsed, derived, numRel, partitions);
      partitions := parsed;
      r := Success(());
    }

    /** `parse_data`: every record featurized and absorbed into the tables
        and graph in turn; then the curriculum mappings. The first unknown
        entity type stops it with a KeyError, the tables holding the
        records before it. */
    method ParseData(data: seq<RawRecord>) returns (r: Result<seq<Sample>>)
      requires BuildValid(State(), vocab)
      modifies this`tables, this`graph, this`derived, this`numRel
      ensures r.Success? <==> AbsorbAll(config, vocab, old(State()), data).Success?
      ensures r.Success? ==>
        && AbsorbAll(config, vocab, old(State()), data) == Success((State(), r.value))
        && DerivedFrom(tables, derived) && numRel == |tables.rel2id|
      ensures r.Failure? ==>
        && r.error == KeyError
        && derived == old(derived) && numRel == old(numRel)
        && exists i :: 0 <= i < |data| && StoppedAt(config, vocab, old(State()), data, i, State())
    {
      ghost var start := State();
      r := ParseRecords(data);
      if r.Failure? {
        return;
      }
      ParsedTables(config, vocab, start, data);
      // Calculate the curriculum mappings
      var allPossibleTriples := CreateAllPossibleTriples();
      derived := CurriculumMappings(tables, allPossibleTriples);
      numRel := |tables.rel2id|;
    }

    /** The loop of `parse_data` over the records. */
    method ParseRecords(data: seq<RawRecord>) returns (r: Result<seq<Sample>>)
      modifies this`tables, this`graph
      ensures r.Success? <==> AbsorbAll(config, vocab, old(State()), data).Success?
      ensures r.Success? ==> (State(), r.value) == AbsorbAll(config, vocab, old(State()), data).value
      ensures r.Failure? ==>
        && r.error == KeyError
        && exists i :: 0 <= i < |data| && StoppedAt(config, vocab, old(State()), data, i, State())
    {
      var parsed: seq<Sample> := [];
      var i := 0;
      while i < |data|
        invariant 0 <= i <= |data|
        invariant AbsorbAll(config, vocab, old(State()), data[..i]) == Success((State(), parsed))
      {
        var d := data[i];
        var features := Featurize(config, vocab, d);
        if features.Failure? {
          StopsHere(config, vocab, old(State()), data, i, State(), parsed);
          return Failure(features.error);
        }
        ghost var before := State();
        var f := features.value;
        var name := RelationName(config, d);
        var sample := AbsorbFeatures(f, name);
        RecordMasking((f.subjectId, f.objectId), sample.base.relation);
        StepMatches(config, vocab, before, d, f, State(), sample);
        AbsorbAllExtends(config, vocab, old(State()), data, i, before, parsed, State(), sample);
        parsed := parsed + [sample];
        i := i + 1;
      }
      assert data[..i] == data;
      r := Success(parsed);
    }

    /** The body of the loop of `parse_data` for one record, once its
      features `f` and its relation name are known: the tables and the
      graph take the record, which comes back as a sample. */
    method AbsorbFeatures(f: Features, name: string) returns (sample: Sample)
      modifies this`tables
      ensures tables == StepTables(old(tables), f, name)
      ensures var triple := Triple(f.subjectId, tables.rel2id[name], f.objectId);
        sample == Sample(Base(f.tokens, f.pos, f.ner, f.deprel, f.subjPositions, f.objPositions,
                              tables.rel2id[name], f.subjectId, f.objectId, None),
                         Supplemental(triple, if config.relationMasking then Some(MaskTriple(triple)) else None))
    {
      tables := tables.(subj2id := tables.subj2id[f.subjectType := f.subjectId]);
      tables := tables.(obj2id := tables.obj2id[f.objectType := f.objectId]);
      // a new relation name takes the next id
      tables := tables.(rel2id := if name in tables.rel2id then tables.rel2id
                                  else tables.rel2id[name := |tables.rel2id|]);
      var relId := tables.rel2id[name];
      var triple := Triple(f.subjectId, relId, f.objectId);
      // has_relation / no_relation; per, org or no_relation; the entity
      // types, or no_relation
      tables := tables.(binaryRel2Rels := AddTo(tables.binaryRel2Rels, BinaryGroup(name), relId));
      tables := tables.(subj2Rels := AddTo(tables.subj2Rels, SubjectGroup(name), relId));
      var subjObjs := SubjObjGroup(name, f.subjectType, f.objectType);
      tables := tables.(subjObj2Triples := AddTo(tables.subjObj2Triples, subjObjs, triple));
      var base := Base(f.tokens, f.pos, f.ner, f.deprel, f.subjPositions, f.objPositions,
                       relId, f.subjectId, f.objectId, None);
      var masking := if config.relationMasking then Some(MaskTriple(triple)) else None;
      sample := Sample(base, Supplemental(triple, masking));
    }

    /** Under relation masking, the relation joins the set the graph keeps
        for the entity pair, created empty on first sight. */
    method RecordMasking(pair: (int, int), relId: nat)
      modifies this`graph
      ensures graph == if config.relationMasking then AddTo(old(graph), pair, relId) else old(graph)
    {
      if config.relationMasking {
        if pair !in graph {
          graph := graph[pair := {}];
          Overwrite(old(graph), pair, {}, {} + {relId});
        }
        graph := graph[pair := graph[pair] + {relId}];
      }
    }

    /** The curriculum mappings at the end of `parse_data`: `id2rel`, the
        three reversed group maps (the triple map closed over every possible
        triple, each unused one mapped to no_relation) and `rel2ids`. */
    static method CurriculumMappings(t: LabelTables, allPossibleTriples: set<Triple>) returns (d: Derived)
      requires ContiguousIds(t.rel2id) && allPossibleTriples == AllTriples(t)
      ensures DerivedFrom(t, d)
    {
      var id2rel := Invert(t.rel2id);
      var rel2BinaryRel := ReverseSetMaps(t.binaryRel2Rels);
      var rel2Subj := ReverseSetMaps(t.subj2Rels);
      var triple2SubjObj := ReverseSetMaps(t.subjObj2Triples);
      var unusedTriples := allPossibleTriples - triple2SubjObj.Keys;
      var closed := AddUnusedTriples(unusedTriples, triple2SubjObj);
      ClosedByUnused(t, triple2SubjObj, closed.value);
      d := Derived(id2rel, rel2BinaryRel, rel2Subj, closed.value, Singletons(t.rel2id));
    }

    /** `reverse_set_maps`: every member of every set mapped to its key.
        Which key a member held by several sets ends with depends on
        dictionary order, which the model leaves open. */
    static method ReverseSetMaps<K, V>(dict2set: map<K, set<V>>) returns (r: map<V, K>)
      ensures IsReverse(dict2set, r)
    {
      r := map[];
      var keys := dict2set.Keys;
      while keys != {}
        invariant keys <= dict2set.Keys
        invariant forall v :: v in r ==> r[v] in dict2set && v in dict2set[r[v]]
        invariant forall k, v :: k in dict2set && k !in keys && v in dict2set[k] ==> v in r
        decreases keys
      {
        var key :| key in keys;
        var values := dict2set[key];
        while values != {}
          invariant values <= dict2set[key]
          invariant forall v :: v in r ==> r[v] in dict2set && v in dict2set[r[v]]
          invariant forall k, v :: k in dict2set && k !in keys && v in dict2set[k] ==> v in r
          invariant forall v :: v in dict2set[key] && v !in values ==> v in r
          decreases values
        {
          var value :| value in values;
          r := r[value := key];
          values := values - {value};
        }
        keys := keys - {key};
      }
    }

    /** `create_all_possible_triples`: every (subject id, relation id,
        object id) of the tables. */
    method CreateAllPossibleTriples() returns (all: set<Triple>)
      ensures all == AllTriples(tables)
    {
      all := {};
      var subjects := tables.subj2id.Values;
      while subjects != {}
        invariant subjects <= tables.subj2id.Values
        invariant forall t :: t in all <==>
          t.subj in tables.subj2id.Values && t.subj !in subjects && t.rel in tables.rel2id.Values && t.obj in tables.obj2id.Values
        decreases subjects
      {
        var subject := Pick(subjects);
        var relations := tables.rel2id.Values;
        while relations != {}
          invariant relations <= tables.rel2id.Values
          invariant forall t :: t in all <==>
            || (t.subj in tables.subj2id.Values && t.subj !in subjects && t.rel in tables.rel2id.Values && t.obj in tables.obj2id.Values)
            || (t.subj == subject && t.rel in tables.rel2id.Values && t.rel !in relations && t.obj in tables.obj2id.Values)
          decreases relations
        {
          var relation := Pick(relations);
          var objects := tables.obj2id.Values;
          while objects != {}
            invariant objects <= tables.obj2id.Values
            invariant forall t :: t in all <==>
              || (t.subj in tables.subj2id.Values && t.subj !in subjects && t.rel in tables.rel2id.Values && t.obj in tables.obj2id.Values)
              || (t.subj == subject && t.rel in tables.rel2id.Values && t.rel !in relations && t.obj in tables.obj2id.Values)
              || (t.subj == subject && t.rel == relation && t.obj in tables.obj2id.Values && t.obj !in objects)
            decreases objects
          {
            var obj := Pick(objects);
            all := all + {Triple(subject, relation, obj)};
            objects := objects - {obj};
          }
          relations := relations - {relation};
        }
        subjects := subjects - {subject};
      }
      AllTriplesAre(tables, all);
    }

    /** `add_unused_triples`: every unused triple mapped to no_relation;
        the assertion that none of them is mapped already fails with an
        AssertionError. */
    static method AddUnusedTriples(unusedTriples: set<Triple>, mappings: map<Triple, string>)
      returns (r: Result<map<Triple, string>>)
      ensures r.Success? <==> unusedTriples !! mappings.Keys
      ensures r.Failure? ==> r.error == AssertionError
      ensures r.Success? ==>
        && r.value.Keys == mappings.Keys + unusedTriples
        && (forall t :: t in mappings ==> r.value[t] == mappings[t])
        && (forall t :: t in unusedTriples ==> r.value[t] == NO_RELATION)
    {
      var m := mappings;
      var rest := unusedTriples;
      while rest != {}
        invariant rest <= unusedTriples
        invariant m.Keys == mappings.Keys + (unusedTriples - rest)
        invariant forall t :: t in mappings ==> m[t] == mappings[t]
        invariant forall t :: t in unusedTriples - rest ==> m[t] == NO_RELATION
        invariant (unusedTriples - rest) !! mappings.Keys
        decreases rest
      {
        var t :| t in rest;
        if t in m {
          return Failure(AssertionError);
        }
        m := m[t := NO_RELATION];
        rest := rest - {t};
      }
      r := Success(m);
    }

    /** `group_by_class`: the indices of the samples of each class, in
        ascending order, and the classes in the order the dictionary
        received them (first occurrence). */
    static method GroupByClass(data: seq<Sample>) returns (groups: map<nat, seq<nat>>, order: seq<nat>)
      ensures groups == Groups(Rels(data))
      ensures order == FirstOccurrences<nat>([], Rels(data))
    {
      ghost var rels := Rels(data);
      groups, order := map[], [];
      var idx: nat := 0;
      while idx < |data|
        invariant 0 <= idx <= |data|
        invariant groups == Groups(rels[..idx])
        invariant order == FirstOccurrences<nat>([], rels[..idx])
      {
        var relation := data[idx].base.relation;
        GroupByClassStep(rels, idx, groups, order);
        if relation !in groups {
          groups := groups[relation := []];
          order := order + [relation];
        }
        groups := groups[relation := groups[relation] + [idx]];
        idx := idx + 1;
      }
      assert rels[..idx] == rels;
    }

    /** `distribute_sample_size`: every relation id gets the even share of
        the sample, and the ids drawn for the remainder one more; with no
        relations the division fails. */
    method DistributeSampleSize(sampleSize: nat, bonusPerm: seq<nat>) returns (r: Result<map<nat, nat>>)
      requires |tables.rel2id| > 0 ==> |bonusPerm| == |tables.rel2id|
      ensures r.Failure? <==> |tables.rel2id| == 0
      ensures r.Failure? ==> r.error == ZeroDivisionError
      ensures r.Success? ==> r.value == Quotas(|tables.rel2id|, sampleSize, bonusPerm, tables.rel2id.Values)
    {
      var n := |tables.rel2id|;
      if n == 0 {
        return Failure(ZeroDivisionError);
      }
      var classSampleSize := sampleSize / n;
      var remainder := sampleSize % n;
      var classSampleBonus := bonusPerm[..remainder];
      var ids := tables.rel2id.Values;
      var class2size: map<nat, nat> := map[];
      var rest := ids;
      while rest != {}
        invariant rest <= ids
        invariant class2size == map i | i in ids - rest :: Quota(n, sampleSize, classSampleBonus, i)
        decreases rest
      {
        var relId := Pick(rest);
        class2size := class2size[relId := classSampleSize];
        if relId in classSampleBonus {
          class2size := class2size[relId := class2size[relId] + 1];
        }
        rest := rest - {relId};
      }
      r := Success(class2size);
    }

    /** `perform_stratified_sampling`: the quotas, the classes, each
        class's picks, their concatenation, and the samples at those
        indices. */
    method PerformStratifiedSampling(data: seq<Sample>, bonusPerm: seq<nat>, classPerms: map<nat, seq<nat>>)
      returns (r: Result<seq<Sample>>)
      requires config.sampleSize.Some?
      requires Drawable(|tables.rel2id|, data, bonusPerm, classPerms)
      ensures r == Stratified(tables.rel2id, config.sampleSize.value, bonusPerm, data, classPerms)
    {
      var class2size := DistributeSampleSize(config.sampleSize.value, bonusPerm);
      if class2size.Failure? {
        return Failure(class2size.error);
      }
      var class2indices, order := GroupByClass(data);
      var class2sample := SampleByClass(order, class2indices, class2size.value, classPerms);
      if class2sample.Failure? {
        return Failure(class2sample.error);
      }
      FirstOccurrencesSpec<nat>([], Rels(data));
      ConcatPicks(Rels(data), order, class2size.value, classPerms);
      var sampleIndices := Aggregate(order, class2sample.value);
      if sampleIndices.Failure? {
        return Failure(sampleIndices.error);
      }
      r := Success(Gather(data, sampleIndices.value));
    }

    /** The loop of `create_iterator` over the partition: each sample
        enriched in turn; the first that fails stops it. */
    method CleanData(view: View, masking: bool, data: seq<Sample>) returns (r: Result<seq<Sample>>)
      ensures r == EnrichAll(view, numRel, masking, graph, data)
    {
      var cleaned: seq<Sample> := [];
      var i := 0;
      while i < |data|
        invariant 0 <= i <= |data|
        invariant EnrichAll(view, numRel, masking, graph, data[..i]) == Success(cleaned)
      {
        var sample := Enrich(view, numRel, masking, graph, data[i]);
        if sample.Failure? {
          EnrichAllStopsAt(view, numRel, masking, graph, data, i);
          return Failure(sample.error);
        }
        assert data[..i + 1][..i] == data[..i];
        cleaned := cleaned + [sample.value];
        i := i + 1;
      }
      assert data[..i] == data;
      r := Success(cleaned);
    }

    /** `create_iterator` up to the Batcher: the partition (a missing name
        reads as empty), its stratified sample when a sample size is set,
        the stage's view, the enriched samples, and the two checks the
        Batcher makes before it batches: every label resolves and the
        batch size is not zero. */
    method IteratorInputs(masking: bool, partitionName: string, stageName: string,
                          bonusPerm: seq<nat>, classPerms: map<nat, seq<nat>>)
      returns (r: Result<(View, seq<Sample>)>)
      requires config.sampleSize.Some? ==>
        Drawable(|tables.rel2id|, PartitionOf(partitions, partitionName), bonusPerm, classPerms)
      ensures r == IteratorData(config, State(), derived, numRel, PartitionOf(partitions, partitionName),
                                masking, stageName, bonusPerm, classPerms)
    {
      var partitionData := PartitionOf(partitions, partitionName);
      var sampled := partitionData;
      if config.sampleSize.Some? {
        var s := PerformStratifiedSampling(partitionData, bonusPerm, classPerms);
        if s.Failure? {
          return Failure(s.error);
        }
        sampled := s.value;
      }
      var stage := ParseStage(stageName);
      if stage.None? {
        return Failure(ValueError);
      }
      var view := StageView(stage.value, tables, derived);
      var cleaned := CleanData(view, masking, sampled);
      if cleaned.Failure? {
        return Failure(cleaned.error);
      }
      if Labels(view, cleaned.value).Failure? {
        return Failure(KeyError);
      }
      if config.batchSize == 0 {
        return Failure(ValueError);
      }
      r := Success((view, cleaned.value));
    }

    /** `create_iterator`: a Batcher over the enriched samples of the
        partition, shuffled unless the partition is not `train`, batched
        with the configured batch size. */
    method CreateIterator(masking: bool, partitionName: string, stageName: string,
                          bonusPerm: seq<nat>, classPerms: map<nat, seq<nat>>, shuffleJs: seq<nat>)
      returns (r: Result<Batcher>)
      requires Valid()
      requires config.sampleSize.Some? ==>
        Drawable(|tables.rel2id|, PartitionOf(partitions, partitionName), bonusPerm, classPerms)
      requires ShuffleDraws(shuffleJs, |PartitionOf(partitions, partitionName)|)
      ensures var expected := IteratorData(config, State(), derived, numRel, PartitionOf(partitions, partitionName),
                                           masking, stageName, bonusPerm, classPerms);
        && (r.Success? <==> expected.Success?)
        && (r.Failure? ==> r.error == expected.error)
        && (r.Success? ==>
              && fresh(r.value) && r.value.Valid()
              && |expected.value.1| <= |shuffleJs|
              && BuiltOver(r.value, expected.value.0, expected.value.1, config.batchSize,
                           partitionName != "train", config.wordDropout, shuffleJs[..|expected.value.1|]))
    {
      var inputs := IteratorInputs(masking, partitionName, stageName, bonusPerm, classPerms);
      if inputs.Failure? {
        return Failure(inputs.error);
      }
      var (view, cleaned) := inputs.value;
      IteratorBatchable(config, vocab, State(), derived, numRel, partitions, partitionName, masking,
                        stageName, bonusPerm, classPerms);
      ShuffleDrawsPrefix(shuffleJs, |PartitionOf(partitions, partitionName)|, |cleaned|);
      var batcher := MakeBatcher(view, cleaned, config.batchSize, partitionName != "train", config.wordDropout,
                                 shuffleJs[..|cleaned|]);
      r := Success(batcher);
    }

    /** The Batcher `create_iterator` builds over `cleaned`. */
    static method MakeBatcher(view: View, cleaned: seq<Sample>, batchSize: int, isEval: bool, dropout: real,
                              js: seq<nat>)
      returns (batcher: Batcher)
      requires ValidDraws(js, |cleaned|) && Labels(view, cleaned).Success?
      requires batchSize != 0 && Batchable(cleaned)
      ensures fresh(batcher) && batcher.Valid()
      ensures BuiltOver(batcher, view, cleaned, batchSize, isEval, dropout, js)
    {
      var dataset := new Sample[|cleaned|](k requires 0 <= k < |cleaned| => cleaned[k]);
      assert dataset[..] == cleaned;
      batcher := new Batcher(dataset, view, batchSize, isEval, dropout, js);
    }
  }
}
