/** The curriculum side of `DataProcessor.create_iterator`: the four stages,
    the label maps each one reads, and the per-sample step that attaches the
    multi-hot `activated_relations` vector and resolves the relation mask.
    The loop that applies the step to a partition is
    `Processor.DataProcessor.CreateIterator`. */
module Curriculum {
  import opened Common
  import opened Samples
  import opened Hierarchy
  import opened Batching

  datatype Stage = Binary | SubjType | SubjObjType | Full

  /** The stage a `curriculum_stage` argument names; any other name is
      refused. */
  function ParseStage(name: string): (r: Option<Stage>)
    ensures r.Some? <==> name in ["binary", "subj_type", "subj_obj_type", "full"]
  {
    if name == "binary" then Some(Binary)
    else if name == "subj_type" then Some(SubjType)
    else if name == "subj_obj_type" then Some(SubjObjType)
    else if name == "full" then Some(Full)
    else None
  }

  /** The maps `parse_data` derives once the tables are complete. */
  datatype Derived = Derived(
    id2rel: map<nat, string>,
    rel2BinaryRel: map<nat, string>,
    rel2Subj: map<nat, string>,
    triple2SubjObj: map<Triple, string>,
    rel2Ids: map<string, set<nat>>)

  /** `d` holds what `parse_data` derives from the tables `t`. */
  ghost predicate DerivedFrom(t: LabelTables, d: Derived) {
    && ContiguousIds(t.rel2id)
    && d.id2rel == Invert(t.rel2id)
    && IsReverse(t.binaryRel2Rels, d.rel2BinaryRel)
    && IsReverse(t.subj2Rels, d.rel2Subj)
    && ClosedTripleMap(t, d.triple2SubjObj)
    && d.rel2Ids == Singletons(t.rel2id)
  }

  /** What a stage reads: `id2label`, `label2id`, and whether the id of a
      triple is its relation (`triple2rel`) or the triple itself
      (`triple2triple`). In the binary and subject-type stages `label2id` is
      a defaultdict (a missing label reads as the empty set); in the full
      stage it is a plain dict. */
  datatype View =
    | ByRelation(id2label: map<nat, string>, label2rels: map<string, set<nat>>, defaulted: bool)
    | ByTriple(triple2label: map<Triple, string>, label2triples: map<string, set<Triple>>)

  function StageView(stage: Stage, t: LabelTables, d: Derived): View {
    match stage
    case Binary => ByRelation(d.rel2BinaryRel, t.binaryRel2Rels, true)
    case SubjType => ByRelation(d.rel2Subj, t.subj2Rels, true)
    case SubjObjType => ByTriple(d.triple2SubjObj, t.subjObj2Triples)
    case Full => ByRelation(d.id2rel, d.rel2Ids, false)
  }

  /** `id2label[triple2id_fn(triple)]`. */
  function LabelOf(v: View, tr: Triple): Result<string> {
    match v
    case ByRelation(id2label, _, _) =>
      if tr.rel in id2label then Success(id2label[tr.rel]) else Failure(KeyError)
    case ByTriple(triple2label, _) =>
      if tr in triple2label then Success(triple2label[tr]) else Failure(KeyError)
  }

  /** The relation ids `label2id[label]` stands for: the group itself, or
      the relations of the triples in it. The subject-object map is a
      defaultdict. */
  function MatchedIds(v: View, name: string): Result<set<nat>> {
    match v
    case ByRelation(_, label2rels, defaulted) =>
      if name in label2rels then Success(label2rels[name])
      else if defaulted then Success({})
      else Failure(KeyError)
    case ByTriple(_, label2triples) =>
      Success(if name in label2triples then set tr | tr in label2triples[name] :: tr.rel else {})
  }

  /** The positions of a 0/1 row that hold 1. */
  function Ones(row: seq<int>): set<nat> {
    set k: nat | k < |row| && row[k] == 1
  }

  /** `activated_relations[matched_ids] = 1.` on a zero vector of width
      `numRel`. numpy refuses an empty index list (`np.unique([])` is a
      float array) and an index past the end, both with an IndexError. */
  function MultiHot(numRel: nat, ids: set<nat>): (r: Result<seq<int>>)
    ensures r.Success? <==> ids != {} && forall i :: i in ids ==> i < numRel
  {
    if ids == {} || exists i :: i in ids && i >= numRel then Failure(IndexError)
    else Success(seq(numRel, k requires 0 <= k < numRel => if k in ids then 1 else 0))
  }

  /** The vector has one 0/1 entry per relation and its ones are exactly the
      matched ids. */
  lemma MultiHotRoundTrip(numRel: nat, ids: set<nat>)
    requires MultiHot(numRel, ids).Success?
    ensures |MultiHot(numRel, ids).value| == numRel
    ensures forall k :: 0 <= k < numRel ==> MultiHot(numRel, ids).value[k] in {0, 1}
    ensures Ones(MultiHot(numRel, ids).value) == ids
  {
    var row := MultiHot(numRel, ids).value;
    forall k: nat | k in ids ensures k in Ones(row) {
      assert k < numRel;
    }
  }

  /** The Batcher's `labels`: the label of every sample's supplemental
      triple; the first one missing raises a KeyError. */
  function Labels(v: View, data: seq<Sample>): (r: Result<seq<string>>)
    ensures r.Success? <==> forall k :: 0 <= k < |data| ==> LabelOf(v, data[k].supplemental.triple).Success?
    ensures r.Failure? ==> r.error == KeyError
    ensures r.Success? ==> |r.value| == |data|
    ensures r.Success? ==> forall k :: 0 <= k < |data| ==> r.value[k] == LabelOf(v, data[k].supplemental.triple).value
  {
    if forall k :: 0 <= k < |data| ==> LabelOf(v, data[k].supplemental.triple).Success? then
      Success(seq(|data|, k requires 0 <= k < |data| => LabelOf(v, data[k].supplemental.triple).value))
    else Failure(KeyError)
  }

  /** Rearranging a dataset keeps its labels resolvable and keeps it
      batchable. */
  lemma Rearranged(v: View, s: seq<Sample>, t: seq<Sample>)
    requires multiset(t) == multiset(s)
    ensures Labels(v, s).Success? ==> Labels(v, t).Success?
    ensures Batchable(s) ==> Batchable(t)
  {
    forall k | 0 <= k < |t| ensures exists i :: 0 <= i < |s| && s[i] == t[k] {
      assert t[k] in multiset(t);
      assert t[k] in s;
    }
  }

  /** One turn of the sample loop of `create_iterator`, on a copy of the
      sample: the stage's label of the sample's triple, the relations that
      label stands for as a multi-hot vector, and, when `masking` is on, the
      masking triple replaced by the relations the graph knows for its
      entity pair. */
  function Enrich(v: View, numRel: nat, masking: bool, graph: Graph, s: Sample): Result<Sample> {
    var tr := Triple(s.base.subjId, s.base.relation, s.base.objId);
    match LabelOf(v, tr)
    case Failure(e) => Failure(e)
    case Success(name) =>
      match MatchedIds(v, name)
      case Failure(e) => Failure(e)
      case Success(ids) =>
        match MultiHot(numRel, ids)
        case Failure(e) => Failure(e)
        case Success(row) =>
          var base := s.base.(activatedRelations := Some(row));
          if !masking then Success(Sample(base, s.supplemental))
          else
            match s.supplemental.relationMasking
            case None => Failure(KeyError)
            // a 1-tuple does not unpack into three names
            case Some(KnownRelations(_)) => Failure(ValueError)
            case Some(MaskTriple(m)) =>
              if (m.subj, m.obj) !in graph then Failure(KeyError)
              else Success(Sample(base, s.supplemental.(relationMasking := Some(KnownRelations(graph[(m.subj, m.obj)])))))
  }

  /** An enriched sample keeps every field but two: its activated relations
      are a 0/1 vector of width `numRel` whose ones are the matched ids, and
      with masking on its mask is the known-relation set of its entity
      pair. */
  lemma EnrichSpec(v: View, numRel: nat, masking: bool, graph: Graph, s: Sample)
    requires Enrich(v, numRel, masking, graph, s).Success?
    ensures var r := Enrich(v, numRel, masking, graph, s).value;
      var tr := Triple(s.base.subjId, s.base.relation, s.base.objId);
      && LabelOf(v, tr).Success?
      && MatchedIds(v, LabelOf(v, tr).value).Success?
      && r.base.activatedRelations.Some?
      && |r.base.activatedRelations.value| == numRel
      && Ones(r.base.activatedRelations.value) == MatchedIds(v, LabelOf(v, tr).value).value
      && r.base == s.base.(activatedRelations := r.base.activatedRelations)
      && r.supplemental.triple == s.supplemental.triple
      && (!masking ==> r.supplemental == s.supplemental)
      && (masking ==>
            && s.supplemental.relationMasking.Some?
            && s.supplemental.relationMasking.value.MaskTriple?
            && (s.supplemental.relationMasking.value.triple.subj, s.supplemental.relationMasking.value.triple.obj) in graph
            && r.supplemental.relationMasking ==
                 Some(KnownRelations(graph[(s.supplemental.relationMasking.value.triple.subj,
                                            s.supplemental.relationMasking.value.triple.obj)])))
  {
    var tr := Triple(s.base.subjId, s.base.relation, s.base.objId);
    MultiHotRoundTrip(numRel, MatchedIds(v, LabelOf(v, tr).value).value);
  }

  /** The loop over a partition; the first failing sample stops it. */
  function EnrichAll(v: View, numRel: nat, masking: bool, graph: Graph, data: seq<Sample>): Result<seq<Sample>>
    decreases |data|
  {
    if data == [] then Success([])
    else
      match EnrichAll(v, numRel, masking, graph, data[..|data| - 1])
      case Failure(e) => Failure(e)
      case Success(prev) =>
        match Enrich(v, numRel, masking, graph, data[|data| - 1])
        case Failure(e) => Failure(e)
        case Success(s) => Success(prev + [s])
  }

  /** The loop succeeds exactly when every sample does, and then yields the
      enriched samples in order. */
  lemma {:induction false} EnrichAllSpec(v: View, numRel: nat, masking: bool, graph: Graph, data: seq<Sample>)
    ensures EnrichAll(v, numRel, masking, graph, data).Success? <==>
      forall k :: 0 <= k < |data| ==> Enrich(v, numRel, masking, graph, data[k]).Success?
    ensures EnrichAll(v, numRel, masking, graph, data).Success? ==>
      |EnrichAll(v, numRel, masking, graph, data).value| == |data| &&
      forall k :: 0 <= k < |data| ==>
        EnrichAll(v, numRel, masking, graph, data).value[k] == Enrich(v, numRel, masking, graph, data[k]).value
    decreases |data|
  {
    if data != [] {
      var init := data[..|data| - 1];
      EnrichAllSpec(v, numRel, masking, graph, init);
      assert forall k :: 0 <= k < |init| ==> init[k] == data[k];
    }
  }

  /** The enriched partition can be batched: every sample carries its
      activated relations, and the masking entry is present in all of them
      or in none when it was so before. */
  lemma EnrichedBatchable(v: View, numRel: nat, masking: bool, graph: Graph, data: seq<Sample>)
    requires EnrichAll(v, numRel, masking, graph, data).Success?
    requires forall k, l :: 0 <= k < |data| && 0 <= l < |data| ==>
      data[k].supplemental.relationMasking.Some? == data[l].supplemental.relationMasking.Some?
    ensures Batchable(EnrichAll(v, numRel, masking, graph, data).value)
  {
    var r := EnrichAll(v, numRel, masking, graph, data).value;
    EnrichAllSpec(v, numRel, masking, graph, data);
    forall k | 0 <= k < |r|
      ensures r[k].base.activatedRelations.Some?
      ensures r[k].supplemental.relationMasking.Some? == data[k].supplemental.relationMasking.Some?
    {
      EnrichSpec(v, numRel, masking, graph, data[k]);
    }
  }

  // ---------------------------------------------------------------------
  // Samples of this processor never make the iterator fail

  /** `s` is a sample `parse_data` produced, judged against the tables and
      graph `b` of the processor at a later point. */
  ghost predicate SampleFrom(s: Sample, b: Build, masking: bool) {
    var tr := Triple(s.base.subjId, s.base.relation, s.base.objId);
    && s.supplemental.triple == tr
    && s.base.relation < |b.tables.rel2id|
    && Grouped(b.tables.subjObj2Triples, tr)
    && s.base.activatedRelations.None?
    && s.supplemental.relationMasking == (if masking then Some(MaskTriple(tr)) else None)
    && (masking ==> (tr.subj, tr.obj) in b.graph)
  }

  /** `b'` holds everything `b` holds: tables and graph only grow. */
  ghost predicate Grows(b: Build, b': Build) {
    && |b.tables.rel2id| <= |b'.tables.rel2id|
    && (forall key :: key in b.tables.subjObj2Triples ==>
          key in b'.tables.subjObj2Triples && b.tables.subjObj2Triples[key] <= b'.tables.subjObj2Triples[key])
    && b.graph.Keys <= b'.graph.Keys
  }

  lemma SampleFromGrows(s: Sample, b: Build, b': Build, masking: bool)
    requires SampleFrom(s, b, masking) && Grows(b, b')
    ensures SampleFrom(s, b', masking)
  {
    var tr := Triple(s.base.subjId, s.base.relation, s.base.objId);
    var key :| key in b.tables.subjObj2Triples && tr in b.tables.subjObj2Triples[key];
    assert tr in b'.tables.subjObj2Triples[key];
  }

  /** The record just absorbed yields a sample of the new tables, and the
      tables grew. */
  lemma AbsorbRecordSample(cfg: Config, vocab: Vocab, b: Build, d: RawRecord)
    requires BuildValid(b, vocab)
    requires AbsorbRecord(cfg, vocab, b, d).Success?
    ensures Grows(b, AbsorbRecord(cfg, vocab, b, d).value.0)
    ensures SampleFrom(AbsorbRecord(cfg, vocab, b, d).value.1, AbsorbRecord(cfg, vocab, b, d).value.0,
                       cfg.relationMasking)
  {
    var f := Featurize(cfg, vocab, d).value;
    var name := RelationName(cfg, d);
    StepTablesValid(b.tables, vocab, f, name);
  }

  /** Every sample `parse_data` produced from a valid start is a sample of
      the final tables, which grew from the start. */
  lemma {:induction false} AbsorbAllSamples(cfg: Config, vocab: Vocab, b: Build, data: seq<RawRecord>)
    requires BuildValid(b, vocab)
    requires AbsorbAll(cfg, vocab, b, data).Success?
    ensures Grows(b, AbsorbAll(cfg, vocab, b, data).value.0)
    ensures forall k :: 0 <= k < |AbsorbAll(cfg, vocab, b, data).value.1| ==>
      SampleFrom(AbsorbAll(cfg, vocab, b, data).value.1[k], AbsorbAll(cfg, vocab, b, data).value.0,
                 cfg.relationMasking)
    decreases |data|
  {
    if data != [] {
      var init := data[..|data| - 1];
      AbsorbAllSamples(cfg, vocab, b, init);
      AbsorbAllKeepsValid(cfg, vocab, b, init);
      var prev := AbsorbAll(cfg, vocab, b, init).value;
      AbsorbRecordSample(cfg, vocab, prev.0, data[|data| - 1]);
      var next := AbsorbRecord(cfg, vocab, prev.0, data[|data| - 1]).value;
      assert AbsorbAll(cfg, vocab, b, data) == Success((next.0, prev.1 + [next.1]));
      SamplesAppend(prev.1, next.1, prev.0, next.0, cfg.relationMasking);
      GrowsTransitive(b, prev.0, next.0);
    }
  }

  /** Samples of tables that grew stay samples of them, next to a sample
      of the grown tables. */
  lemma SamplesAppend(samples: seq<Sample>, s: Sample, b: Build, b': Build, masking: bool)
    requires forall k :: 0 <= k < |samples| ==> SampleFrom(samples[k], b, masking)
    requires SampleFrom(s, b', masking) && Grows(b, b')
    ensures forall k :: 0 <= k < |samples + [s]| ==> SampleFrom((samples + [s])[k], b', masking)
  {
    forall k | 0 <= k < |samples + [s]| ensures SampleFrom((samples + [s])[k], b', masking) {
      if k < |samples| {
        SampleFromGrows(samples[k], b, b', masking);
      }
    }
  }

  lemma GrowsTransitive(a: Build, b: Build, c: Build)
    requires Grows(a, b) && Grows(b, c)
    ensures Grows(a, c)
  {
  }

  /** The facts a stage needs of a triple: a registered relation, grouped
      by subject and object type. */
  ghost predicate Resolvable(t: LabelTables, vocab: Vocab, d: Derived, tr: Triple) {
    TablesValid(t, vocab) && DerivedFrom(t, d) && tr.rel < |t.rel2id| && Grouped(t.subjObj2Triples, tr)
  }

  /** `ids` is a non-empty set of registered relation ids. */
  ghost predicate Activatable(ids: Result<set<nat>>, numRel: nat) {
    ids.Success? && ids.value != {} && forall i :: i in ids.value ==> i < numRel
  }

  /** The stage's label of a triple of this processor resolves to a
      non-empty group of registered relations. */
  lemma MatchedIdsResolve(stage: Stage, t: LabelTables, vocab: Vocab, d: Derived, tr: Triple)
    requires Resolvable(t, vocab, d, tr)
    ensures LabelOf(StageView(stage, t, d), tr).Success?
    ensures Activatable(MatchedIds(StageView(stage, t, d), LabelOf(StageView(stage, t, d), tr).value), |t.rel2id|)
  {
    match stage
    case Full => FullResolves(t.rel2id, tr.rel);
    case Binary => GroupResolves(t.rel2id, t.binaryRel2Rels, BinaryGroup, d.rel2BinaryRel, tr.rel);
    case SubjType => GroupResolves(t.rel2id, t.subj2Rels, SubjectGroup, d.rel2Subj, tr.rel);
    case SubjObjType => TripleResolves(t, vocab, d, tr);
  }

  lemma FullResolves(rel2id: map<string, nat>, rel: nat)
    requires ContiguousIds(rel2id) && rel < |rel2id|
    ensures rel in Invert(rel2id)
    ensures Invert(rel2id)[rel] in Singletons(rel2id)
    ensures Singletons(rel2id)[Invert(rel2id)[rel]] == {rel}
  {
    InvertIsInverse(rel2id);
    assert rel in Below(|rel2id|);
  }

  lemma GroupResolves(rel2id: map<string, nat>, groups: map<string, set<nat>>,
                      group: string -> string, r: map<nat, string>, rel: nat)
    requires ContiguousIds(rel2id) && GroupedBy(rel2id, groups, group) && IsReverse(groups, r)
    requires rel < |rel2id|
    ensures rel in r
    ensures Activatable(MatchedIds(ByRelation(r, groups, true), r[rel]), |rel2id|)
  {
    ReverseOfGrouping(rel2id, groups, group, r);
    assert rel in Below(|rel2id|);
    assert rel in groups[r[rel]];
  }

  lemma TripleResolves(t: LabelTables, vocab: Vocab, d: Derived, tr: Triple)
    requires Resolvable(t, vocab, d, tr)
    ensures LabelOf(StageView(SubjObjType, t, d), tr).Success?
    ensures Activatable(MatchedIds(StageView(SubjObjType, t, d), LabelOf(StageView(SubjObjType, t, d), tr).value), |t.rel2id|)
  {
    var name := d.triple2SubjObj[tr];
    assert tr.rel in MatchedIds(StageView(SubjObjType, t, d), name).value;
  }

  /** On the processor's own samples the sample loop never fails, whatever
      the stage, as long as masking is requested only when the samples
      carry a masking triple. */
  lemma EnrichSucceeds(stage: Stage, b: Build, vocab: Vocab, d: Derived, cfgMasking: bool,
                       masking: bool, s: Sample)
    requires BuildValid(b, vocab) && DerivedFrom(b.tables, d)
    requires SampleFrom(s, b, cfgMasking)
    requires masking ==> cfgMasking
    ensures Enrich(StageView(stage, b.tables, d), |b.tables.rel2id|, masking, b.graph, s).Success?
  {
    var tr := Triple(s.base.subjId, s.base.relation, s.base.objId);
    MatchedIdsResolve(stage, b.tables, vocab, d, tr);
  }

  /** The whole partition goes through, and the result can be batched. */
  lemma EnrichAllSucceeds(stage: Stage, b: Build, vocab: Vocab, d: Derived, cfgMasking: bool,
                          masking: bool, data: seq<Sample>)
    requires BuildValid(b, vocab) && DerivedFrom(b.tables, d)
    requires forall k :: 0 <= k < |data| ==> SampleFrom(data[k], b, cfgMasking)
    requires masking ==> cfgMasking
    ensures EnrichAll(StageView(stage, b.tables, d), |b.tables.rel2id|, masking, b.graph, data).Success?
    ensures Batchable(EnrichAll(StageView(stage, b.tables, d), |b.tables.rel2id|, masking, b.graph, data).value)
  {
    var v := StageView(stage, b.tables, d);
    forall k | 0 <= k < |data| ensures Enrich(v, |b.tables.rel2id|, masking, b.graph, data[k]).Success? {
      EnrichSucceeds(stage, b, vocab, d, cfgMasking, masking, data[k]);
    }
    EnrichAllSpec(v, |b.tables.rel2id|, masking, b.graph, data);
    EnrichedBatchable(v, |b.tables.rel2id|, masking, b.graph, data);
  }

  /** The Batcher's label lookup on an enriched sample of the processor
      resolves: the supplemental triple is the sample's own triple. */
  lemma LabelsResolve(stage: Stage, b: Build, vocab: Vocab, d: Derived, cfgMasking: bool,
                      masking: bool, s: Sample)
    requires BuildValid(b, vocab) && DerivedFrom(b.tables, d)
    requires SampleFrom(s, b, cfgMasking)
    requires masking ==> cfgMasking
    ensures Enrich(StageView(stage, b.tables, d), |b.tables.rel2id|, masking, b.graph, s).Success?
    ensures LabelOf(StageView(stage, b.tables, d),
                    Enrich(StageView(stage, b.tables, d), |b.tables.rel2id|, masking, b.graph, s).value.supplemental.triple).Success?
  {
    EnrichSucceeds(stage, b, vocab, d, cfgMasking, masking, s);
    EnrichSpec(StageView(stage, b.tables, d), |b.tables.rel2id|, masking, b.graph, s);
  }
}
