/** The label hierarchy built while parsing: relation ids in first-occurrence
    order, the binary / subject-type / subject-object-type groupings, the
    entity-pair relation graph, their reversed maps and the closed triple
    world. This module holds the value-level specification of what
    `DataProcessor.parse_data` does to its tables; the class in module
    Processor performs it step by step. */
module Hierarchy {
  import opened Common
  import opened Samples

  const NO_RELATION: string := "no_relation"
  const HAS_RELATION: string := "has_relation"
  const PER_RELATION: string := "per:relation"
  const ORG_RELATION: string := "org:relation"

  /** The incrementally built part of `name2id`. */
  datatype LabelTables = LabelTables(
    subj2id: map<string, int>, obj2id: map<string, int>,
    rel2id: map<string, nat>,
    binaryRel2Rels: map<string, set<nat>>,
    subj2Rels: map<string, set<nat>>,
    subjObj2Triples: map<string, set<Triple>>)

  /** Entity-pair relation graph: (subject id, object id) to relation ids. */
  type Graph = map<(int, int), set<nat>>

  datatype Build = Build(tables: LabelTables, graph: Graph)

  const EmptyTables: LabelTables := LabelTables(map[], map[], map[], map[], map[], map[])

  /** The relation's name, namespaced by the entity types in typed mode. */
  function RelationName(cfg: Config, d: RawRecord): string {
    if cfg.typedRelations then d.subjType + ":" + d.relation + ":" + d.objType else d.relation
  }

  function BinaryGroup(name: string): string {
    if name == NO_RELATION then NO_RELATION else HAS_RELATION
  }

  /** "per" is checked before "org". */
  function SubjectGroup(name: string): string {
    if Contains(name, "per") then PER_RELATION
    else if Contains(name, "org") then ORG_RELATION
    else NO_RELATION
  }

  function SubjObjGroup(name: string, subjectType: string, objectType: string): string {
    if name != NO_RELATION then subjectType + ":" + objectType else NO_RELATION
  }

  /** `defaultdict(set)`: `m[k].add(v)`. */
  function AddTo<K, V>(m: map<K, set<V>>, k: K, v: V): (r: map<K, set<V>>)
    ensures r.Keys == m.Keys + {k}
    ensures r[k] == (if k in m then m[k] else {}) + {v}
    ensures forall j :: j in m && j != k ==> r[j] == m[j]
  {
    m[k := (if k in m then m[k] else {}) + {v}]
  }

  /** The tables after one record with features `f` and relation `name`. */
  function StepTables(t: LabelTables, f: Features, name: string): LabelTables {
    var rel2id := Register(t.rel2id, name);
    var relId := rel2id[name];
    LabelTables(
      t.subj2id[f.subjectType := f.subjectId],
      t.obj2id[f.objectType := f.objectId],
      rel2id,
      AddTo(t.binaryRel2Rels, BinaryGroup(name), relId),
      AddTo(t.subj2Rels, SubjectGroup(name), relId),
      AddTo(t.subjObj2Triples, SubjObjGroup(name, f.subjectType, f.objectType),
            Triple(f.subjectId, relId, f.objectId)))
  }

  /** The tables and graph after one more record, and that record's sample. */
  function AbsorbRecord(cfg: Config, vocab: Vocab, b: Build, d: RawRecord): Result<(Build, Sample)> {
    match Featurize(cfg, vocab, d)
    case Failure(e) => Failure(e)
    case Success(f) =>
      var name := RelationName(cfg, d);
      var tables := StepTables(b.tables, f, name);
      var relId := tables.rel2id[name];
      var triple := Triple(f.subjectId, relId, f.objectId);
      var graph := if cfg.relationMasking then AddTo(b.graph, (f.subjectId, f.objectId), relId) else b.graph;
      var base := Base(f.tokens, f.pos, f.ner, f.deprel, f.subjPositions, f.objPositions,
                       relId, f.subjectId, f.objectId, None);
      var supplemental := Supplemental(triple, if cfg.relationMasking then Some(MaskTriple(triple)) else None);
      Success((Build(tables, graph), Sample(base, supplemental)))
  }

  /** The records absorbed one after the other; the first failure stops it. */
  function AbsorbAll(cfg: Config, vocab: Vocab, b: Build, data: seq<RawRecord>): Result<(Build, seq<Sample>)>
    decreases |data|
  {
    if data == [] then Success((b, []))
    else
      match AbsorbAll(cfg, vocab, b, data[..|data| - 1])
      case Failure(e) => Failure(e)
      case Success(prev) =>
        match AbsorbRecord(cfg, vocab, prev.0, data[|data| - 1])
        case Failure(e) => Failure(e)
        case Success(next) => Success((next.0, prev.1 + [next.1]))
  }

  // ---------------------------------------------------------------------
  // Invariants of the tables

  /** The relation ids are 0..k-1, one per name. */
  ghost predicate ContiguousIds(rel2id: map<string, nat>) {
    && (forall name :: name in rel2id ==> rel2id[name] < |rel2id|)
    && (forall a, b :: a in rel2id && b in rel2id && rel2id[a] == rel2id[b] ==> a == b)
    && (forall i: nat :: i < |rel2id| ==> i in rel2id.Values)
  }

  /** `groups` places every relation in the group `group` names for it and
      holds nothing else. */
  ghost predicate GroupedBy(rel2id: map<string, nat>, groups: map<string, set<nat>>, group: string -> string) {
    && (forall name :: name in rel2id ==> group(name) in groups && rel2id[name] in groups[group(name)])
    && (forall key, name :: key in groups && name in rel2id && rel2id[name] in groups[key] ==> key == group(name))
    && (forall key, r :: key in groups && r in groups[key] ==> r < |rel2id|)
    && (forall key :: key in groups ==> groups[key] != {})
  }

  /** Every grouped triple is made of an observed subject, a registered
      relation and an observed object. */
  ghost predicate TriplesObserved(t: LabelTables) {
    forall key, tr :: key in t.subjObj2Triples && tr in t.subjObj2Triples[key] ==>
      tr.subj in t.subj2id.Values && tr.rel < |t.rel2id| && tr.obj in t.obj2id.Values
  }

  /** The entity-type ids are the vocabulary's ids of the type tokens. */
  ghost predicate AgreesWith(m: map<string, int>, word2id: map<string, int>) {
    forall k :: k in m ==> k in word2id && m[k] == word2id[k]
  }

  ghost predicate TablesValid(t: LabelTables, vocab: Vocab) {
    && ContiguousIds(t.rel2id)
    && GroupedBy(t.rel2id, t.binaryRel2Rels, BinaryGroup)
    && GroupedBy(t.rel2id, t.subj2Rels, SubjectGroup)
    && TriplesObserved(t)
    && AgreesWith(t.subj2id, vocab.word2id)
    && AgreesWith(t.obj2id, vocab.word2id)
  }

  ghost predicate GraphValid(g: Graph, t: LabelTables) {
    forall p, r :: p in g && r in g[p] ==>
      p.0 in t.subj2id.Values && p.1 in t.obj2id.Values && r < |t.rel2id|
  }

  ghost predicate BuildValid(b: Build, vocab: Vocab) {
    TablesValid(b.tables, vocab) && GraphValid(b.graph, b.tables)
  }

  lemma EmptyBuildValid(vocab: Vocab)
    ensures BuildValid(Build(EmptyTables, map[]), vocab)
  {
  }

  /** Overwriting a key with the value it already has, or adding a new key,
      adds the value to the map's values and loses none. */
  lemma UpdateValues<K, V>(m: map<K, V>, k: K, v: V)
    requires k in m ==> m[k] == v
    ensures m[k := v].Values == m.Values + {v}
  {
    var m' := m[k := v];
    assert k in m' && m'[k] == v;
    forall x | x in m'.Values ensures x in m.Values + {v} {
      var j :| j in m' && m'[j] == x;
      if j != k { assert j in m && m[j] == x; }
    }
    forall x | x in m.Values ensures x in m'.Values {
      var j :| j in m && m[j] == x;
      if j == k { assert m'[k] == x; } else { assert m'[j] == x; }
    }
  }

  /** The id `parse_data` uses for a relation name: its registered one, or
      the next free one. */
  function Register(rel2id: map<string, nat>, name: string): map<string, nat> {
    if name in rel2id then rel2id else rel2id[name := |rel2id|]
  }

  /** Giving a new name the next id keeps the ids contiguous. */
  lemma NewIdKeepsContiguous(rel2id: map<string, nat>, name: string)
    requires ContiguousIds(rel2id) && name !in rel2id
    ensures ContiguousIds(rel2id[name := |rel2id|])
    ensures |rel2id[name := |rel2id|]| == |rel2id| + 1
  {
    var r := rel2id[name := |rel2id|];
    assert r.Keys == rel2id.Keys + {name};
    NewIdBounded(rel2id, name, r);
    NewIdInjective(rel2id, name, r);
    NewIdOnto(rel2id, name, r);
  }

  lemma NewIdBounded(rel2id: map<string, nat>, name: string, r: map<string, nat>)
    requires ContiguousIds(rel2id) && name !in rel2id && r == rel2id[name := |rel2id|]
    ensures forall n :: n in r ==> r[n] < |rel2id| + 1
  {
  }

  lemma NewIdInjective(rel2id: map<string, nat>, name: string, r: map<string, nat>)
    requires ContiguousIds(rel2id) && name !in rel2id && r == rel2id[name := |rel2id|]
    ensures forall a, b :: a in r && b in r && r[a] == r[b] ==> a == b
  {
    var k := |rel2id|;
    forall a, b | a in r && b in r && r[a] == r[b] ensures a == b {
      if a != name { assert rel2id[a] < k; }
      if b != name { assert rel2id[b] < k; }
    }
  }

  lemma NewIdOnto(rel2id: map<string, nat>, name: string, r: map<string, nat>)
    requires ContiguousIds(rel2id) && name !in rel2id && r == rel2id[name := |rel2id|]
    ensures forall i: nat :: i < |rel2id| + 1 ==> i in r.Values
  {
    var k := |rel2id|;
    UpdateValues(rel2id, name, k);
    forall i: nat | i < k + 1 ensures i in r.Values {
      if i < k { assert i in rel2id.Values; }
    }
  }

  /** `rel2id'` is `rel2id` with `name` registered: contiguous, every old
      id kept, a new name given the id k. */
  ghost predicate Extends(rel2id: map<string, nat>, name: string, rel2id': map<string, nat>) {
    && ContiguousIds(rel2id')
    && name in rel2id' && rel2id'.Keys == rel2id.Keys + {name}
    && (forall n :: n in rel2id ==> rel2id'[n] == rel2id[n])
    && (name !in rel2id ==> rel2id'[name] == |rel2id|)
    && |rel2id'| == if name in rel2id then |rel2id| else |rel2id| + 1
  }

  /** Registering a name keeps the ids contiguous, keeps every registered
      id, and gives a new name the id k. */
  lemma RegisterKeepsContiguous(rel2id: map<string, nat>, name: string)
    requires ContiguousIds(rel2id)
    ensures Extends(rel2id, name, Register(rel2id, name))
  {
    if name !in rel2id {
      NewIdKeepsContiguous(rel2id, name);
    } else {
      assert rel2id.Keys == rel2id.Keys + {name};
    }
  }

  /** Registering `name` and adding its id to its group keeps a grouping
      complete and exact. */
  lemma GroupedByAdd(rel2id: map<string, nat>, groups: map<string, set<nat>>,
                     group: string -> string, name: string)
    requires ContiguousIds(rel2id) && GroupedBy(rel2id, groups, group)
    ensures GroupedBy(Register(rel2id, name),
                      AddTo(groups, group(name), Register(rel2id, name)[name]), group)
  {
    RegisterKeepsContiguous(rel2id, name);
    var rel2id' := Register(rel2id, name);
    GroupedByStep(rel2id, groups, group, name, rel2id', AddTo(groups, group(name), rel2id'[name]));
  }

  lemma GroupedByStep(rel2id: map<string, nat>, groups: map<string, set<nat>>,
                      group: string -> string, name: string,
                      rel2id': map<string, nat>, groups': map<string, set<nat>>)
    requires GroupedBy(rel2id, groups, group) && Extends(rel2id, name, rel2id')
    requires groups' == AddTo(groups, group(name), rel2id'[name])
    ensures GroupedBy(rel2id', groups', group)
  {
    GroupedByAddComplete(rel2id, groups, group, name, rel2id', groups');
    GroupedByAddExact(rel2id, groups, group, name, rel2id', groups');
    GroupedByAddBounded(rel2id, groups, group, name, rel2id', groups');
  }

  lemma GroupedByAddComplete(rel2id: map<string, nat>, groups: map<string, set<nat>>,
                             group: string -> string, name: string,
                             rel2id': map<string, nat>, groups': map<string, set<nat>>)
    requires GroupedBy(rel2id, groups, group) && Extends(rel2id, name, rel2id')
    requires groups' == AddTo(groups, group(name), rel2id'[name])
    ensures forall n :: n in rel2id' ==> group(n) in groups' && rel2id'[n] in groups'[group(n)]
  {
    forall n | n in rel2id'
      ensures group(n) in groups' && rel2id'[n] in groups'[group(n)]
    {
      if n != name { assert n in rel2id; }
    }
  }

  lemma GroupedByAddExact(rel2id: map<string, nat>, groups: map<string, set<nat>>,
                          group: string -> string, name: string,
                          rel2id': map<string, nat>, groups': map<string, set<nat>>)
    requires GroupedBy(rel2id, groups, group) && Extends(rel2id, name, rel2id')
    requires groups' == AddTo(groups, group(name), rel2id'[name])
    ensures forall key, n :: key in groups' && n in rel2id' && rel2id'[n] in groups'[key] ==> key == group(n)
  {
    forall key, n | key in groups' && n in rel2id' && rel2id'[n] in groups'[key]
      ensures key == group(n)
    {
      if key == group(name) && rel2id'[n] == rel2id'[name] {
        assert n == name;
      } else {
        assert rel2id'[n] in groups[key];
        if n == name {
          assert name in rel2id;
        } else {
          assert n in rel2id;
        }
      }
    }
  }

  lemma GroupedByAddBounded(rel2id: map<string, nat>, groups: map<string, set<nat>>,
                            group: string -> string, name: string,
                            rel2id': map<string, nat>, groups': map<string, set<nat>>)
    requires GroupedBy(rel2id, groups, group) && Extends(rel2id, name, rel2id')
    requires groups' == AddTo(groups, group(name), rel2id'[name])
    ensures forall key, r :: key in groups' && r in groups'[key] ==> r < |rel2id'|
    ensures forall key :: key in groups' ==> groups'[key] != {}
  {
    forall key, r | key in groups' && r in groups'[key] ensures r < |rel2id'| {
      if key != group(name) || r != rel2id'[name] { assert r in groups[key]; }
    }
  }

  /** One step of the tables keeps their invariant, provided the entity
      ids are the vocabulary's. */
  lemma StepTablesValid(t: LabelTables, vocab: Vocab, f: Features, name: string)
    requires TablesValid(t, vocab)
    requires f.subjectType in vocab.word2id && f.subjectId == vocab.word2id[f.subjectType]
    requires f.objectType in vocab.word2id && f.objectId == vocab.word2id[f.objectType]
    ensures TablesValid(StepTables(t, f, name), vocab)
    ensures t.subj2id.Values <= StepTables(t, f, name).subj2id.Values
    ensures t.obj2id.Values <= StepTables(t, f, name).obj2id.Values
    ensures |t.rel2id| <= |StepTables(t, f, name).rel2id|
    ensures f.subjectId in StepTables(t, f, name).subj2id.Values
    ensures f.objectId in StepTables(t, f, name).obj2id.Values
    ensures name in StepTables(t, f, name).rel2id
    ensures StepTables(t, f, name).rel2id[name] < |StepTables(t, f, name).rel2id|
  {
    var t' := StepTables(t, f, name);
    RegisterKeepsContiguous(t.rel2id, name);
    GroupedByAdd(t.rel2id, t.binaryRel2Rels, BinaryGroup, name);
    GroupedByAdd(t.rel2id, t.subj2Rels, SubjectGroup, name);
    StepTriplesValid(t, vocab, f, name);
  }

  lemma StepTriplesValid(t: LabelTables, vocab: Vocab, f: Features, name: string)
    requires ContiguousIds(t.rel2id) && TriplesObserved(t)
    requires AgreesWith(t.subj2id, vocab.word2id) && AgreesWith(t.obj2id, vocab.word2id)
    requires f.subjectType in vocab.word2id && f.subjectId == vocab.word2id[f.subjectType]
    requires f.objectType in vocab.word2id && f.objectId == vocab.word2id[f.objectType]
    ensures t.subj2id.Values <= StepTables(t, f, name).subj2id.Values
    ensures t.obj2id.Values <= StepTables(t, f, name).obj2id.Values
    ensures |t.rel2id| <= |StepTables(t, f, name).rel2id|
    ensures TriplesObserved(StepTables(t, f, name))
    ensures AgreesWith(StepTables(t, f, name).subj2id, vocab.word2id)
    ensures AgreesWith(StepTables(t, f, name).obj2id, vocab.word2id)
    ensures f.subjectId in StepTables(t, f, name).subj2id.Values
    ensures f.objectId in StepTables(t, f, name).obj2id.Values
  {
    var t' := StepTables(t, f, name);
    RegisterKeepsContiguous(t.rel2id, name);
    assert t'.rel2id == Register(t.rel2id, name);
    assert t'.subj2id == t.subj2id[f.subjectType := f.subjectId];
    assert t'.obj2id == t.obj2id[f.objectType := f.objectId];
    UpdateAgrees(t.subj2id, vocab.word2id, f.subjectType, f.subjectId);
    UpdateAgrees(t.obj2id, vocab.word2id, f.objectType, f.objectId);
    AddTripleObserved(t, t', Triple(f.subjectId, t'.rel2id[name], f.objectId),
                      SubjObjGroup(name, f.subjectType, f.objectType));
  }

  /** Recording the vocabulary's id of a type token keeps the agreement and
      adds that id to the observed ones. */
  lemma UpdateAgrees(m: map<string, int>, word2id: map<string, int>, k: string, v: int)
    requires AgreesWith(m, word2id) && k in word2id && v == word2id[k]
    ensures AgreesWith(m[k := v], word2id)
    ensures m[k := v].Values == m.Values + {v}
    ensures v in m[k := v].Values
  {
    UpdateValues(m, k, v);
  }

  /** Adding a triple of observed parts keeps the grouped triples observed. */
  lemma AddTripleObserved(t: LabelTables, t': LabelTables, tr: Triple, key: string)
    requires TriplesObserved(t)
    requires t'.subjObj2Triples == AddTo(t.subjObj2Triples, key, tr)
    requires t.subj2id.Values <= t'.subj2id.Values && t.obj2id.Values <= t'.obj2id.Values
    requires |t.rel2id| <= |t'.rel2id|
    requires tr.subj in t'.subj2id.Values && tr.rel < |t'.rel2id| && tr.obj in t'.obj2id.Values
    ensures TriplesObserved(t')
  {
    forall k, x | k in t'.subjObj2Triples && x in t'.subjObj2Triples[k]
      ensures x.subj in t'.subj2id.Values && x.rel < |t'.rel2id| && x.obj in t'.obj2id.Values
    {
      if k != key || x != tr {
        assert x in t.subjObj2Triples[k];
      }
    }
  }

  /** Absorbing a record keeps every invariant. */
  lemma AbsorbKeepsValid(cfg: Config, vocab: Vocab, b: Build, d: RawRecord)
    requires BuildValid(b, vocab)
    requires AbsorbRecord(cfg, vocab, b, d).Success?
    ensures BuildValid(AbsorbRecord(cfg, vocab, b, d).value.0, vocab)
  {
    var f := Featurize(cfg, vocab, d).value;
    var name := RelationName(cfg, d);
    var t' := StepTables(b.tables, f, name);
    StepTablesValid(b.tables, vocab, f, name);
    var relId := t'.rel2id[name];
    var g' := if cfg.relationMasking then AddTo(b.graph, (f.subjectId, f.objectId), relId) else b.graph;
    assert AbsorbRecord(cfg, vocab, b, d).value.0 == Build(t', g');
    GraphGrows(b.graph, b.tables, t');
    if cfg.relationMasking {
      AddEdgeKeepsGraph(b.graph, t', (f.subjectId, f.objectId), relId);
    }
  }

  /** A valid graph stays valid when the tables grow. */
  lemma GraphGrows(g: Graph, t: LabelTables, t': LabelTables)
    requires GraphValid(g, t)
    requires t.subj2id.Values <= t'.subj2id.Values && t.obj2id.Values <= t'.obj2id.Values
    requires |t.rel2id| <= |t'.rel2id|
    ensures GraphValid(g, t')
  {
  }

  /** Adding an edge between observed entities keeps the graph valid. */
  lemma AddEdgeKeepsGraph(g: Graph, t: LabelTables, p: (int, int), r: nat)
    requires GraphValid(g, t)
    requires p.0 in t.subj2id.Values && p.1 in t.obj2id.Values && r < |t.rel2id|
    ensures GraphValid(AddTo(g, p, r), t)
  {
    var g' := AddTo(g, p, r);
    forall q, x | q in g' && x in g'[q]
      ensures q.0 in t.subj2id.Values && q.1 in t.obj2id.Values && x < |t.rel2id|
    {
      if q != p || x != r { assert x in g[q]; }
    }
  }

  /** Absorbing a sequence of valid records keeps every invariant. */
  lemma {:induction false} AbsorbAllKeepsValid(cfg: Config, vocab: Vocab, b: Build, data: seq<RawRecord>)
    requires BuildValid(b, vocab)
    requires AbsorbAll(cfg, vocab, b, data).Success?
    ensures BuildValid(AbsorbAll(cfg, vocab, b, data).value.0, vocab)
    decreases |data|
  {
    if data != [] {
      AbsorbAllKeepsValid(cfg, vocab, b, data[..|data| - 1]);
      var prev := AbsorbAll(cfg, vocab, b, data[..|data| - 1]).value;
      AbsorbKeepsValid(cfg, vocab, prev.0, data[|data| - 1]);
    }
  }

  // ---------------------------------------------------------------------
  // First-occurrence numbering

  /** Each name of a duplicate-free list mapped to its position. */
  function Numbering(order: seq<string>): map<string, nat>
    requires forall i, j :: 0 <= i < j < |order| ==> order[i] != order[j]
  {
    map name | name in order :: IndexOf(order, name)
  }

  function RelationNames(cfg: Config, data: seq<RawRecord>): (names: seq<string>)
    ensures |names| == |data|
    ensures forall i :: 0 <= i < |data| ==> names[i] == RelationName(cfg, data[i])
  {
    if data == [] then [] else RelationNames(cfg, data[..|data| - 1]) + [RelationName(cfg, data[|data| - 1])]
  }

  lemma NumberingAppend(order: seq<string>, name: string)
    requires Distinct(order) && name !in order
    ensures Distinct(order + [name])
    ensures |Numbering(order)| == |order|
    ensures Numbering(order + [name]) == Numbering(order)[name := |order|]
  {
    var o' := order + [name];
    forall n | n in order ensures IndexOf(o', n) == IndexOf(order, n) {
      var i := IndexOf(order, n);
      assert o'[i] == n;
    }
    assert IndexOf(o', name) == |order| by {
    }
    NumberingSize(order);
  }

  lemma NumberingSize(order: seq<string>)
    requires Distinct(order)
    ensures |Numbering(order)| == |order|
  {
    assert Numbering(order).Keys == Elements(order);
    DistinctCard(order);
  }

  /** Relation ids are assigned in order of first occurrence: starting from
      the numbering of `order`, absorbing `data` numbers every relation name
      by its position among the names seen so far. */
  lemma {:induction false} IdsInFirstOccurrenceOrder(cfg: Config, vocab: Vocab, b: Build, order: seq<string>, data: seq<RawRecord>)
    requires Distinct(order) && b.tables.rel2id == Numbering(order)
    requires AbsorbAll(cfg, vocab, b, data).Success?
    ensures Distinct(FirstOccurrences(order, RelationNames(cfg, data)))
    ensures AbsorbAll(cfg, vocab, b, data).value.0.tables.rel2id ==
            Numbering(FirstOccurrences(order, RelationNames(cfg, data)))
    decreases |data|
  {
    if data != [] {
      var init := data[..|data| - 1];
      var d := data[|data| - 1];
      IdsInFirstOccurrenceOrder(cfg, vocab, b, order, init);
      assert RelationNames(cfg, data)[..|data| - 1] == RelationNames(cfg, init);
      var prevOrder := FirstOccurrences(order, RelationNames(cfg, init));
      var prev := AbsorbAll(cfg, vocab, b, init).value.0;
      var name := RelationName(cfg, d);
      if name !in prevOrder {
        NumberingAppend(prevOrder, name);
      }
    }
  }

  // ---------------------------------------------------------------------
  // Derived maps

  /** `id2rel`: the inverse of `rel2id`. */
  function Invert(rel2id: map<string, nat>): (id2rel: map<nat, string>)
    requires forall a, b :: a in rel2id && b in rel2id && rel2id[a] == rel2id[b] ==> a == b
  {
    map name | name in rel2id :: rel2id[name] := name
  }

  /** With contiguous ids, `id2rel` is keyed by 0..k-1 and is the exact
      inverse of `rel2id` in both directions. */
  lemma InvertIsInverse(rel2id: map<string, nat>)
    requires ContiguousIds(rel2id)
    ensures Invert(rel2id).Keys == Below(|rel2id|)
    ensures forall name :: name in rel2id ==> Invert(rel2id)[rel2id[name]] == name
    ensures forall i :: i in Invert(rel2id) ==> Invert(rel2id)[i] in rel2id && rel2id[Invert(rel2id)[i]] == i
  {
    var inv := Invert(rel2id);
    forall i: nat | i < |rel2id| ensures i in inv {
      assert i in rel2id.Values;
      var n :| n in rel2id && rel2id[n] == i;
      assert rel2id[n] in inv;
    }
    forall i | i in inv ensures inv[i] in rel2id && rel2id[inv[i]] == i {
      var n :| n in rel2id && rel2id[n] == i;
    }
  }

  /** `rel2ids`: every relation name mapped to the singleton of its id. */
  function Singletons(rel2id: map<string, nat>): (r: map<string, set<nat>>)
    ensures r.Keys == rel2id.Keys
    ensures forall name :: name in r ==> r[name] == {rel2id[name]}
  {
    map name | name in rel2id :: {rel2id[name]}
  }

  /** `v` is held by some group of `m`. */
  ghost predicate Grouped<K, V>(m: map<K, set<V>>, v: V) {
    exists k :: k in m && v in m[k]
  }

  /** `r` is a reversal of the label-to-set map `m` (`reverse_set_maps`): its
      keys are exactly the members of the groups, and each is mapped to a
      group that holds it. Which group wins for a member held by several
      depends on dictionary order, which the model leaves open. */
  ghost predicate IsReverse<K, V>(m: map<K, set<V>>, r: map<V, K>) {
    && (forall v :: v in r ==> r[v] in m && v in m[r[v]])
    && (forall k, v :: k in m && v in m[k] ==> v in r)
  }

  /** When the groups come from a valid grouping, the reversal is unique: it
      maps every relation id to its own group and holds nothing else. */
  lemma ReverseOfGrouping(rel2id: map<string, nat>, groups: map<string, set<nat>>,
                          group: string -> string, r: map<nat, string>)
    requires ContiguousIds(rel2id) && GroupedBy(rel2id, groups, group)
    requires IsReverse(groups, r)
    ensures r.Keys == Below(|rel2id|)
    ensures forall name :: name in rel2id ==> r[rel2id[name]] == group(name)
  {
    forall name | name in rel2id ensures rel2id[name] in r && r[rel2id[name]] == group(name) {
      assert rel2id[name] in groups[group(name)];
    }
    forall i: nat | i < |rel2id| ensures i in r {
      assert i in rel2id.Values;
      var n :| n in rel2id && rel2id[n] == i;
    }
  }

  /** Both binary groups: `no_relation` holds exactly the id of the name
      `no_relation`, `has_relation` exactly the ids of all other names. */
  lemma BinaryGroups(t: LabelTables, vocab: Vocab)
    requires TablesValid(t, vocab)
    ensures forall name :: name in t.rel2id ==>
      (NO_RELATION in t.binaryRel2Rels && t.rel2id[name] in t.binaryRel2Rels[NO_RELATION] <==> name == NO_RELATION)
    ensures forall name :: name in t.rel2id ==>
      (HAS_RELATION in t.binaryRel2Rels && t.rel2id[name] in t.binaryRel2Rels[HAS_RELATION] <==> name != NO_RELATION)
    ensures t.binaryRel2Rels.Keys <= {NO_RELATION, HAS_RELATION}
  {
    forall key | key in t.binaryRel2Rels ensures key in {NO_RELATION, HAS_RELATION} {
      // every group was created for some relation
      if key !in {NO_RELATION, HAS_RELATION} {
        GroupsNonEmptyKeyed(t, vocab, key);
      }
    }
  }

  /** A binary group key is the group of some registered relation. */
  lemma GroupsNonEmptyKeyed(t: LabelTables, vocab: Vocab, key: string)
    requires TablesValid(t, vocab) && key in t.binaryRel2Rels
    requires t.binaryRel2Rels[key] != {}
    ensures key == NO_RELATION || key == HAS_RELATION
  {
    var r :| r in t.binaryRel2Rels[key];
    assert r in t.rel2id.Values;
    var n :| n in t.rel2id && t.rel2id[n] == r;
  }

  /** The subject-type rule: a name containing "per" goes to per:relation,
      even when it also contains "org"; otherwise one containing "org" goes
      to org:relation; anything else to no_relation. */
  lemma SubjectGroupRule(name: string)
    ensures SubjectGroup(name) == PER_RELATION <==> exists i :: OccursAt(name, "per", i)
    ensures SubjectGroup(name) == ORG_RELATION <==>
      (!exists i :: OccursAt(name, "per", i)) && (exists i :: OccursAt(name, "org", i))
    ensures SubjectGroup(name) == NO_RELATION <==>
      (!exists i :: OccursAt(name, "per", i)) && (!exists i :: OccursAt(name, "org", i))
  {
    ContainsOccurs(name, "per");
    ContainsOccurs(name, "org");
  }

  // ---------------------------------------------------------------------
  // Closed triple world

  /** Every (observed subject id, relation id, observed object id). */
  function AllTriples(t: LabelTables): set<Triple> {
    set s <- t.subj2id.Values, r <- t.rel2id.Values, o <- t.obj2id.Values :: Triple(s, r, o)
  }

  /** `triple2subj_obj` after the closure: the reversed subject-object map,
      plus every triple of the product not in it, mapped to no_relation. */
  ghost predicate ClosedTripleMap(t: LabelTables, triple2SubjObj: map<Triple, string>) {
    && (forall tr :: Grouped(t.subjObj2Triples, tr) ==>
          tr in triple2SubjObj && triple2SubjObj[tr] in t.subjObj2Triples &&
          tr in t.subjObj2Triples[triple2SubjObj[tr]])
    && (forall tr :: tr in AllTriples(t) && !Grouped(t.subjObj2Triples, tr) ==>
          tr in triple2SubjObj && triple2SubjObj[tr] == NO_RELATION)
    && (forall tr :: tr in triple2SubjObj ==> Grouped(t.subjObj2Triples, tr) || tr in AllTriples(t))
  }

  /** After the closure every triple of subjects x relations x objects
      resolves to a label; the observed ones resolve to a group holding them. */
  lemma ClosedWorldComplete(t: LabelTables, triple2SubjObj: map<Triple, string>, s: int, r: nat, o: int)
    requires ClosedTripleMap(t, triple2SubjObj)
    requires s in t.subj2id.Values && r in t.rel2id.Values && o in t.obj2id.Values
    ensures Triple(s, r, o) in triple2SubjObj
  {
    assert Triple(s, r, o) in AllTriples(t);
  }
}
