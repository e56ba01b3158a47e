/** The sample parser: one annotated sentence becomes id sequences with the
    subject and object spans anonymised and two entity-relative position
    sequences (`DataProcessor.get_positions`, `map_to_ids` and the per-record
    part of `parse_data`). */
module Samples {
  import opened Common

  /** One record of a partition file. Span bounds are inclusive. */
  datatype RawRecord = RawRecord(
    token: seq<string>,
    subjStart: nat, subjEnd: nat, objStart: nat, objEnd: nat,
    subjType: string, objType: string,
    stanfordPos: seq<string>, stanfordNer: seq<string>, stanfordDeprel: seq<string>,
    relation: string)

  /** The vocabulary adapter: token, POS, NER and dependency-relation ids. */
  datatype Vocab = Vocab(
    word2id: map<string, int>, pos2id: map<string, int>,
    ner2id: map<string, int>, deprel2id: map<string, int>)

  /** The options the pipeline reads from its configuration. */
  datatype Config = Config(
    lower: bool, typedRelations: bool, relationMasking: bool,
    sampleSize: Option<nat>, batchSize: int, wordDropout: real)

  /** (subject-type id, relation id, object-type id). */
  datatype Triple = Triple(subj: int, rel: nat, obj: int)

  /** The `relation_masking` supplemental entry: first the triple, after
      iterator construction the set of relations known for the entity pair. */
  datatype Masking = MaskTriple(triple: Triple) | KnownRelations(rels: set<nat>)

  datatype Base = Base(
    tokens: seq<int>, pos: seq<int>, ner: seq<int>, deprel: seq<int>,
    subjPositions: seq<int>, objPositions: seq<int>,
    relation: nat, subjId: int, objId: int,
    activatedRelations: Option<seq<int>>)

  datatype Supplemental = Supplemental(triple: Triple, relationMasking: Option<Masking>)

  datatype Sample = Sample(base: Base, supplemental: Supplemental)

  /** Signed distance of every token from the span [startIdx, endIdx]. */
  function GetPositions(startIdx: int, endIdx: int, length: int): seq<int> {
    Range(-startIdx, 0) + Repeat(0, endIdx - startIdx + 1) + Range(1, length - endIdx)
  }

  /** For a span inside the sentence the sequence has one entry per token:
      negative before the span counting up to -1, zero on it, positive after
      it counting up from 1. */
  lemma PositionsShape(startIdx: int, endIdx: int, length: int)
    requires 0 <= startIdx <= endIdx < length
    ensures |GetPositions(startIdx, endIdx, length)| == length
    ensures forall k :: 0 <= k < length ==>
      GetPositions(startIdx, endIdx, length)[k] ==
        if k < startIdx then k - startIdx
        else if k <= endIdx then 0
        else k - endIdx
  {
    var a, b, c := Range(-startIdx, 0), Repeat(0, endIdx - startIdx + 1), Range(1, length - endIdx);
    var r := GetPositions(startIdx, endIdx, length);
    assert r == a + b + c;
    forall k | 0 <= k < length
      ensures r[k] == if k < startIdx then k - startIdx else if k <= endIdx then 0 else k - endIdx
    {
      if k < startIdx {
        assert r[k] == a[k];
      } else if k <= endIdx {
        assert r[k] == b[k - startIdx];
      } else {
        assert r[k] == c[k - endIdx - 1];
      }
    }
  }

  /** The zero entries are exactly the span, entries strictly increase before
      and after it. */
  lemma PositionsZeroOnSpan(startIdx: int, endIdx: int, length: int)
    requires 0 <= startIdx <= endIdx < length
    ensures forall k :: 0 <= k < length ==>
      (GetPositions(startIdx, endIdx, length)[k] == 0 <==> startIdx <= k <= endIdx)
    ensures forall k :: 0 <= k < length ==>
      (GetPositions(startIdx, endIdx, length)[k] < 0 <==> k < startIdx)
    ensures forall k :: 0 < k < length && (k <= startIdx || endIdx < k - 1) ==>
      GetPositions(startIdx, endIdx, length)[k - 1] + 1 == GetPositions(startIdx, endIdx, length)[k]
  {
    PositionsShape(startIdx, endIdx, length);
  }

  /** The id of a name, or the unknown id when the name is out of vocabulary. */
  function Lookup(mapper: map<string, int>, name: string): int {
    if name in mapper then mapper[name] else UNK_ID
  }

  function MapToIds(names: seq<string>, mapper: map<string, int>): (ids: seq<int>)
    ensures |ids| == |names|
    ensures forall i :: 0 <= i < |names| ==>
      (names[i] in mapper ==> ids[i] == mapper[names[i]]) &&
      (names[i] !in mapper ==> ids[i] == UNK_ID)
  {
    if names == [] then [] else [Lookup(mapper, names[0])] + MapToIds(names[1..], mapper)
  }

  /** Python `s[lo:hi] = r` for non-negative bounds: the bounds are clipped
      to the list, an empty slice inserts at `lo`. */
  function SliceAssign<T>(s: seq<T>, lo: nat, hi: nat, r: seq<T>): seq<T> {
    var a := if lo <= |s| then lo else |s|;
    var b := if hi <= |s| then (if a <= hi then hi else a) else |s|;
    s[..a] + r + s[b..]
  }

  /** Replaces the inclusive span [start, end] by a repeated entity-type token. */
  function Anonymize(tokens: seq<string>, start: nat, end: nat, typeToken: string): seq<string> {
    SliceAssign(tokens, start, end + 1, Repeat(typeToken, end - start + 1))
  }

  /** A span inside the sentence is overwritten token for token; the length
      and every other token stay as they were. */
  lemma AnonymizeInRange(tokens: seq<string>, start: nat, end: nat, typeToken: string)
    requires start <= end < |tokens|
    ensures |Anonymize(tokens, start, end, typeToken)| == |tokens|
    ensures forall k :: 0 <= k < |tokens| ==>
      Anonymize(tokens, start, end, typeToken)[k] ==
        if start <= k <= end then typeToken else tokens[k]
  {
    var rep := Repeat(typeToken, end - start + 1);
    var r := Anonymize(tokens, start, end, typeToken);
    assert r == tokens[..start] + rep + tokens[end + 1..];
    forall k | 0 <= k < |tokens|
      ensures r[k] == if start <= k <= end then typeToken else tokens[k]
    {
      if k < start {
        assert r[k] == tokens[..start][k];
      } else if k <= end {
        assert r[k] == rep[k - start];
      } else {
        assert r[k] == tokens[end + 1..][k - end - 1];
      }
    }
  }

  /** What one record contributes apart from the label tables. */
  datatype Features = Features(
    subjectType: string, objectType: string, subjectId: int, objectId: int,
    tokens: seq<int>, pos: seq<int>, ner: seq<int>, deprel: seq<int>,
    subjPositions: seq<int>, objPositions: seq<int>)

  function LowerTokens(tokens: seq<string>): (r: seq<string>)
    ensures |r| == |tokens|
  {
    seq(|tokens|, i requires 0 <= i < |tokens| => Lower(tokens[i]))
  }

  /** The record's token features. The two entity-type tokens `SUBJ-<type>`
      and `OBJ-<type>` must be in the vocabulary (their ids are the
      subject and object ids); otherwise the lookup raises a KeyError. */
  function Featurize(cfg: Config, vocab: Vocab, d: RawRecord): Result<Features> {
    var tokens := if cfg.lower then LowerTokens(d.token) else d.token;
    var subjectType := "SUBJ-" + d.subjType;
    var objectType := "OBJ-" + d.objType;
    if subjectType !in vocab.word2id || objectType !in vocab.word2id then Failure(KeyError)
    else
      var anonymized := Anonymize(Anonymize(tokens, d.subjStart, d.subjEnd, subjectType),
                                  d.objStart, d.objEnd, objectType);
      var ids := MapToIds(anonymized, vocab.word2id);
      Success(Features(
        subjectType, objectType, vocab.word2id[subjectType], vocab.word2id[objectType],
        ids,
        MapToIds(d.stanfordPos, vocab.pos2id),
        MapToIds(d.stanfordNer, vocab.ner2id),
        MapToIds(d.stanfordDeprel, vocab.deprel2id),
        GetPositions(d.subjStart, d.subjEnd, |ids|),
        GetPositions(d.objStart, d.objEnd, |ids|)))
  }

  /** Featurizing fails exactly when an entity-type token is unknown. */
  lemma FeaturizeFails(cfg: Config, vocab: Vocab, d: RawRecord)
    ensures Featurize(cfg, vocab, d).Failure? <==>
      ("SUBJ-" + d.subjType !in vocab.word2id || "OBJ-" + d.objType !in vocab.word2id)
  {
  }

  /** For spans inside the sentence: both position sequences and the token
      ids have one entry per token; the object span carries the object id,
      the rest of the subject span the subject id (the object is written
      second), every other token its own id; positions are zero exactly on
      their span. */
  lemma FeaturizeShape(cfg: Config, vocab: Vocab, d: RawRecord)
    requires Featurize(cfg, vocab, d).Success?
    requires d.subjStart <= d.subjEnd < |d.token|
    requires d.objStart <= d.objEnd < |d.token|
    ensures var f := Featurize(cfg, vocab, d).value;
      && |f.tokens| == |d.token| == |f.subjPositions| == |f.objPositions|
      && (forall k :: d.objStart <= k <= d.objEnd ==> f.tokens[k] == f.objectId)
      && (forall k :: d.subjStart <= k <= d.subjEnd && !(d.objStart <= k <= d.objEnd) ==>
            f.tokens[k] == f.subjectId)
      && (forall k :: 0 <= k < |d.token| && !(d.subjStart <= k <= d.subjEnd) && !(d.objStart <= k <= d.objEnd) ==>
            f.tokens[k] == Lookup(vocab.word2id, if cfg.lower then Lower(d.token[k]) else d.token[k]))
      && (forall k :: 0 <= k < |d.token| ==> (f.subjPositions[k] == 0 <==> d.subjStart <= k <= d.subjEnd))
      && (forall k :: 0 <= k < |d.token| ==> (f.objPositions[k] == 0 <==> d.objStart <= k <= d.objEnd))
  {
    var tokens := if cfg.lower then LowerTokens(d.token) else d.token;
    AnonymizedIds(tokens, d.subjStart, d.subjEnd, "SUBJ-" + d.subjType,
                  d.objStart, d.objEnd, "OBJ-" + d.objType, vocab.word2id);
    PositionsZeroOnSpan(d.subjStart, d.subjEnd, |d.token|);
    PositionsZeroOnSpan(d.objStart, d.objEnd, |d.token|);
  }

  /** The ids of a sentence whose subject span and then object span were
      overwritten by their entity-type tokens. */
  lemma AnonymizedIds(tokens: seq<string>, subjStart: nat, subjEnd: nat, subjectType: string,
                      objStart: nat, objEnd: nat, objectType: string, word2id: map<string, int>)
    requires subjStart <= subjEnd < |tokens| && objStart <= objEnd < |tokens|
    requires subjectType in word2id && objectType in word2id
    ensures var ids := MapToIds(Anonymize(Anonymize(tokens, subjStart, subjEnd, subjectType),
                                          objStart, objEnd, objectType), word2id);
      && |ids| == |tokens|
      && (forall k :: objStart <= k <= objEnd ==> ids[k] == word2id[objectType])
      && (forall k :: subjStart <= k <= subjEnd && !(objStart <= k <= objEnd) ==> ids[k] == word2id[subjectType])
      && (forall k :: 0 <= k < |tokens| && !(subjStart <= k <= subjEnd) && !(objStart <= k <= objEnd) ==>
            ids[k] == Lookup(word2id, tokens[k]))
  {
    var once := Anonymize(tokens, subjStart, subjEnd, subjectType);
    AnonymizeInRange(tokens, subjStart, subjEnd, subjectType);
    AnonymizeInRange(once, objStart, objEnd, objectType);
  }
}
