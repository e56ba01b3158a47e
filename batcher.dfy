/** The `Batcher` of the data pipeline: built from the enriched samples of
    one partition, it shuffles them in place (training partitions only),
    looks up every sample's label, cuts the samples into batches, and on
    access readies one batch: sorted by sentence length, word dropout,
    padded tensors and the triple columns. */
module Batchers {
  import opened Common
  import opened Samples
  import opened Batching
  import opened Curriculum

  /** `np.random.shuffle` in place, with the swap positions drawn given. */
  method Shuffle<T>(a: array<T>, js: seq<nat>)
    requires ValidDraws(js, a.Length)
    modifies a
    ensures a[..] == Shuffled(old(a[..]), js)
  {
    var i: nat := a.Length;
    while i > 1
      invariant i <= a.Length
      invariant ShuffleDown(a[..], js, i) == Shuffled(old(a[..]), js)
    {
      i := i - 1;
      var j := js[i];
      a[i], a[j] := a[j], a[i];
    }
  }

  /** The drawn values for word dropout: one row per sentence, each at
      least as long as any sentence of the batch. */
  ghost predicate DrawsFit(draws: seq<seq<real>>, rows: seq<BaseRow>) {
    |rows| <= |draws| && forall k, l :: 0 <= k < |rows| && 0 <= l < |rows| ==> |rows[l].tokens| <= |draws[k]|
  }

  /** `t` is the padded tensor of `rows` with `height` rows. */
  ghost predicate Pads(t: array2<int>, rows: seq<seq<int>>, height: nat)
    reads t
  {
    && t.Length0 == height && t.Length1 == MaxLen(rows)
    && forall i, j :: 0 <= i < height && 0 <= j < t.Length1 ==> t[i, j] == PaddedAt(rows, i, j)
  }

  /** `b` is `rows` readied into tensors of height `height`: the rows
      sorted by `SortOrder` of their lengths, the words (after dropout
      outside evaluation), the mask of the padding, and each other field
      padded to its longest row. */
  ghost predicate Readied(b: ReadyBase, rows: seq<BaseRow>, height: nat, isEval: bool,
                          draws: seq<seq<real>>, dropout: real)
    reads b.words, b.masks, b.pos, b.ner, b.deprel, b.subjPositions, b.objPositions, b.rels
  {
    var lens := Lengths(rows);
    var sorted := Permute(rows, SortOrder(lens));
    && b.origIdx == SortOrder(lens) && b.sentenceLengths == lens
    && (!isEval ==> DrawsFit(draws, sorted))
    && Pads(b.words, Words(sorted, isEval, draws, dropout), height)
    && MasksZeros(b.masks, b.words)
    && Pads(b.pos, Column(sorted, (x: BaseRow) => x.pos), height)
    && Pads(b.ner, Column(sorted, (x: BaseRow) => x.ner), height)
    && Pads(b.deprel, Column(sorted, (x: BaseRow) => x.deprel), height)
    && Pads(b.subjPositions, Column(sorted, (x: BaseRow) => x.subjPositions), height)
    && Pads(b.objPositions, Column(sorted, (x: BaseRow) => x.objPositions), height)
    && Pads(b.rels, Column(sorted, (x: BaseRow) => x.activatedRelations), height)
  }

  /** One field of every row, as a column (`zip(*batch)`). */
  function Column<R, C>(rows: seq<R>, field: R -> C): (c: seq<C>)
    ensures |c| == |rows|
  {
    seq(|rows|, k requires 0 <= k < |rows| => field(rows[k]))
  }

  /** The subject, relation and object columns of `triples`, each in
      the order `sort_all` gives for `lens`. */
  ghost predicate TriplesReadied(cols: (seq<int>, seq<int>, seq<int>), triples: seq<Triple>, lens: seq<nat>) {
    && cols.0 == SortColumn(Column(triples, (t: Triple) => t.subj), lens)
    && cols.1 == SortColumn(Column(triples, (t: Triple) => t.rel as int), lens)
    && cols.2 == SortColumn(Column(triples, (t: Triple) => t.obj), lens)
  }

  /** `m` is `torch.eq(t, 0)`: true exactly where `t` holds 0. */
  ghost predicate MasksZeros(m: array2<bool>, t: array2<int>)
    reads m, t
  {
    && m.Length0 == t.Length0 && m.Length1 == t.Length1
    && forall i, j :: 0 <= i < m.Length0 && 0 <= j < m.Length1 ==> (m[i, j] <==> t[i, j] == 0)
  }

  /** `torch.eq(t, 0)`. */
  method EqZero(t: array2<int>) returns (m: array2<bool>)
    ensures fresh(m) && MasksZeros(m, t)
  {
    m := new bool[t.Length0, t.Length1]((i, j) reads t =>
      if 0 <= i < t.Length0 && 0 <= j < t.Length1 then t[i, j] == 0 else false);
  }

  function Lengths(rows: seq<BaseRow>): (lens: seq<nat>)
    ensures |lens| == |rows|
  {
    seq(|rows|, k requires 0 <= k < |rows| => |rows[k].tokens|)
  }

  /** The words of the sorted rows, with dropout applied outside evaluation. */
  function Words(sorted: seq<BaseRow>, isEval: bool, draws: seq<seq<real>>, dropout: real): (w: seq<seq<int>>)
    requires !isEval ==> DrawsFit(draws, sorted)
    ensures |w| == |sorted|
  {
    seq(|sorted|, k requires 0 <= k < |sorted| =>
      if isEval then sorted[k].tokens else WordDropout(sorted[k].tokens, draws[k], dropout))
  }

  /** The readied base part of a batch: eight padded tensors, `orig_idx`
      and the unsorted sentence lengths. `masks` is `torch.eq(words, 0)`. */
  datatype ReadyBase = ReadyBase(
    words: array2<int>, masks: array2<bool>, pos: array2<int>, ner: array2<int>, deprel: array2<int>,
    subjPositions: array2<int>, objPositions: array2<int>, rels: array2<int>,
    origIdx: seq<nat>, sentenceLengths: seq<nat>)

  /** A readied batch: the base part and the sorted triple columns. */
  datatype ReadyBatch = ReadyBatch(base: ReadyBase, subjects: seq<int>, relations: seq<int>, objects: seq<int>)

  class Batcher {
    const view: View
    const batchSize: int
    const isEval: bool
    const dropout: real
    var labels: seq<string>
    var numExamples: nat
    var batches: seq<Batch>

    /** There are ceil(numExamples / batchSize) batches, none of them
        empty or larger than the batch size, each with one triple per
        sample. */
    ghost predicate Valid()
      reads this
    {
      && batchSize != 0
      && (batchSize < 0 ==> batches == [])
      && (batchSize > 0 ==>
            && numExamples <= |batches| * batchSize
            && (|batches| > 0 ==> (|batches| - 1) * batchSize < numExamples))
      && (forall k :: 0 <= k < |batches| ==>
            0 < |batches[k].base| == |batches[k].triples| && |batches[k].base| <= batchSize)
    }

    /** `Batcher.__init__`: shuffles the dataset in place unless it is an
        evaluation partition, labels every sample and batches the
        samples in their new order. */
    constructor(dataset: array<Sample>, view: View, batchSize: int, isEval: bool, dropout: real, js: seq<nat>)
      requires ValidDraws(js, dataset.Length)
      requires Labels(view, dataset[..]).Success?
      requires batchSize != 0 && Batchable(dataset[..])
      modifies dataset
      ensures dataset[..] == if isEval then old(dataset[..]) else Shuffled(old(dataset[..]), js)
      ensures this.view == view && this.batchSize == batchSize && this.isEval == isEval && this.dropout == dropout
      ensures Labels(view, dataset[..]).Success? && labels == Labels(view, dataset[..]).value
      ensures numExamples == dataset.Length
      ensures Batching.CreateBatches(dataset[..], batchSize).Success?
      ensures batches == Batching.CreateBatches(dataset[..], batchSize).value
      ensures Valid()
    {
      this.view := view;
      this.batchSize := batchSize;
      this.isEval := isEval;
      this.dropout := dropout;
      new;
      if !isEval {
        Shuffle(dataset, js);
        ShuffledPermutes(old(dataset[..]), js);
        Rearranged(view, old(dataset[..]), dataset[..]);
      }
      labels := Labels(view, dataset[..]).value;
      numExamples := dataset.Length;
      var r := CreateBatches(dataset[..], batchSize);
      CreateBatchesSucceeds(dataset[..], batchSize);
      batches := r.value;
      BatchesShape(dataset[..], batchSize);
    }

    /** `create_batches`, one slice of the data per batch start. */
    method CreateBatches(data: seq<Sample>, size: int) returns (r: Result<seq<Batch>>)
      ensures r == Batching.CreateBatches(data, size)
    {
      if size == 0 {
        return Failure(ValueError);
      }
      if size < 0 || data == [] {
        return Success([]);
      }
      var withMasking := data[0].supplemental.relationMasking.Some?;
      ghost var chunks := Chunks(data, size);
      var batched: seq<Batch> := [];
      var start := 0;
      ghost var i := 0;
      while start < |data|
        invariant 0 <= start <= |data| && 0 <= i <= |chunks|
        invariant chunks[i..] == Chunks(data[start..], size)
        invariant BatchAll(withMasking, chunks[..i]) == Success(batched)
        decreases |data| - start
      {
        var end := Min(start + size, |data|);
        var batch := data[start..end];
        ChunksFrom(data, size, start);
        assert chunks[i] == chunks[i..][0] == batch;
        assert chunks[i + 1..] == chunks[i..][1..];
        assert chunks[..i + 1][..i] == chunks[..i];
        var made := MakeBatch(withMasking, batch);
        if made.Failure? {
          BatchAllPrefixFails(withMasking, chunks, i + 1);
          return Failure(made.error);
        }
        batched := batched + [made.value];
        start := end;
        i := i + 1;
      }
      assert chunks[..i] == chunks;
      return Success(batched);
    }

    /** `get_long_tensor`: a `batchSize` x (longest row) tensor of PAD
        filled row by row. `max` refuses an empty list; a row past the
        tensor's height is an IndexError. */
    static method GetLongTensor(tokensList: seq<seq<int>>, batchSize: nat) returns (r: Result<array2<int>>)
      ensures r.Success? <==> tokensList != [] && |tokensList| <= batchSize
      ensures r.Failure? ==> r.error == if tokensList == [] then ValueError else IndexError
      ensures r.Success? ==> fresh(r.value) && Pads(r.value, tokensList, batchSize)
    {
      if tokensList == [] {
        return Failure(ValueError);
      }
      var width := MaxLen(tokensList);
      MaxLenSpec(tokensList);
      var tokens := new int[batchSize, width]((i, j) => PAD_ID);
      var i := 0;
      while i < |tokensList|
        invariant 0 <= i <= |tokensList| && i <= batchSize
        invariant forall a, b :: 0 <= a < batchSize && 0 <= b < width ==>
          tokens[a, b] == if a < i then PaddedAt(tokensList, a, b) else PAD_ID
      {
        if i == batchSize {
          return Failure(IndexError);
        }
        var s := tokensList[i];
        var j := 0;
        while j < |s|
          invariant 0 <= j <= |s| && |s| <= width
          invariant forall a, b :: 0 <= a < batchSize && 0 <= b < width ==>
            tokens[a, b] == if a < i || (a == i && b < j) then PaddedAt(tokensList, a, b) else PAD_ID
        {
          tokens[i, j] := s[j];
          j := j + 1;
        }
        i := i + 1;
      }
      return Success(tokens);
    }

    /** `ready_base_batch`: the rows sorted by length (longest first), word
        dropout on the sorted words outside evaluation, every field padded,
        `masks` true exactly on padding ids, and the original order of the
        sorted rows. The unzipped batch must have its seven fields. */
    method ReadyBaseBatch(baseBatch: seq<BaseRow>, batchSize: nat, draws: seq<seq<real>>) returns (r: Result<ReadyBase>)
      requires !isEval ==> DrawsFit(draws, baseBatch)
      ensures baseBatch == [] ==> r == Failure(AssertionError)
      ensures baseBatch != [] && |baseBatch| > batchSize ==> r == Failure(IndexError)
      ensures baseBatch != [] && |baseBatch| <= batchSize ==> r.Success?
      ensures r.Success? ==>
        && fresh(r.value.words) && fresh(r.value.masks) && fresh(r.value.pos) && fresh(r.value.ner)
        && fresh(r.value.deprel) && fresh(r.value.subjPositions) && fresh(r.value.objPositions)
        && fresh(r.value.rels)
        && Readied(r.value, baseBatch, batchSize, isEval, draws, dropout)
    {
      if baseBatch == [] {
        return Failure(AssertionError);
      }
      var lens := Lengths(baseBatch);
      var origIdx := SortOrder(lens);
      SortOrderSpec(lens);
      var sorted := Permute(baseBatch, origIdx);
      SortedDrawsFit(draws, baseBatch, origIdx);
      var words := Words(sorted, isEval, draws, dropout);
      var wordsTensor := GetLongTensor(words, batchSize);
      if wordsTensor.Failure? {
        return Failure(wordsTensor.error);
      }
      var w := wordsTensor.value;
      var masks := EqZero(w);
      var pos := GetLongTensor(Column(sorted, (x: BaseRow) => x.pos), batchSize);
      var ner := GetLongTensor(Column(sorted, (x: BaseRow) => x.ner), batchSize);
      var deprel := GetLongTensor(Column(sorted, (x: BaseRow) => x.deprel), batchSize);
      var subjPositions := GetLongTensor(Column(sorted, (x: BaseRow) => x.subjPositions), batchSize);
      var objPositions := GetLongTensor(Column(sorted, (x: BaseRow) => x.objPositions), batchSize);
      var rels := GetLongTensor(Column(sorted, (x: BaseRow) => x.activatedRelations), batchSize);
      return Success(ReadyBase(w, masks, pos.value, ner.value, deprel.value, subjPositions.value,
                               objPositions.value, rels.value, origIdx, lens));
    }

    /** Sorting the rows leaves the dropout draws fitting them. */
    static lemma SortedDrawsFit(draws: seq<seq<real>>, rows: seq<BaseRow>, order: seq<nat>)
      requires IsPermutation(order, |rows|)
      ensures DrawsFit(draws, Permute(rows, order)) == DrawsFit(draws, rows)
    {
      var sorted := Permute(rows, order);
      if DrawsFit(draws, rows) {
        forall k, l | 0 <= k < |sorted| && 0 <= l < |sorted| ensures |sorted[l].tokens| <= |draws[k]| {
          assert sorted[l] == rows[order[l]];
        }
      }
      if DrawsFit(draws, sorted) {
        forall k, l | 0 <= k < |rows| && 0 <= l < |rows| ensures |rows[l].tokens| <= |draws[k]| {
          var m := IndexOf(order, l);
          assert sorted[m] == rows[l];
        }
      }
    }

    /** `ready_triple_batch`: the subject, relation and object columns in
        the sentence-length order. With no lengths `sort_all` has no index
        column to return; an empty batch leaves nothing to unpack into the
        three columns. */
    static method ReadyTripleBatch(tripleBatch: seq<Triple>, sentenceLengths: seq<nat>)
      returns (r: Result<(seq<int>, seq<int>, seq<int>)>)
      ensures sentenceLengths == [] ==> r == Failure(IndexError)
      ensures sentenceLengths != [] && tripleBatch == [] ==> r == Failure(ValueError)
      ensures r.Success? <==> sentenceLengths != [] && tripleBatch != []
      ensures r.Success? ==> TriplesReadied(r.value, tripleBatch, sentenceLengths)
    {
      if sentenceLengths == [] {
        return Failure(IndexError);
      }
      if tripleBatch == [] {
        return Failure(ValueError);
      }
      var subjects := Column(tripleBatch, (t: Triple) => t.subj);
      var relations := Column(tripleBatch, (t: Triple) => t.rel as int);
      var objects := Column(tripleBatch, (t: Triple) => t.obj);
      return Success((SortColumn(subjects, sentenceLengths), SortColumn(relations, sentenceLengths),
                      SortColumn(objects, sentenceLengths)));
    }

    /** `ready_binary_labels_batch` with the relation count given: each
        label, in sentence-length order, as a row of width numRel - 1,
        one-hot at the label when it is inside the row. With no lengths
        `sort_all` has no index column to return, an empty column has no
        first field to read, and numpy refuses a negative width. */
    static method ReadyBinaryLabelsBatch(labelBatch: seq<nat>, sentenceLengths: seq<nat>, numRel: int)
      returns (r: Result<seq<seq<int>>>)
      ensures labelBatch == [] || sentenceLengths == [] ==> r == Failure(IndexError)
      ensures labelBatch != [] && sentenceLengths != [] && numRel < 1 ==> r == Failure(ValueError)
      ensures r.Success? ==> numRel >= 1
      ensures r.Success? ==>
        r.value == seq(|SortColumn(labelBatch, sentenceLengths)|,
                       k requires 0 <= k < |SortColumn(labelBatch, sentenceLengths)| =>
                         LabelRow(SortColumn(labelBatch, sentenceLengths)[k], numRel - 1))
      ensures labelBatch != [] && sentenceLengths != [] && numRel >= 1 ==> r.Success?
    {
      if sentenceLengths == [] || labelBatch == [] {
        return Failure(IndexError);
      }
      var sortedLabels := SortColumn(labelBatch, sentenceLengths);
      assert |sortedLabels| == Min(|labelBatch|, |sentenceLengths|) > 0;
      var width := numRel - 1;
      var rows: seq<seq<int>> := [];
      var i := 0;
      while i < |sortedLabels|
        invariant 0 <= i <= |sortedLabels|
        invariant i > 0 ==> width >= 0
        invariant |rows| == i && forall k :: 0 <= k < i ==> rows[k] == LabelRow(sortedLabels[k], width)
      {
        if width < 0 {
          return Failure(ValueError);
        }
        rows := rows + [LabelRow(sortedLabels[i], width)];
        i := i + 1;
      }
      return Success(rows);
    }

    /** `ready_data_batch`: the base part, and of the supplemental columns
        only the triples (no sample carries the other names it looks for). */
    method ReadyDataBatch(batch: Batch, draws: seq<seq<real>>) returns (r: Result<ReadyBatch>)
      requires !isEval ==> DrawsFit(draws, batch.base)
      requires |batch.triples| == |batch.base|
      ensures batch.base == [] ==> r == Failure(AssertionError)
      ensures batch.base != [] ==> r.Success?
      ensures r.Success? ==> Readied(r.value.base, batch.base, |batch.base|, isEval, draws, dropout)
      ensures r.Success? ==> TriplesReadied((r.value.subjects, r.value.relations, r.value.objects),
                                            batch.triples, Lengths(batch.base))
    {
      var base := ReadyBaseBatch(batch.base, |batch.base|, draws);
      if base.Failure? {
        return Failure(base.error);
      }
      var triple := ReadyTripleBatch(batch.triples, base.value.sentenceLengths);
      return Success(ReadyBatch(base.value, triple.value.0, triple.value.1, triple.value.2));
    }

    /** `__len__`: ceil(numExamples / batchSize) for a positive batch size. */
    method Len() returns (n: nat)
      requires Valid()
      ensures n == |batches|
      ensures batchSize > 0 ==> numExamples <= n * batchSize && (n > 0 ==> (n - 1) * batchSize < numExamples)
      ensures batchSize < 0 ==> n == 0
    {
      return |batches|;
    }

    /** `__getitem__`: an index outside 0..len-1 is an IndexError; any other
        readies its batch, which always succeeds. */
    method GetItem(item: int, draws: seq<seq<real>>) returns (r: Result<ReadyBatch>)
      requires Valid()
      requires 0 <= item < |batches| && !isEval ==> DrawsFit(draws, batches[item].base)
      ensures r.Failure? <==> item < 0 || item >= |batches|
      ensures r.Failure? ==> r.error == IndexError
      ensures r.Success? ==> Readied(r.value.base, batches[item].base, |batches[item].base|, isEval, draws, dropout)
      ensures r.Success? ==> TriplesReadied((r.value.subjects, r.value.relations, r.value.objects),
                                            batches[item].triples, Lengths(batches[item].base))
    {
      var n := Len();
      if item < 0 || item >= n {
        return Failure(IndexError);
      }
      r := ReadyDataBatch(batches[item], draws);
    }
  }
}
