/** The value-level specification of the batcher: the chunking of
    `create_batches`, the length ordering of `sort_all`, `word_dropout`,
    the one-hot rows of `ready_binary_labels_batch`, the padding of
    `get_long_tensor` and numpy's in-place shuffle. The methods of
    `Batchers.Batcher` carry these out. */
module Batching {
  import opened Common
  import opened Samples

  // ---------------------------------------------------------------------
  // create_batches

  /** `data[start:start + size]` for each start of `range(0, len(data), size)`. */
  function Chunks<T>(s: seq<T>, size: nat): seq<seq<T>>
    requires size > 0
    decreases |s|
  {
    if s == [] then [] else [s[..Min(size, |s|)]] + Chunks(s[Min(size, |s|)..], size)
  }

  function Flatten<T>(ss: seq<seq<T>>): seq<T> {
    if ss == [] then [] else ss[0] + Flatten(ss[1..])
  }

  /** There are ceil(n / size) chunks: the fewest whose capacity holds the
      input. */
  lemma {:induction false} ChunksCount<T>(s: seq<T>, size: nat)
    requires size > 0
    ensures |s| <= |Chunks(s, size)| * size
    ensures |Chunks(s, size)| > 0 ==> (|Chunks(s, size)| - 1) * size < |s|
    ensures |Chunks(s, size)| == 0 <==> s == []
    decreases |s|
  {
    if s != [] {
      var m := Min(size, |s|);
      var c := |Chunks(s[m..], size)|;
      ChunksCount(s[m..], size);
      assert |Chunks(s, size)| == c + 1;
      assert (c + 1) * size == c * size + size;
    }
  }

  /** Joined back together the chunks are the input. */
  lemma {:induction false} ChunksFlatten<T>(s: seq<T>, size: nat)
    requires size > 0
    ensures Flatten(Chunks(s, size)) == s
    decreases |s|
  {
    if s != [] {
      var m := Min(size, |s|);
      ChunksFlatten(s[m..], size);
      var cs := Chunks(s, size);
      assert cs[0] == s[..m] && cs[1..] == Chunks(s[m..], size);
      assert s[..m] + s[m..] == s;
    }
  }

  /** Every chunk is full except the last, which is not empty. */
  lemma {:induction false} ChunksSizes<T>(s: seq<T>, size: nat)
    requires size > 0
    ensures forall k :: 0 <= k < |Chunks(s, size)| - 1 ==> |Chunks(s, size)[k]| == size
    ensures forall k :: 0 <= k < |Chunks(s, size)| ==> 0 < |Chunks(s, size)[k]| <= size
    decreases |s|
  {
    if s != [] {
      var m := Min(size, |s|);
      var rest := Chunks(s[m..], size);
      ChunksSizes(s[m..], size);
      var cs := Chunks(s, size);
      assert cs == [s[..m]] + rest;
      forall k | 0 < k < |cs| ensures cs[k] == rest[k - 1] {
      }
      if |cs| > 1 {
        assert rest != [];
        assert |s| > size;
      }
    }
  }

  /** The entries of one sample that `base_mapper` puts in a batch. */
  datatype BaseRow = BaseRow(
    tokens: seq<int>, pos: seq<int>, ner: seq<int>, deprel: seq<int>,
    subjPositions: seq<int>, objPositions: seq<int>, activatedRelations: seq<int>)

  /** One batch: the base rows and the supplemental columns. The masking
      column is there when the dataset's first sample has that entry. */
  datatype Batch = Batch(base: seq<BaseRow>, triples: seq<Triple>, masking: Option<seq<Masking>>)

  /** `base_mapper`: a KeyError when the sample has no activated relations. */
  function BaseMapper(b: Base): Result<BaseRow> {
    match b.activatedRelations
    case None => Failure(KeyError)
    case Some(rels) => Success(BaseRow(b.tokens, b.pos, b.ner, b.deprel, b.subjPositions, b.objPositions, rels))
  }

  /** The batch built from one chunk. */
  function MakeBatch(withMasking: bool, chunk: seq<Sample>): Result<Batch> {
    if exists k :: 0 <= k < |chunk| && chunk[k].base.activatedRelations.None? then Failure(KeyError)
    else if withMasking && exists k :: 0 <= k < |chunk| && chunk[k].supplemental.relationMasking.None? then Failure(KeyError)
    else
      Success(Batch(
        seq(|chunk|, k requires 0 <= k < |chunk| => BaseMapper(chunk[k].base).value),
        seq(|chunk|, k requires 0 <= k < |chunk| => chunk[k].supplemental.triple),
        if withMasking then Some(seq(|chunk|, k requires 0 <= k < |chunk| => chunk[k].supplemental.relationMasking.value))
        else None))
  }

  /** Every sample can be batched and the masking entry is present in all
      samples or in none. */
  ghost predicate Batchable(data: seq<Sample>) {
    && (forall k :: 0 <= k < |data| ==> data[k].base.activatedRelations.Some?)
    && (forall k, l :: 0 <= k < |data| && 0 <= l < |data| ==>
          data[k].supplemental.relationMasking.Some? == data[l].supplemental.relationMasking.Some?)
  }

  /** `create_batches`: `range` refuses a zero step; a negative step gives
      no batch; otherwise one batch per chunk. */
  function CreateBatches(data: seq<Sample>, size: int): Result<seq<Batch>> {
    if size == 0 then Failure(ValueError)
    else if size < 0 || data == [] then Success([])
    else BatchAll(data[0].supplemental.relationMasking.Some?, Chunks(data, size))
  }

  function BatchAll(withMasking: bool, chunks: seq<seq<Sample>>): Result<seq<Batch>>
    decreases |chunks|
  {
    if chunks == [] then Success([])
    else
      match BatchAll(withMasking, chunks[..|chunks| - 1])
      case Failure(e) => Failure(e)
      case Success(prev) =>
        match MakeBatch(withMasking, chunks[|chunks| - 1])
        case Failure(e) => Failure(e)
        case Success(b) => Success(prev + [b])
  }

  /** Every chunk holds entries of the input only. */
  lemma {:induction false} ChunksElements<T>(s: seq<T>, size: nat)
    requires size > 0
    ensures forall k, x :: 0 <= k < |Chunks(s, size)| && x in Chunks(s, size)[k] ==> x in s
    decreases |s|
  {
    if s != [] {
      var m := Min(size, |s|);
      ChunksElements(s[m..], size);
      var cs := Chunks(s, size);
      forall k, x | 0 <= k < |cs| && x in cs[k] ensures x in s {
        if k == 0 {
          assert x in s[..m];
        } else {
          assert cs[k] == Chunks(s[m..], size)[k - 1];
          assert x in s[m..];
        }
      }
    }
  }

  /** When every chunk can be batched, batching succeeds with one batch per
      chunk. */
  lemma {:induction false} BatchAllSucceeds(withMasking: bool, chunks: seq<seq<Sample>>)
    requires forall k :: 0 <= k < |chunks| ==> MakeBatch(withMasking, chunks[k]).Success?
    ensures BatchAll(withMasking, chunks).Success?
    ensures |BatchAll(withMasking, chunks).value| == |chunks|
    ensures forall k :: 0 <= k < |chunks| ==>
      BatchAll(withMasking, chunks).value[k] == MakeBatch(withMasking, chunks[k]).value
    decreases |chunks|
  {
    if chunks != [] {
      var init := chunks[..|chunks| - 1];
      BatchAllSucceeds(withMasking, init);
    }
  }

  /** Batching a batchable dataset with a non-zero size never fails; with a
      positive size there is one batch per chunk, built from that chunk. */
  lemma CreateBatchesSucceeds(data: seq<Sample>, size: int)
    requires size != 0 && Batchable(data)
    ensures CreateBatches(data, size).Success?
    ensures size > 0 ==> |CreateBatches(data, size).value| == |Chunks(data, size)|
    ensures size > 0 && data != [] ==> forall k :: 0 <= k < |Chunks(data, size)| ==>
      var b := MakeBatch(data[0].supplemental.relationMasking.Some?, Chunks(data, size)[k]);
      b.Success? && CreateBatches(data, size).value[k] == b.value
  {
    if size > 0 && data != [] {
      var wm := data[0].supplemental.relationMasking.Some?;
      var cs := Chunks(data, size);
      ChunksElements(data, size);
      forall k | 0 <= k < |cs| ensures MakeBatch(wm, cs[k]).Success? {
        forall j | 0 <= j < |cs[k]|
          ensures cs[k][j].base.activatedRelations.Some?
          ensures wm ==> cs[k][j].supplemental.relationMasking.Some?
        {
          assert cs[k][j] in cs[k];
          assert cs[k][j] in data;
          var i :| 0 <= i < |data| && data[i] == cs[k][j];
        }
      }
      BatchAllSucceeds(wm, cs);
    }
  }

  /** The batches of a batchable dataset: ceil(n / size) of them for a
      positive size, none for a negative one, each non-empty, at most `size`
      samples long and with one triple per sample. */
  lemma BatchesShape(data: seq<Sample>, size: int)
    requires size != 0 && Batchable(data)
    ensures CreateBatches(data, size).Success?
    ensures var bs := CreateBatches(data, size).value;
      && (size < 0 ==> bs == [])
      && (size > 0 ==> |data| <= |bs| * size && (|bs| > 0 ==> (|bs| - 1) * size < |data|))
      && (forall k :: 0 <= k < |bs| ==> 0 < |bs[k].base| == |bs[k].triples| && |bs[k].base| <= size)
  {
    CreateBatchesSucceeds(data, size);
    if size > 0 {
      ChunksCount(data, size);
      ChunksSizes(data, size);
    }
  }

  /** A failure on some chunk is the failure of the whole batching. */
  lemma {:induction false} BatchAllPrefixFails(withMasking: bool, chunks: seq<seq<Sample>>, j: nat)
    requires j <= |chunks| && BatchAll(withMasking, chunks[..j]).Failure?
    ensures BatchAll(withMasking, chunks) == BatchAll(withMasking, chunks[..j])
    decreases |chunks|
  {
    if j < |chunks| {
      assert chunks[..|chunks| - 1][..j] == chunks[..j];
      BatchAllPrefixFails(withMasking, chunks[..|chunks| - 1], j);
    } else {
      assert chunks[..j] == chunks;
    }
  }

  /** The chunks from `start` on: the slice of at most `size` there, then
      the chunks after it. */
  lemma ChunksFrom<T>(s: seq<T>, size: nat, start: nat)
    requires size > 0 && start < |s|
    ensures Chunks(s[start..], size) ==
      [s[start..Min(start + size, |s|)]] + Chunks(s[Min(start + size, |s|)..], size)
  {
    var end := Min(start + size, |s|);
    assert s[start..][..end - start] == s[start..end];
    assert s[start..][end - start..] == s[end..];
  }

  // ---------------------------------------------------------------------
  // sort_all

  /** Sample i comes before sample j in `sorted(zip(lens, range(n)),
      reverse=True)`: longer first, and of equal lengths the later index
      first. */
  predicate Before(lens: seq<nat>, i: nat, j: nat)
    requires i < |lens| && j < |lens|
  {
    lens[i] > lens[j] || (lens[i] == lens[j] && i > j)
  }

  ghost predicate SortedBy(lens: seq<nat>, order: seq<nat>) {
    && (forall k :: 0 <= k < |order| ==> order[k] < |lens|)
    && (forall k, l :: 0 <= k < l < |order| ==> Before(lens, order[k], order[l]))
  }

  /** Inserts index i at its place in an ordering. */
  function Insert(lens: seq<nat>, order: seq<nat>, i: nat): (r: seq<nat>)
    requires i < |lens| && forall k :: 0 <= k < |order| ==> order[k] < |lens|
    ensures |r| == |order| + 1
    ensures forall x :: x in r <==> x in order || x == i
    ensures forall k :: 0 <= k < |r| ==> r[k] < |lens|
  {
    if order == [] then [i]
    else if Before(lens, i, order[0]) then [i] + order
    else [order[0]] + Insert(lens, order[1..], i)
  }

  lemma {:induction false} InsertSorted(lens: seq<nat>, order: seq<nat>, i: nat)
    requires i < |lens| && SortedBy(lens, order) && i !in order
    ensures SortedBy(lens, Insert(lens, order, i))
    decreases |order|
  {
    if order != [] && !Before(lens, i, order[0]) {
      var tail := order[1..];
      assert SortedBy(lens, tail) by {
        forall k, l | 0 <= k < l < |tail| ensures Before(lens, tail[k], tail[l]) {
          assert tail[k] == order[k + 1] && tail[l] == order[l + 1];
        }
      }
      InsertSorted(lens, tail, i);
      var r := Insert(lens, order, i);
      forall l | 0 < l < |r| ensures Before(lens, order[0], r[l]) {
        assert r[l] in Insert(lens, tail, i);
        if r[l] != i {
          var m :| 0 <= m < |tail| && tail[m] == r[l];
          assert tail[m] == order[m + 1];
        } else {
          assert order[0] != i;
        }
      }
    }
  }

  /** The indices 0..k-1 in `sort_all` order. */
  function SortPrefix(lens: seq<nat>, k: nat): (r: seq<nat>)
    requires k <= |lens|
    ensures |r| == k
    ensures forall x :: x in r <==> 0 <= x < k
    ensures forall j :: 0 <= j < |r| ==> r[j] < |lens|
  {
    if k == 0 then [] else Insert(lens, SortPrefix(lens, k - 1), k - 1)
  }

  /** `orig_idx` of `sort_all`. */
  function SortOrder(lens: seq<nat>): seq<nat> {
    SortPrefix(lens, |lens|)
  }

  lemma {:induction false} SortPrefixSorted(lens: seq<nat>, k: nat)
    requires k <= |lens|
    ensures SortedBy(lens, SortPrefix(lens, k))
  {
    if k > 0 {
      SortPrefixSorted(lens, k - 1);
      InsertSorted(lens, SortPrefix(lens, k - 1), k - 1);
    }
  }

  /** `orig_idx` is a permutation of the indices, the lengths come out in
      non-increasing order, and samples of equal length come out with the
      larger original index first. */
  lemma SortOrderSpec(lens: seq<nat>)
    ensures IsPermutation(SortOrder(lens), |lens|)
    ensures forall k, l :: 0 <= k < l < |lens| ==>
      lens[SortOrder(lens)[k]] >= lens[SortOrder(lens)[l]]
    ensures forall k, l :: 0 <= k < l < |lens| && lens[SortOrder(lens)[k]] == lens[SortOrder(lens)[l]] ==>
      SortOrder(lens)[k] > SortOrder(lens)[l]
  {
    var order := SortOrder(lens);
    SortPrefixSorted(lens, |lens|);
    forall k, l | 0 <= k < l < |order| ensures order[k] != order[l] {
      assert Before(lens, order[k], order[l]);
    }
  }

  /** Two orderings sorted by the strict order `Before` over the same indices
      are the same ordering: the result of `sorted` does not depend on how
      it sorts. */
  lemma {:induction false} SortedUnique(lens: seq<nat>, a: seq<nat>, b: seq<nat>)
    requires SortedBy(lens, a) && SortedBy(lens, b)
    requires forall x :: x in a <==> x in b
    ensures a == b
    decreases |a|
  {
    EmptyTogether(a, b);
    if a != [] {
      HeadFirst(lens, a, b[0]);
      HeadFirst(lens, b, a[0]);
      var ta, tb := a[1..], b[1..];
      forall x ensures x in ta <==> x in tb {
        if x in ta {
          var k :| 0 <= k < |ta| && ta[k] == x;
          assert Before(lens, a[0], a[k + 1]);
          assert x in b;
        }
        if x in tb {
          var k :| 0 <= k < |tb| && tb[k] == x;
          assert Before(lens, b[0], b[k + 1]);
          assert x in a;
        }
      }
      assert SortedBy(lens, ta) by {
        forall k, l | 0 <= k < l < |ta| ensures Before(lens, ta[k], ta[l]) {
          assert ta[k] == a[k + 1] && ta[l] == a[l + 1];
        }
      }
      assert SortedBy(lens, tb) by {
        forall k, l | 0 <= k < l < |tb| ensures Before(lens, tb[k], tb[l]) {
          assert tb[k] == b[k + 1] && tb[l] == b[l + 1];
        }
      }
      SortedUnique(lens, ta, tb);
      assert a == [a[0]] + ta && b == [b[0]] + tb;
    }
  }

  /** The head of a sorted ordering comes before every other entry. */
  lemma HeadFirst(lens: seq<nat>, a: seq<nat>, x: nat)
    requires SortedBy(lens, a) && x in a
    ensures x == a[0] || Before(lens, a[0], x)
  {
    var k :| 0 <= k < |a| && a[k] == x;
    if k > 0 {
      assert Before(lens, a[0], a[k]);
    }
  }

  lemma EmptyTogether(a: seq<nat>, b: seq<nat>)
    requires forall x :: x in a <==> x in b
    ensures a == [] <==> b == []
  {
    if a != [] {
      assert a[0] in a;
    }
    if b != [] {
      assert b[0] in b;
    }
  }

  /** A column reordered by `orig_idx`. */
  function Permute<T>(s: seq<T>, order: seq<nat>): (r: seq<T>)
    requires forall k :: 0 <= k < |order| ==> order[k] < |s|
    ensures |r| == |order|
    ensures forall k :: 0 <= k < |order| ==> r[k] == s[order[k]]
  {
    seq(|order|, k requires 0 <= k < |order| => s[order[k]])
  }

  /** Undoes a reordering: entry i is the sorted entry that came from i. */
  function Unpermute<T>(sorted: seq<T>, order: seq<nat>): seq<T>
    requires IsPermutation(order, |sorted|)
  {
    seq(|sorted|, i requires 0 <= i < |sorted| => sorted[IndexOf(order, i)])
  }

  /** `orig_idx` lets a caller put a sorted column back in batch order. */
  lemma UnpermuteRestores<T>(s: seq<T>, order: seq<nat>)
    requires IsPermutation(order, |s|)
    ensures Unpermute(Permute(s, order), order) == s
  {
    var sorted := Permute(s, order);
    forall i | 0 <= i < |s| ensures Unpermute(sorted, order)[i] == s[i] {
      assert i in order;
    }
  }

  /** `sort_all` of one column: `zip` stops at the shorter of the column and
      the lengths, then the column is put in `orig_idx` order. */
  function SortColumn<T>(col: seq<T>, lens: seq<nat>): seq<T> {
    var m := Min(|col|, |lens|);
    Permute(col[..m], SortOrder(lens[..m]))
  }

  // ---------------------------------------------------------------------
  // word_dropout

  /** `word_dropout` with the uniform draws of `np.random.random()` given:
      a token other than UNK is replaced by UNK when its draw is below the
      dropout rate. */
  function WordDropout(tokens: seq<int>, draws: seq<real>, dropout: real): (r: seq<int>)
    requires |tokens| <= |draws|
  {
    seq(|tokens|, i requires 0 <= i < |tokens| =>
      if tokens[i] != UNK_ID && draws[i] < dropout then UNK_ID else tokens[i])
  }

  /** Dropout keeps the length, changes tokens only into UNK, keeps every
      UNK, and drops exactly the non-UNK tokens whose draw is below the rate. */
  lemma WordDropoutSpec(tokens: seq<int>, draws: seq<real>, dropout: real)
    requires |tokens| <= |draws|
    ensures |WordDropout(tokens, draws, dropout)| == |tokens|
    ensures forall i :: 0 <= i < |tokens| ==>
      (WordDropout(tokens, draws, dropout)[i] == UNK_ID <==> tokens[i] == UNK_ID || draws[i] < dropout)
    ensures forall i :: 0 <= i < |tokens| && WordDropout(tokens, draws, dropout)[i] != UNK_ID ==>
      WordDropout(tokens, draws, dropout)[i] == tokens[i]
  {
  }

  /** `np.random.random()` draws from [0, 1): a rate of 0 or less drops
      nothing and a rate of 1 or more drops every token. */
  lemma WordDropoutExtremes(tokens: seq<int>, draws: seq<real>, dropout: real)
    requires |tokens| <= |draws| && forall i :: 0 <= i < |draws| ==> 0.0 <= draws[i] < 1.0
    ensures dropout <= 0.0 ==> WordDropout(tokens, draws, dropout) == tokens
    ensures dropout >= 1.0 ==> WordDropout(tokens, draws, dropout) == Repeat(UNK_ID, |tokens|)
  {
  }

  // ---------------------------------------------------------------------
  // ready_binary_labels_batch

  /** One label as a 0/1 row of the given width: a one at the label when it
      is inside the row, all zeros otherwise. */
  function LabelRow(id: nat, width: nat): seq<int> {
    seq(width, j requires 0 <= j < width => if j == id then 1 else 0)
  }

  /** A label inside the row gives a one-hot row at that label, a label at
      or past the width gives a zero row. */
  lemma LabelRowSpec(id: nat, width: nat)
    ensures |LabelRow(id, width)| == width
    ensures forall j :: 0 <= j < width ==> (LabelRow(id, width)[j] == 1 <==> j == id)
    ensures forall j :: 0 <= j < width ==> LabelRow(id, width)[j] in {0, 1}
    ensures id >= width ==> LabelRow(id, width) == Repeat(0, width)
  {
  }

  // ---------------------------------------------------------------------
  // get_long_tensor

  function MaxLen(rows: seq<seq<int>>): nat {
    if rows == [] then 0 else
      var rest := MaxLen(rows[1..]);
      if |rows[0]| > rest then |rows[0]| else rest
  }

  lemma {:induction false} MaxLenSpec(rows: seq<seq<int>>)
    ensures forall i :: 0 <= i < |rows| ==> |rows[i]| <= MaxLen(rows)
    ensures rows != [] ==> exists i :: 0 <= i < |rows| && |rows[i]| == MaxLen(rows)
  {
    if rows != [] {
      MaxLenSpec(rows[1..]);
      forall i | 0 < i < |rows| ensures |rows[i]| <= MaxLen(rows) {
        assert rows[i] == rows[1..][i - 1];
      }
      if |rows[0]| <= MaxLen(rows[1..]) && |rows| > 1 {
        var i :| 0 <= i < |rows[1..]| && |rows[1..][i]| == MaxLen(rows[1..]);
        assert |rows[i + 1]| == MaxLen(rows);
      }
    }
  }

  /** Entry (i, j) of the padded tensor. */
  function PaddedAt(rows: seq<seq<int>>, i: nat, j: nat): int {
    if i < |rows| && j < |rows[i]| then rows[i][j] else PAD_ID
  }

  // ---------------------------------------------------------------------
  // np.random.shuffle

  /** Exchanges two entries. */
  function Swap<T>(s: seq<T>, i: nat, j: nat): (r: seq<T>)
    requires i < |s| && j < |s|
    ensures |r| == |s|
  {
    s[i := s[j]][j := s[i]]
  }

  /** The draws of a Fisher-Yates shuffle: entry i is the position, at most
      i, swapped with position i. */
  ghost predicate ValidDraws(js: seq<nat>, n: nat) {
    |js| == n && forall i :: 0 <= i < n ==> js[i] <= i
  }

  /** numpy's shuffle with its draws given: for i from n-1 down to 1, swap
      positions i and js[i]. `ShuffleDown(s, js, i)` performs the swaps for
      positions i-1 down to 1. */
  function ShuffleDown<T>(s: seq<T>, js: seq<nat>, i: nat): seq<T>
    requires i <= |s| && |js| == |s| && forall k :: 0 <= k < |s| ==> js[k] <= k
    decreases i
  {
    if i <= 1 then s else ShuffleDown(Swap(s, i - 1, js[i - 1]), js, i - 1)
  }

  function Shuffled<T>(s: seq<T>, js: seq<nat>): seq<T>
    requires ValidDraws(js, |s|)
  {
    ShuffleDown(s, js, |s|)
  }

  /** Shuffling rearranges: same length, same elements with multiplicity. */
  lemma {:induction false} ShuffleDownPermutes<T>(s: seq<T>, js: seq<nat>, i: nat)
    requires i <= |s| && |js| == |s| && forall k :: 0 <= k < |s| ==> js[k] <= k
    ensures |ShuffleDown(s, js, i)| == |s|
    ensures multiset(ShuffleDown(s, js, i)) == multiset(s)
    decreases i
  {
    if i > 1 {
      var t := Swap(s, i - 1, js[i - 1]);
      SwapPermutes(s, i - 1, js[i - 1]);
      ShuffleDownPermutes(t, js, i - 1);
    }
  }

  lemma SwapPermutes<T>(s: seq<T>, i: nat, j: nat)
    requires i < |s| && j < |s|
    ensures multiset(Swap(s, i, j)) == multiset(s)
  {
  }

  lemma ShuffledPermutes<T>(s: seq<T>, js: seq<nat>)
    requires ValidDraws(js, |s|)
    ensures |Shuffled(s, js)| == |s| && multiset(Shuffled(s, js)) == multiset(s)
  {
    ShuffleDownPermutes(s, js, |s|);
  }

  /** With every draw equal to its own position no swap moves anything. */
  lemma {:induction false} ShuffleIdentity<T>(s: seq<T>, js: seq<nat>, i: nat)
    requires i <= |s| && |js| == |s| && forall k :: 0 <= k < |s| ==> js[k] == k
    ensures ShuffleDown(s, js, i) == s
    decreases i
  {
    if i > 1 {
      assert Swap(s, i - 1, js[i - 1]) == s;
      ShuffleIdentity(s, js, i - 1);
    }
  }
}
