# Relation-extraction data pipeline, modelled in Dafny

This project models the data pipeline of a relation-extraction trainer for the
TACRED corpus: `data/process_data.py`, with its two classes.

`DataProcessor` reads annotated sentences, partition by partition, and builds:

- the id sequences of each sentence, with the subject and object spans replaced
  by entity-type tokens;
- relation ids, numbered in order of first occurrence;
- three curriculum groupings of the relations:
  - binary (`no_relation` / `has_relation`);
  - by subject type (`per:relation` / `org:relation` / `no_relation`);
  - by subject-object type, over triples;
- the graph of relations known for each entity pair;
- the reversed maps of these groupings, and a "closed world" of every
  subject x relation x object triple.

Its iterator can stratify-sample a partition, label every sample at one of four
curriculum stages, and build a `Batcher`. The `Batcher` shuffles training data,
cuts it into batches and readies one batch on demand:

- it sorts the batch by sentence length;
- it applies word dropout;
- it pads the batch into tensors.

The modules follow the source:

- `Common`: error kinds, reserved ids, Python list and string helpers.
- `Samples`: one record to features (`get_positions`, `map_to_ids`, anonymisation).
- `Hierarchy`: what parsing does to the label tables, as functions, with their invariants.
- `Curriculum`: stage views and how a sample is labelled at a stage.
- `Sampling`: the stratified-sampling steps.
- `Batching`: chunking, `sort_all`, `word_dropout`, the binary label row, the shuffle.
- `Batchers`: the `Batcher` class.
- `Processor`: the `DataProcessor` class, whose methods do the work step by step
  and are proved against the functions of the other modules.

Two choices run through the whole model:

- Random draws are parameters:
  - a permutation stands in for each `np.random.choice(..., replace=False)`;
  - swap indices stand in for `np.random.shuffle`;
  - uniform draws stand in for `np.random.random()` in word dropout.
- The exceptions the source raises are `Failure` values of a `Result`. The
  kinds are KeyError, ValueError, IndexError, ZeroDivisionError and
  AssertionError.

## Model

| member | source | states |
|---|---|---|
| Common.Lower | data/process_data.py:49-50 | lower-casing keeps the length of a token |
| Common.ContainsOccurs | data/process_data.py:84-89 | Python's substring test `sub in s` holds exactly when `sub` occurs at some offset of `s` |
| Common.FirstOccurrencesSpec | data/process_data.py:74-76 | the relation names in first-occurrence order are duplicate-free and hold exactly the names seen |
| Samples.PositionsShape | data/process_data.py:169-172 | for a span inside the sentence, one position per token: `k - start` before the span, 0 on it, `k - end` after it |
| Samples.PositionsZeroOnSpan | data/process_data.py:169-172 | a position is 0 exactly on the span and negative exactly before it; positions step by one outside the span |
| Samples.MapToIds | data/process_data.py:174-175 | one id per name: the mapper's id when the name is known, UNK_ID otherwise |
| Samples.AnonymizeInRange | data/process_data.py:60-61 | assigning the type token to the span slice keeps the length; it overwrites exactly the span tokens and keeps every other token |
| Samples.AnonymizedIds | data/process_data.py:60-62 | after both spans are anonymised: object-span tokens get the object-type id, which wins on overlap; subject-span tokens get the subject-type id; every other token gets its own vocabulary id or UNK |
| Samples.LowerTokens | data/process_data.py:49-50 | lower-casing keeps the number of tokens |
| Samples.FeaturizeFails | data/process_data.py:54-57 | featurising a record fails exactly when the subject- or object-type token is missing from the vocabulary |
| Samples.FeaturizeShape | data/process_data.py:48-68 | a featurised record has one token id and two positions per token; span tokens carry the entity-type ids; every other token carries its (lower-cased) vocabulary id; each position sequence is 0 exactly on its span |
| Hierarchy.AddTo | data/process_data.py:78-95 | `defaultdict(set)[k].add(v)` adds key k, adds v to k's set and leaves every other key's set alone |
| Hierarchy.EmptyBuildValid | data/process_data.py:17-31 | the empty tables and empty graph satisfy the table invariant |
| Hierarchy.RegisterKeepsContiguous | data/process_data.py:74-76 | registering a relation name keeps the ids 0..n-1 contiguous and injective, keeps every existing id, and gives a new name the id n |
| Hierarchy.NewIdKeepsContiguous | data/process_data.py:74-75 | giving a new name the next id keeps the ids contiguous and grows the table by one |
| Hierarchy.GroupedByAdd | data/process_data.py:78-89 | adding a registered relation to its group keeps the grouping exact: each relation is in its own group only, every member is a registered id, no group is empty |
| Hierarchy.GroupedByStep | data/process_data.py:78-89 | the same exact-grouping invariant, stated for one extension step of the relation table |
| Hierarchy.UpdateAgrees | data/process_data.py:58-59 | recording an entity-type id keeps the type table in agreement with the vocabulary, and the id joins the table's values |
| Hierarchy.StepTriplesValid | data/process_data.py:90-95 | after one record every grouped triple is still made of an observed subject, a registered relation and an observed object; the type tables still agree with the vocabulary and hold the new ids |
| Hierarchy.AddTripleObserved | data/process_data.py:90-95 | adding an observed triple to a subject-object group keeps every grouped triple observed |
| Hierarchy.StepTablesValid | data/process_data.py:56-95 | one record's table updates keep the invariant (contiguous ids, exact binary and subject-type groupings, observed triples, types agree with the vocabulary) and only grow the tables |
| Hierarchy.AddEdgeKeepsGraph | data/process_data.py:111-115 | adding a relation to an observed entity pair keeps every edge of the graph between observed types with a registered relation |
| Hierarchy.GraphGrows | data/process_data.py:111-115 | graph edges stay valid while the tables grow |
| Hierarchy.AbsorbKeepsValid | data/process_data.py:47-121 | parsing one record keeps the tables and the graph valid |
| Hierarchy.AbsorbAllKeepsValid | data/process_data.py:44-121 | parsing a whole partition keeps the tables and the graph valid |
| Hierarchy.RelationNames | data/process_data.py:70-72 | one relation name per record, namespaced by the entity types when relations are typed |
| Hierarchy.NumberingAppend | data/process_data.py:74-75 | numbering a name list extended by a new name assigns that name the next id and keeps every other id |
| Hierarchy.NumberingSize | data/process_data.py:74-75 | a duplicate-free name list numbers exactly as many names as it holds |
| Hierarchy.IdsInFirstOccurrenceOrder | data/process_data.py:70-76 | after parsing, `rel2id` numbers the relation names 0, 1, 2, ... in order of first occurrence |
| Hierarchy.InvertIsInverse | data/process_data.py:124 | `id2rel` has keys exactly 0..n-1 and is the exact inverse of `rel2id` in both directions |
| Hierarchy.ReverseOfGrouping | data/process_data.py:162-167 | reversing an exact grouping maps every relation id to its own group and holds nothing else, whatever the dictionary order |
| Hierarchy.BinaryGroups | data/process_data.py:78-82 | a relation is in the `no_relation` binary group iff its name is `no_relation`, in `has_relation` iff it is not, and there are no other binary groups |
| Hierarchy.GroupsNonEmptyKeyed | data/process_data.py:78-82 | every non-empty binary group is keyed `no_relation` or `has_relation` |
| Hierarchy.SubjectGroupRule | data/process_data.py:83-89 | a relation is in `per:relation` iff its name contains "per"; in `org:relation` iff it contains "org" but not "per"; otherwise in `no_relation` |
| Hierarchy.ClosedWorldComplete | data/process_data.py:128-132 | after the closure, every subject x relation x object triple of the tables has a subject-object label |
| Curriculum.ParseStage | data/process_data.py:228-245 | a stage name is accepted iff it is one of binary, subj_type, subj_obj_type, full |
| Curriculum.MultiHot | data/process_data.py:261-265 | the activation vector exists iff the matched ids are non-empty and all below `num_rel`; otherwise numpy's indexing raises |
| Curriculum.MultiHotRoundTrip | data/process_data.py:263-266 | the activation vector has width `num_rel`, holds only 0 and 1, and its ones are exactly the matched ids |
| Curriculum.Labels | data/process_data.py:292-294 | the labels exist iff every sample's triple has a label in the stage; there is then one label per sample, the stage's label of its triple; otherwise KeyError |
| Curriculum.Rearranged | data/process_data.py:289-294 | shuffling cannot make the labelling or the batching fail: both depend only on the multiset of samples |
| Curriculum.EnrichSpec | data/process_data.py:247-272 | an enriched sample keeps every field except two. Its activation vector has width `num_rel`, and its ones are the ids matched by its stage label. With masking on, its mask becomes the set of relations known for its entity pair |
| Curriculum.EnrichAllSpec | data/process_data.py:247-272 | cleaning a partition succeeds iff every sample enriches; it then yields one enriched sample per input sample, in order |
| Curriculum.EnrichedBatchable | data/process_data.py:247-272 | a cleaned partition whose masking entries are uniform can be batched |
| Curriculum.SampleFromGrows | data/process_data.py:97-121 | a parsed sample stays consistent with the tables as they grow |
| Curriculum.AbsorbRecordSample | data/process_data.py:97-121 | parsing one record only grows the tables. The sample's triple is grouped; its relation is registered; it has no activation vector yet; with masking, its mask is the triple and its entity pair is in the graph |
| Curriculum.AbsorbAllSamples | data/process_data.py:44-121 | every sample of a parsed partition is consistent, in that sense, with the final tables and graph |
| Curriculum.MatchedIdsResolve | data/process_data.py:228-261 | at every stage, the label of a parsed sample's triple exists and matches a non-empty set of registered relation ids |
| Curriculum.FullResolves | data/process_data.py:240-243 | at the full stage, a registered id labels to its name, which matches exactly that id |
| Curriculum.GroupResolves | data/process_data.py:228-235 | at the binary and subject-type stages, a registered id labels to a group holding registered ids only |
| Curriculum.TripleResolves | data/process_data.py:236-239 | at the subject-object stage, a grouped triple labels to a group whose triples' relations are registered and non-empty |
| Curriculum.EnrichSucceeds | data/process_data.py:247-272 | cleaning a parsed sample never fails when masking was recorded at parse time |
| Curriculum.EnrichAllSucceeds | data/process_data.py:247-272 | cleaning a parsed partition never fails, and the result can be batched |
| Curriculum.LabelsResolve | data/process_data.py:292-294 | the Batcher's label lookup never fails on a cleaned sample |
| Sampling.QuotaPrefixSum | data/process_data.py:210-219 | the quotas of the first k relations sum to k times the even share plus the bonus relations among them |
| Sampling.QuotasSumToSampleSize | data/process_data.py:210-219 | each quota is floor(s/n) or floor(s/n)+1, and the quotas sum to the sample size s |
| Sampling.Members | data/process_data.py:201-208 | a class's indices all point at samples of that class and ascend |
| Sampling.MembersComplete | data/process_data.py:201-208 | every index of a sample of the class is among the class's indices |
| Sampling.GroupsPartition | data/process_data.py:201-208 | the classes appear once each, in first-occurrence order. Each index is in its own class's group and in no other, and each group ascends |
| Sampling.Picks | data/process_data.py:196-197 | a class draws min(quota, class size) indices |
| Sampling.PicksDistinct | data/process_data.py:196-197 | the drawn indices are distinct members of the class |
| Sampling.SampleByClass | data/process_data.py:193-199 | drawing succeeds iff every class has a quota, otherwise KeyError; each class then draws min(quota, class size) indices |
| Sampling.Aggregate | data/process_data.py:186-191 | concatenating the draws fails (ValueError) exactly when there are no classes |
| Sampling.ConcatPicks | data/process_data.py:181-191 | the concatenated draws are distinct indices into the partition, of sampled classes, as many as the sum of min(quota, class size) |
| Sampling.SumOfMinsAtMostQuotas | data/process_data.py:196 | the sum of the per-class minima is at most the sum of the quotas, and equal when every class is large enough |
| Sampling.StratifiedTotal | data/process_data.py:177-219 | the stratified sample has at most s samples, and exactly s when every relation occurs often enough |
| Batching.ChunksCount | data/process_data.py:298-302 | there are ceil(n/b) chunks: their capacity covers n, and one fewer would not |
| Batching.ChunksFlatten | data/process_data.py:298-302 | concatenating the chunks reproduces the input |
| Batching.ChunksSizes | data/process_data.py:298-302 | every chunk but the last has exactly b entries; every chunk is non-empty and at most b long |
| Batching.ChunksElements | data/process_data.py:298-302 | every chunk holds entries of the input only |
| Batching.BatchAllSucceeds | data/process_data.py:298-313 | when every chunk can be batched, there is one batch per chunk, in order |
| Batching.CreateBatchesSucceeds | data/process_data.py:298-313 | batching a batchable dataset with a non-zero size never fails; with a positive size there is one batch per chunk |
| Batching.BatchesShape | data/process_data.py:298-313 | ceil(n/b) batches, each non-empty, at most b long, with one triple per sample; no batches for a negative size |
| Batching.Insert | data/process_data.py:444-448 | inserting an index adds exactly that index |
| Batching.InsertSorted | data/process_data.py:444-448 | inserting an index at its place keeps the order sorted |
| Batching.SortPrefix | data/process_data.py:444-448 | the ordering of the first k sentences holds exactly the indices 0..k-1 |
| Batching.SortPrefixSorted | data/process_data.py:444-448 | that ordering is sorted |
| Batching.SortOrderSpec | data/process_data.py:444-448 | `sort_all`'s order is a permutation of the indices, by non-increasing length, and among equal lengths the larger index comes first |
| Batching.SortedUnique | data/process_data.py:444-448 | there is only one such order |
| Batching.UnpermuteRestores | data/process_data.py:444-448 | `orig_idx` undoes the sort: putting each sorted entry back at its original index restores the field |
| Batching.WordDropoutSpec | data/process_data.py:439-442 | dropout keeps the length; a token becomes UNK exactly when it was UNK or its draw is below the rate; every other token is kept |
| Batching.WordDropoutExtremes | data/process_data.py:439-442 | a rate of 0 keeps every token, a rate of 1 turns every token into UNK |
| Batching.LabelRowSpec | data/process_data.py:385-390 | the binary label row has width num_rel-1; it is one-hot at the label when the label is inside, and all zero for the last id |
| Batching.MaxLenSpec | data/process_data.py:433 | the padded width is the length of the longest row |
| Batching.Swap | data/process_data.py:290 | a swap keeps the length |
| Batching.SwapPermutes | data/process_data.py:290 | a swap keeps the multiset of entries |
| Batching.ShuffleDownPermutes | data/process_data.py:290 | every prefix of the shuffle's swaps keeps the length and the multiset of entries |
| Batching.ShuffledPermutes | data/process_data.py:290 | the shuffle is a permutation of the dataset |
| Batching.ShuffleIdentity | data/process_data.py:290 | draws that swap each position with itself leave the dataset as it was |
| Batchers.Shuffle | data/process_data.py:289-290 | shuffling the dataset array in place leaves exactly the shuffled sequence of its old contents |
| Batchers.EqZero | data/process_data.py:342 | the mask is true exactly where the padded word tensor holds 0 |
| Batchers.Column | data/process_data.py:327 | one column entry per row, for the base fields and for the triple fields alike |
| Batchers.Lengths | data/process_data.py:331 | one sentence length per row |
| Batchers.Words | data/process_data.py:334-338 | one word row per sentence; dropout applies only outside evaluation |
| Batchers.Batcher.constructor | data/process_data.py:282-296 | the dataset array is shuffled in place unless evaluating. The labels are the stage labels of the new order, and the batches are the batching of the new order. The batch shape invariant holds |
| Batchers.Batcher.CreateBatches | data/process_data.py:298-313 | the loop over batch starts yields exactly the batching function's result, errors included |
| Batchers.Batcher.GetLongTensor | data/process_data.py:431-437 | the tensor exists iff the list is non-empty and fits the batch size (else ValueError / IndexError). It is `batch_size` rows by the longest length: row i holds list i followed by PAD_ID, and the rows past the list are all PAD_ID |
| Batchers.Batcher.ReadyBaseBatch | data/process_data.py:326-352 | an empty batch is an AssertionError and an oversized one an IndexError; otherwise every field is sorted by length, the words get dropout when training, and all fields are padded into fresh tensors with `orig_idx` and the lengths |
| Batchers.Batcher.SortedDrawsFit | data/process_data.py:335-336 | whether the dropout draws fit the rows does not depend on their order |
| Batchers.Batcher.ReadyTripleBatch | data/process_data.py:401-408 | the subject, relation and object columns, each sorted by sentence length. No sentence lengths is an IndexError, because `sort_all` has no index column to return; an empty batch with lengths is a ValueError, because nothing unpacks into three columns |
| Batchers.Batcher.ReadyBinaryLabelsBatch | data/process_data.py:377-393 | one label row of width num_rel-1 per label, in sorted order. No sentence lengths or no labels is an IndexError; otherwise num_rel < 1 is a ValueError (a negative width) and every other input succeeds |
| Batchers.Batcher.ReadyDataBatch | data/process_data.py:410-429 | an empty batch fails; otherwise the readied base part and the sorted triple columns |
| Batchers.Batcher.Len | data/process_data.py:450-451 | the number of batches, ceil(numExamples / batchSize) |
| Batchers.Batcher.GetItem | data/process_data.py:453-460 | an index outside 0..len-1 is an IndexError; otherwise that batch, readied |
| Processor.AbsorbAllStopsAt | data/process_data.py:47-57 | parsing stops with the error of the first record that fails |
| Processor.AbsorbAllError | data/process_data.py:56-57 | the only way parsing fails is a KeyError for an unknown entity type |
| Processor.StopsHere | data/process_data.py:56-57 | a record whose entity type is unknown stops the parse there with a KeyError |
| Processor.StepMatches | data/process_data.py:47-121 | one loop iteration's updates of tables, graph and sample are exactly one step of the parse function |
| Processor.AbsorbAllExtends | data/process_data.py:47-121 | after a successful step, parsing the next prefix yields the extended tables and the sample list plus the new sample |
| Processor.ParseAllValid | data/process_data.py:34-42 | parsing all partitions keeps the tables and graph valid and only grows them |
| Processor.ParseAllNames | data/process_data.py:34-42 | the parsed partitions are keyed exactly by the partition names |
| Processor.ParseAllSamples | data/process_data.py:34-42 | every sample of every parsed partition is consistent with the final tables and graph |
| Processor.ParseAllStopsAt | data/process_data.py:36-41 | a failing partition stops preprocessing with its error |
| Processor.ParseAllExtends | data/process_data.py:36-41 | parsing one more partition records its samples under its name |
| Processor.ParseAllFails | data/process_data.py:36-41 | when a partition fails, preprocessing fails with a KeyError |
| Processor.ParseAllDone | data/process_data.py:36-42 | after the last partition, the loop's result is the whole preprocessing result and the processor invariant holds for it |
| Processor.PartitionsGrow | data/process_data.py:36-42 | earlier partitions stay consistent with the tables as later partitions grow them |
| Processor.ParsedValid | data/process_data.py:44-136 | parsing a partition and recomputing the derived maps keeps the processor invariant |
| Processor.ParsedTables | data/process_data.py:74-76 | after parsing, the relation ids are contiguous |
| Processor.ClosedByUnused | data/process_data.py:128-132 | the reversed subject-object map plus every unused triple mapped to `no_relation` is the closed triple world |
| Processor.AllTriplesAre | data/process_data.py:144-155 | a set holding exactly the subject x relation x object triples is the product |
| Processor.Gather | data/process_data.py:183 | one sample per index |
| Processor.StratifiedFails | data/process_data.py:177-219 | stratified sampling fails with ZeroDivisionError iff there are no relations, with KeyError iff a sample's relation has no quota, and with ValueError iff the partition is empty |
| Processor.StratifiedPicks | data/process_data.py:177-199 | the sample is the partition at distinct indices, as many as the sum of min(quota, class size), so no larger than the partition |
| Processor.StratifiedSize | data/process_data.py:177-219 | the sample has at most `sample_size` samples, and exactly that many when every relation occurs at least as often as its quota |
| Processor.QuotaTotal | data/process_data.py:210-219 | with ids 0..n-1, the drawn total is at most the sample size, and equal when every class is large enough |
| Processor.SampledFromPartition | data/process_data.py:225-226 | the (optionally sampled) partition is no larger than the partition and holds its samples only |
| Processor.SampledSucceeds | data/process_data.py:225-226 | on the processor's own data, sampling fails only on an empty partition |
| Processor.SampledSamples | data/process_data.py:225-226 | sampled samples stay consistent with the tables |
| Processor.CleanedLabels | data/process_data.py:247-294 | cleaning the processor's own partition never fails, and the Batcher's labels then resolve |
| Processor.CleanedBatchable | data/process_data.py:247-313 | a cleaned partition of the processor's own samples can be batched |
| Processor.MaskingUnrecorded | data/process_data.py:268-271 | asking for masking that parsing did not record fails on any non-empty partition |
| Processor.IteratorSucceeds | data/process_data.py:221-279 | on the processor's own data, building an iterator never fails for a known stage, a non-zero batch size, a non-empty sampled partition and masking recorded at parse time |
| Processor.IteratorFails | data/process_data.py:221-279 | conversely, if building an iterator succeeds, then those conditions held |
| Processor.IteratorDataFrom | data/process_data.py:221-279 | when sampling, the stage lookup, cleaning and labelling all succeed, the iterator's inputs are the stage view and the cleaned data |
| Processor.GroupsStep | data/process_data.py:201-208 | grouping one more sample appends its index to its class's group |
| Processor.MembersAbsent | data/process_data.py:201-208 | a class that does not occur has no members |
| Processor.GroupByClassStep | data/process_data.py:201-208 | one loop iteration, including the insertion of a new class, is one step of the grouping function and of the class order |
| Processor.ShuffleDrawsPrefix | data/process_data.py:289-290 | the shuffle draws for a partition also fit any shorter cleaned partition |
| Processor.IteratorBatchable | data/process_data.py:221-279 | whatever a valid processor's iterator cleans can be labelled and batched, and is no larger than the partition |
| Processor.DataProcessor.constructor | data/process_data.py:13-31 | a new processor starts with empty tables, an empty graph and no partitions, and is valid |
| Processor.DataProcessor.PreprocessData | data/process_data.py:34-42 | succeeds iff parsing every partition succeeds. Then the tables and graph are the parse's and the partitions map each name to its samples, and the processor stays valid; on failure, a KeyError |
| Processor.DataProcessor.ParseData | data/process_data.py:44-136 | succeeds iff every record parses, and then yields the parse's samples and tables. It recomputes the reversed maps and the closed triple world, and sets num_rel to the number of relations. On failure: a KeyError at some record, with the derived maps untouched |
| Processor.DataProcessor.ParseRecords | data/process_data.py:47-121 | the record loop performs exactly the parse function's steps, stopping at the first failing record |
| Processor.DataProcessor.AbsorbFeatures | data/process_data.py:56-109 | the table updates of one record are the table step function, and the sample is built from the new relation id |
| Processor.DataProcessor.RecordMasking | data/process_data.py:111-117 | with masking on, the relation joins its entity pair's set in the graph; otherwise the graph is unchanged |
| Processor.DataProcessor.CurriculumMappings | data/process_data.py:123-135 | the derived maps are `id2rel`, the three reversals, the closed triple world and `rel2ids` of the tables |
| Processor.DataProcessor.ReverseSetMaps | data/process_data.py:162-167 | the result maps every member of every set to a key whose set holds it, and nothing else |
| Processor.DataProcessor.CreateAllPossibleTriples | data/process_data.py:144-155 | the result is exactly the subject x relation x object product of the tables' values |
| Processor.DataProcessor.AddUnusedTriples | data/process_data.py:157-160 | fails with AssertionError iff an unused triple is already mapped; otherwise the mapping extended by every unused triple mapped to `no_relation` |
| Processor.DataProcessor.GroupByClass | data/process_data.py:201-208 | the groups are exactly the grouping function of the samples' relations, and the class order is their first occurrences |
| Processor.DataProcessor.DistributeSampleSize | data/process_data.py:210-219 | ZeroDivisionError iff there are no relations; otherwise each relation id gets the even share, plus one if drawn for the remainder |
| Processor.DataProcessor.PerformStratifiedSampling | data/process_data.py:177-184 | the result is the stratified sample of the partition, whose size and failures are stated by the Stratified lemmas |
| Processor.DataProcessor.CleanData | data/process_data.py:247-272 | the cleaning loop yields exactly the enrichment of every sample, stopping at the first failure |
| Processor.DataProcessor.IteratorInputs | data/process_data.py:221-272 | the partition lookup, sampling, stage choice and cleaning yield exactly the iterator's input function |
| Processor.DataProcessor.CreateIterator | data/process_data.py:221-279 | fails iff the inputs fail, with their error. Otherwise it builds a fresh valid Batcher over the cleaned data, in evaluation mode iff the partition is not `train` |
| Processor.DataProcessor.MakeBatcher | data/process_data.py:274-279 | the Batcher is fresh, valid and built over the cleaned data |

## Left out

- File and JSON I/O: `preprocess_data` opens one file per partition; `PreprocessData` takes the partitions' records as values.
- `__init__` calls `preprocess_data` itself; here the constructor and `PreprocessData` are two calls.
- `Batcher.__iter__` is a generator over `__getitem__`; it is not modelled beyond `GetItem`.
- The `TypeError` branch of `__getitem__` is not modelled: the index is an `int` by type.
- Lower-casing is ASCII only; Python's `str.lower` covers all of Unicode.
- Span bounds are natural numbers: Python's negative slice indices are not modelled.
- `utils/constant.py` is not part of this model: PAD_ID is 0 and UNK_ID is 1, following the TACRED convention, and the POS/NER/dependency tables are fields of `Vocab`.
- Randomness is an input:
  - `np.random.choice(n, k, replace=False)` is the first k entries of a permutation;
  - `np.random.shuffle` is the Fisher-Yates swaps with given swap indices;
  - `np.random.random()` is given as one draw per token position of each sorted sentence. The source draws only for tokens other than UNK, because the `and` short-circuits, so the model allows more draw sequences than the source makes: every run of the source is one of them.
- Sampling.Quota: `int(sample_size / n)` goes through floating point; the model uses exact floor division, which agrees with it for sample sizes from 0 up to about 2^53.
- Samples.Config: `sample_size` is a natural number or absent; negative sizes are excluded by its type. The source would accept them, and there `int(sample_size / n)` truncates toward zero while `sample_size % n` floors. For -n < s < 0 every quota is 0 or 1 and they sum to s + n, not s: with s = -1 and 3 relations the quotas are 1, 1, 0, and up to 2 samples are drawn. For s <= -n some quota is negative and reaches `np.random.choice`. None of this is modelled.
- Processor.DataProcessor.ReverseSetMaps: the order in which Python iterates the dictionary decides which key wins for a member held by several sets. The contract leaves that open. `Hierarchy.ReverseOfGrouping` proves the result unique for the binary and subject-type groupings.
- Processor.DataProcessor.AddUnusedTriples returns the extended map instead of mutating its argument.
- `num_rel`: `ready_binary_labels_batch` reads `len(self.rel2id)`, which the Batcher never sets (an AttributeError). The model takes the relation count as a parameter. The branches that call it and `ready_relation_masks_batch` are not reachable from `ready_data_batch`, because no sample carries a `binary_labels` or `relation_masks` entry.
- `ready_masks_batch`, `ready_relation_masks_batch` and `ready_binary_classification_batch` are dead code and are not modelled.
- `triple2rel` and `triple2triple` are the two variants of `Curriculum.View`, not functions passed around.
- `np.unique` of the matched ids is a set, so the model keeps no order or duplicates.
- Tensor element types (float32, long) are not modelled: tensors are `array2<int>` and label rows are `seq<int>`.
- Batchers.Batcher.constructor demands that the labels resolve, that the batch size is non-zero and that every sample is batchable. The source raises a KeyError or ValueError in the constructor in those cases; a Dafny constructor cannot return an error. `Processor.IteratorBatchable` proves these demands hold for every Batcher that `CreateIterator` builds.
- Processor.DataProcessor.ParseData does not re-establish the full processor invariant itself: a partition parsed earlier is made consistent again by `PreprocessData`.
- Sampling.StratifiedTotal and Processor.StratifiedSize bound the sample by `sample_size` and state equality only when every class is large enough; the exact size is the sum of min(quota, class size) (`Processor.StratifiedPicks`).
- Batching.ChunksCount states ceil(n/b) as the two bounds that define it.
- `aggregate_sample_indices` and `sample_by_class` are modelled as functions (`Sampling.Aggregate`, `Sampling.SampleByClass`), not loops. The loops only build a dictionary entry by entry.
- `ready_data_batch` readies only the `triple` supplemental entry. The masking entry, when present, is batched but not readied, as in the source.
- `PartitionOf` and `MatchedIds`: reading a missing key of a `defaultdict` (`self.partitions[partition_name]`, `label2id[relation_label]`) also inserts an empty entry. The model returns the empty value without changing the map; no later read sees the difference.
