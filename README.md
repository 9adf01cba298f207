# Beam search, translation building, checkpoint retention and vocabularies of CoRec

This project models four discrete pieces of the CoRec commit-message generator
and proves properties of them in Dafny.

- **Beam search** (`beam_search.dfy`, module `BeamSearch`): the bookkeeping of
  `DiffTranslator.translate_batch`. Each active example keeps `K` beams. Every
  step scores the `K·V` continuations, keeps the top `K` and splits each flat
  candidate id into its parent beam and its token. Finished hypotheses are
  stored. An example retires with its `n_best` best hypotheses once its top
  beam has finished. Retired examples are compacted away. The neural network is
  a black-box `Model` that scores one token after one prefix. The rank/recover
  permutation of `_run_ext_encoder` is modelled here too.
- **Translation building** (`translation.dfy`, module `Translation`):
  `TranslationBuilder._build_target_tokens` and `from_batch`. Ids are looked up
  up to the first `</s>`. Each `<unk>` can be replaced by the most-attended
  eligible source word. A batch is put back into dataset order.
- **Checkpoint retention** (`model_saver.dfy`, module `ModelSaver`): the class
  `ModelSaver` with `maybe_save`'s bounded FIFO queue of checkpoint names, the
  `<base>_step_<n>.pt` name format and the filter that drops generator keys.
  Writing and deleting files are recorded in a ghost effect log.
- **Vocabularies** (`vocabulary.dfy`, module `Vocabulary`): `create_vocab`
  counts tokens, orders them by non-increasing frequency with a stable sort,
  puts the special tokens in front and makes `<unk>` the default index.
  `get_indices` and `get_max_index` look tokens up.

Shared modules: `Results` (`Option`, `Result`), `Scores` (`ExtInt`, integers
extended with minus infinity, for the source's float scores and `-inf`) and
`Sorting` (a stable descending insertion sort, top-k, an argsort and gathering
by an index list).

Every loop and every in-place update of the source is a `method`. Each one
is proved equal to a specification function, and the properties are proved
about those functions. The decoding loop of `translate_batch` is specified by
`Step` (one pass) and the recursive `Decode` (the whole loop).

## Model

| member | source | states |
|---|---|---|
| BeamSearch.Origin | diff_trans.py:360 | The parent beam of a flat candidate lies in `[0, K)`, and parent block plus token give back the candidate. |
| BeamSearch.Token | diff_trans.py:361 | The token of a flat candidate lies in `[0, V)`. |
| BeamSearch.OriginTokenDivMod | diff_trans.py:360-361 | Parent and token are exactly `c / V` and `c % V`. |
| BeamSearch.SplitFlatId | diff_trans.py:352-361 | Any (parent, token) pair is a flat candidate below `K·V`, and splitting its flat id returns the same pair. |
| BeamSearch.Candidates | diff_trans.py:342-353 | Candidate `o·V + t` scores the step score of token `t` after beam `o` plus beam `o`'s running score. Before `min_length` the end token scores `-1e20`. |
| BeamSearch.Expand | diff_trans.py:352-370 | The kept ids are the top `K` candidates. Each new row is its parent row plus its token, and each new score is that candidate's score. |
| BeamSearch.ExpandKeepsBest | diff_trans.py:352-354 | The kept candidates are distinct, in non-increasing score order, and no unkept candidate beats a kept one. |
| BeamSearch.EarlyEndNeverSelected | diff_trans.py:342-354 | If `K` candidates beat every end-token continuation, no kept candidate ends with the end token. |
| BeamSearch.FirstStepUsesLiveBeam | diff_trans.py:327-361 | At step 0, when at least `K` tokens have finite scores, every kept candidate continues beam 0. The dead beams' `-inf` never wins. |
| BeamSearch.TopKFromFirstBlock | diff_trans.py:350-360 | With at least `k` finite candidates in the first block of a blocked layout and `-inf` everywhere else, the top `k` candidates all come from the first block. |
| BeamSearch.DeadCandidatesNegInf | diff_trans.py:327-346 | At step 0 every candidate from beams 1..K-1 scores `-inf`. |
| BeamSearch.InitialRunning | diff_trans.py:327 | The initial running scores are 0 for beam 0 and `-inf` for the other `K-1` beams. |
| BeamSearch.InitialSearch | diff_trans.py:320-331 | Before the first step every example is active with `K` rows holding only the start token, and nothing is stored. |
| BeamSearch.AliveRowExtend | diff_trans.py:370 | Appending a vocabulary token to a live row gives a live row one token longer. |
| BeamSearch.ExpandAll | diff_trans.py:346-370 | Every active example is expanded by its own `K` rows, and every new row is live and one token longer. |
| BeamSearch.ExpandAppendsToParent | diff_trans.py:364-370 | Each new row equals the parent row its candidate names, with the selected token appended. |
| BeamSearch.AppendToParent | diff_trans.py:364-365 | In the flat layout, the parent `o + i·K` of example `i` lies in `[i·K, (i+1)·K)`, and the new flat row is that parent row plus the token. |
| BeamSearch.FlatRow | diff_trans.py:390 | Row `i·K + o` of the flat layout is beam `o` of example `i`. |
| BeamSearch.FinishedFlags | diff_trans.py:380-382 | A row is finished iff its last token is the end token or `step + 1 == max_length`. |
| BeamSearch.Mask | diff_trans.py:385-387 | Finished rows get running score `-1e10`; the others keep their score. |
| BeamSearch.TopBeamUpdate | diff_trans.py:389 | `top_beam_finished` becomes true iff it was already true or beam 0 has just finished. It is never cleared. |
| BeamSearch.FinishedHypsFromRows | diff_trans.py:400-405 | Every stored hypothesis comes from a finished row: its score is that row's score, and its tokens are the row without the start token. |
| BeamSearch.FinishedHypsComplete | diff_trans.py:380-405 | A stored hypothesis ends with the end token or has `max_length` tokens, and all its tokens are in the vocabulary. |
| BeamSearch.BestOrdered | diff_trans.py:409-415 | The `n_best` results are in non-increasing score order. |
| BeamSearch.BestFromHyps | diff_trans.py:409-415 | The results are a sub-multiset of the stored hypotheses. |
| BeamSearch.BestLeavesWorse | diff_trans.py:409-415 | No stored hypothesis left out of the results scores above any result. |
| BeamSearch.StoreRows | diff_trans.py:400-405 | Storing appends the finished rows' hypotheses to the example's list, in row order. |
| BeamSearch.StoreExample | diff_trans.py:396-417 | An example retires iff its top beam has finished and it holds at least `n_best` hypotheses. It then adds its `n_best` best to its results, and otherwise nothing. |
| BeamSearch.StoreFinished | diff_trans.py:395-418 | The loop over active examples leaves the books that each example's storing and retiring determines, and lists the survivors in order. |
| BeamSearch.Survivors | diff_trans.py:416-418 | The survivors are the non-retired positions, in increasing order. |
| BeamSearch.ScatterKeepsLedger | diff_trans.py:395-430 | After the loop, active examples stay in increasing order with no results, and every other example is done: it holds at least `n_best` hypotheses and its results are their best `n_best`. |
| BeamSearch.ScatterRetires | diff_trans.py:408-426 | An example dropped from `batch_offset` is done. |
| BeamSearch.GatherIncreasing | diff_trans.py:426 | Compaction keeps `batch_offset` strictly increasing, so relative order is kept. |
| BeamSearch.CompactAlive | diff_trans.py:424-430 | Keeping some active examples keeps exactly their live rows. |
| BeamSearch.StepKeepsLedger | diff_trans.py:395-430 | One whole step keeps the ledger of active and done examples. |
| BeamSearch.StepKeepsComplete | diff_trans.py:400-405 | One whole step stores only complete hypotheses. |
| BeamSearch.LastStepRetiresAll | diff_trans.py:380-408 | At the last step, with `n_best <= K`, every active example retires. |
| BeamSearch.NoSurvivors | diff_trans.py:420-421 | When every example retires, no example survives and the loop stops. |
| BeamSearch.StepBooks | diff_trans.py:395-418 | Every survivor the loop over active examples lists is one of those examples. |
| BeamSearch.StepState | diff_trans.py:384-430 | After storing, a step stops exactly when no example survives. |
| BeamSearch.StepStateSearching | diff_trans.py:384-430 | Storing, retiring and compacting the survivors' rows, masked scores and flags keep the search invariant; at the last step with `n_best <= K` it stops. |
| BeamSearch.StepSearching | diff_trans.py:332-430 | A whole step keeps the search invariant. It stops only with no active example left, and stops whenever it leaves none of the examples it started with. The last step with `n_best <= K` leaves none. |
| BeamSearch.DecodeKeepsLedger | diff_trans.py:332-430 | When decoding ends, every still-active example has no results and every other one holds its `n_best` best stored hypotheses; all stored hypotheses are complete. |
| BeamSearch.DecodeRetiresAll | diff_trans.py:332-430 | With at least one step to run and `n_best <= K`, decoding retires every example. |
| BeamSearch.DecodeUnfold | diff_trans.py:332-430 | One pass of the loop keeps the search invariant, and decoding from a state is that pass followed, unless it stopped, by decoding from the next step. |
| BeamSearch.DecodeResults | diff_trans.py:246-457 | Decoding a batch from the initial state leaves one hypothesis list and one result list per example, all stored hypotheses complete, each example's results empty or its `n_best` best, and with `max_length >= 1` and `n_best <= K` every example done. |
| BeamSearch.DecodeStep | diff_trans.py:332-430 | The loop body computes exactly the step function `Step`: expansion by the model, finished flags, and either the new rows and scores or the storing part. What `Step` keeps and when it stops is `StepSearching`. |
| BeamSearch.StoreAndCompact | diff_trans.py:384-430 | The storing part computes exactly `StepState`: the books of `StoredAll`/`Scatter` and the survivors gathered from `batch_offset`, the rows, the masked running scores and the top-beam flags. It keeps the search invariant and stops iff no example survives. |
| BeamSearch.TranslateBatch | diff_trans.py:246-457 | The stored hypotheses and results are those of `Decode` from the initial state, so of the model's scores. Every stored hypothesis is complete. Each example's results are empty or its `n_best` best stored hypotheses. With `max_length >= 1` and `n_best <= K`, every example gets its `n_best` best. |
| BeamSearch.Rank | diff_trans.py:470 | `rank` is a permutation of the batch that orders lengths non-increasingly. |
| BeamSearch.RecoverInvertsRank | diff_trans.py:475 | Sorting `rank` ascending gives its inverse permutation. |
| BeamSearch.AscendingInvertsPermutation | diff_trans.py:475 | The ascending argsort of any permutation is its inverse. |
| BeamSearch.RankThenRecover | diff_trans.py:470-478 | Indexing by `rank` and then by `recover` restores the original batch order. |
| Sorting.SortDesc | diff_trans.py:409 | The sort is a permutation with non-increasing keys. |
| Sorting.SortDescStable | diff_trans.py:409 | The sort is stable: elements with equal keys keep their relative order. |
| Sorting.TopK | diff_trans.py:354 | The top `k` ids are distinct, in non-increasing score order, and no other id scores higher. |
| Sorting.AscendingSorted | onmt/translate/translation_wrapper.py:77-86 | The ascending argsort is a permutation that orders the keys non-decreasingly. |
| Translation.Lookup | onmt/translate/translation_wrapper.py:50-62 | A successful lookup is no longer than the ids and never contains `</s>`. |
| Translation.LookupOk | onmt/translate/translation_wrapper.py:50-62 | A successful lookup is the word-by-word lookup of the ids before the first `</s>`, or of all ids when there is none. |
| Translation.LookupErr | onmt/translate/translation_wrapper.py:52-58 | A failed lookup names an id `>= len(vocab)` and no `</s>` comes before it. |
| Translation.LookupTokens | onmt/translate/translation_wrapper.py:50-62 | The first loop computes exactly the lookup, including its error. |
| Translation.Replacement | onmt/translate/translation_wrapper.py:66-68 | A chosen position lies inside the source and its word is not in the stoplist. |
| Translation.ReplacementIsBestEligible | onmt/translate/translation_wrapper.py:64-70 | The chosen position has the highest attention among eligible positions. There is none iff no attended position is eligible. |
| Translation.ReplacedUpToOk | onmt/translate/translation_wrapper.py:64-70 | Replacement succeeds iff every `<unk>` has an attention row. |
| Translation.ReplacedUpToErr | onmt/translate/translation_wrapper.py:65 | A failed replacement names an `<unk>` position past the last attention row. |
| Translation.ReplacedUpToWords | onmt/translate/translation_wrapper.py:64-70 | Replacement keeps every word other than `<unk>`, and turns each `<unk>` into its replacement, or leaves it `<unk>` when nothing is eligible. |
| Translation.ReplacedUpTo | onmt/translate/translation_wrapper.py:64-70 | Replacement preserves length. |
| Translation.PickReplacement | onmt/translate/translation_wrapper.py:66-70 | The inner loop returns the replacement word, or `<unk>` when nothing is eligible. |
| Translation.ReplaceUnk | onmt/translate/translation_wrapper.py:63-70 | The second loop computes exactly the replacement, including its error. |
| Translation.BuildTargetTokens | onmt/translate/translation_wrapper.py:49-71 | The output is the lookup, with `<unk>`s replaced when asked to. Without `replace_unk` or attention it is exactly the lookup. |
| Translation.PredSentsSpec | onmt/translate/translation_wrapper.py:97 | Each predicted sentence is built from that example's prediction and attention. |
| Translation.PredictionSentences | onmt/translate/translation_wrapper.py:97 | The comprehension computes exactly `n_best` built sentences, or the first error. |
| Translation.TranslationFor | onmt/translate/translation_wrapper.py:94-106 | A translation holds exactly `n_best` predicted sentences. |
| Translation.TranslateExample | onmt/translate/translation_wrapper.py:94-106 | The loop body computes the translation of the `b`-th example in dataset order. |
| Translation.CollectSpec | onmt/translate/translation_wrapper.py:94-107 | Collecting succeeds iff every result does, keeping their order; otherwise it fails with the first error. |
| Translation.FromBatch | onmt/translate/translation_wrapper.py:73-107 | Unequal gold-score and prediction lists and an empty zip fail. Otherwise the result is the `batch_size` translations in dataset order, or the first error. |
| Translation.TranslateAll | onmt/translate/translation_wrapper.py:94-107 | The loop collects exactly the per-example translations. |
| Translation.TranslationCarriesExample | onmt/translate/translation_wrapper.py:77-106 | The `b`-th translation belongs to the example with the `b`-th smallest dataset index: its source, raw words, attention, scores and gold score, and sentences built from its predictions. |
| ModelSaver.NatToStringRoundTrip | onmt/helpers/model_saver.py:124 | Reading back the decimal digits of a step number gives the number. |
| ModelSaver.SignOfIntToString | onmt/helpers/model_saver.py:124 | `%d` starts with `-` iff the number is negative. |
| ModelSaver.MagnitudeOfIntToString | onmt/helpers/model_saver.py:124 | After the sign, `%d` holds the decimal digits of the magnitude. |
| ModelSaver.IntToStringInjective | onmt/helpers/model_saver.py:124 | Different steps give different `%d` strings. |
| ModelSaver.CheckpointName | onmt/helpers/model_saver.py:124 | A checkpoint name starts with the base path and ends with `.pt`. |
| ModelSaver.CheckpointNameInjective | onmt/helpers/model_saver.py:124 | Different steps give different checkpoint names. |
| ModelSaver.WithoutGenerator | onmt/helpers/model_saver.py:110-112 | The saved state holds exactly the original keys that do not contain `generator`, with their values. |
| ModelSaver.LastNAppend | onmt/helpers/model_saver.py:62-66 | The last `k` names after one more save: drop the oldest if there were `k`, then append. |
| ModelSaver.RetentionStep | onmt/helpers/model_saver.py:62-66 | A full queue drops its oldest name and that name is the next removed. The queue stays the last `k` saved names, and the removed names stay every older one, in save order. |
| ModelSaver.ModelSaver.constructor | onmt/helpers/model_saver.py:35-46 | A new saver has an empty queue and no effects. |
| ModelSaver.ModelSaver.MaybeSave | onmt/helpers/model_saver.py:48-66 | Nothing happens when `keep_checkpoint == 0` or `step` is not a multiple of `save_checkpoint_steps`. A zero divisor raises. Otherwise the model is saved under the step's name. With `keep > 0` the queue is a FIFO of the last `keep` names, and evicted names are removed. With `keep < 0` nothing is queued or removed. |
| Vocabulary.UpdateCounts | onmt/inputters/vocabulary.py:22-32 | Counting gives every distinct token once, with its exact number of occurrences. |
| Vocabulary.CountExamples | onmt/inputters/vocabulary.py:26-32 | The loop over one dataset updates both counters with all its source and target tokens. |
| Vocabulary.CountDatasets | onmt/inputters/vocabulary.py:22-32 | The loop over all datasets counts all their tokens, in order. |
| Vocabulary.FreqOrderTokens | onmt/inputters/vocabulary.py:33-38 | The ordered vocabulary holds exactly the tokens of the data. |
| Vocabulary.FreqOrderDistinct | onmt/inputters/vocabulary.py:33-38 | Each token appears once. |
| Vocabulary.FreqOrderByCount | onmt/inputters/vocabulary.py:33-34 | Tokens come in non-increasing order of frequency. |
| Vocabulary.FreqOrderStable | onmt/inputters/vocabulary.py:33-36 | Tokens of equal frequency keep their first-occurrence order. |
| Vocabulary.InsertToken | onmt/inputters/vocabulary.py:40-43 | Insertion succeeds iff the token is new and the index is in range, and then puts the token at that index and shifts the rest. |
| Vocabulary.InsertSpecials | onmt/inputters/vocabulary.py:40-43 | Inserting the specials at 0, 1, 2, … succeeds iff none occurs already, and then puts them in front in order. |
| Vocabulary.CreateVocab | onmt/inputters/vocabulary.py:12-48 | The source vocabulary is `<unk> <blank> </s>` and the target one `<unk> <blank> <s> </s>`, each followed by the data's tokens by frequency. Both default to `<unk>` at 0, and no size limit is applied. Fails iff a special token occurs in the data. |
| Vocabulary.LookupIndex | onmt/inputters/vocabulary.py:62 | A known token maps to its position. An unknown one maps to the default index, and fails without one. |
| Vocabulary.GetIndices | onmt/inputters/vocabulary.py:55-62 | The indices have the example's length. Known tokens map to their positions and unknown ones to the default index. |
| Vocabulary.IndicesBelowMaxIndex | onmt/inputters/vocabulary.py:51-62 | With an in-range default, every index lies below `get_max_index - 1`, the vocabulary length. |

## Left out

- Float scores are integers (`ExtInt`, with minus infinity for `-inf`). The length penalty is taken with `alpha = 0`, so it is 1 (diff_trans.py:348-349).
- The encoder, decoder, generator and `map_state` tiling become the `Model` parameter, a function of (example, prefix, token). Reordering the memory bank and decoder state (diff_trans.py:434-455) is not modelled.
- Attention tensors, `memory_lengths` slicing and device moves (diff_trans.py:372-378, 390-394, 431-432) are not modelled. Stored hypotheses carry no attention.
- `torch.topk` and `torch.sort` do not fix the order of ties. The model takes the lower index first.
- The feature asserts at diff_trans.py:259-262 are not modelled; the configuration has no such fields.
- `beam_size >= 1` and `vocab_size >= 1` are required (`ValidConfig`). With a zero beam or vocabulary the source's `topk` and `view` fail on empty tensors.
- `ValidConfig` also requires `end_token < vocab_size` when `min_length > 0`. Otherwise `log_probs[:, end_token] = -1e20` raises an `IndexError` at the first step (diff_trans.py:342-343); that error path is not modelled.
- `_score_target`, gold scores and `semantic()` are float computations. They are not modelled; gold scores are carried as given.
- The log line `Saving checkpoint …` that `_save` writes (onmt/helpers/model_saver.py:123) is not modelled; logging has no effect on the saver's state.
- `torch.save`, `torch.load`, `os.remove`, `DataParallel` unwrapping and `build_model_saver`'s directory creation become entries in the saver's ghost effect log.
- The `vocab`, `opt` and `optim` objects stored in a checkpoint are not modelled; a checkpoint holds only the filtered model state.
- `TranslationWrapper.log` and the `TranslationWrapper` constructor only format and store fields. The translation is a record.
- torchtext's `vocab()` is modelled as a list of distinct strings. `insert_token` of an existing token is an error result, not a precondition.
- `from_batch` reads the raw source words as the first item of each dataset entry. The dataset is given as those word lists.
- The source's `sorted(zip(...), key=index)` and `index_select` are modelled as a gather by a stable ascending argsort. An out-of-range index is an `IndexOutOfRange` error.
- Translation.TranslationCarriesExample: proved only when the five zipped lists have equal length. When `zip` truncates, the loop still runs to `batch_size` and the source's results misalign or fail; the model follows that.
- Call sites that disagree with the definitions are not modelled. Each component follows its own definition.
- Vocabulary.GetMaxIndex: has no contract of its own (it is `len(itos) + 1`); its meaning is stated by `IndicesBelowMaxIndex`.
