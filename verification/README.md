# LLM Foundry utilities: attention modifiers, prompt loading, perplexity by position

A Dafny model of three small pieces of pure logic from LLM Foundry:

- **Flex-attention modifiers** (`FlexAttention`, `flex_attention.dfy`). These are the mask modifiers
  (causal, sliding-window, sequence-id, local+global) and the ALiBi score modifier. The model covers
  the base class's type-tag dispatch, binding the sequence metadata with `functools.partial`, and
  the two compositions. `generate_block_mask` folds masks with `and_masks`. `generate_score_mod`
  chains score functions with `_wrap_score_mod_fns`. Each composition is modelled as the tree its
  loop builds, and is proved equal to an independent reference: conjunction over the list for
  masks, front-to-back application for scores.
- **Prompt loading** (`PromptFiles`, `prompt_files.dfy`). This covers `load_prompts` and
  `load_prompts_from_file`. The filesystem is a `map<string, string>`. Python's `str.split(sep)`
  is modelled as a leftmost, non-overlapping split. The predicate `IsSplit` describes that split
  independently, and `SplitIsUnique` proves it has only one solution.
- **Loss versus context length** (`LossVsContextLength`, `loss_v_context_length.dfy`). This is the
  arithmetic of `LossVsContextLengthEvaluator.eval_batch_end`:
  - The `tok_ids` tensor expression (one-hot, cumulative sum, mask, column sum) is modelled
    literally and proved equal to "number of earlier tokens with the same sequence id".
  - The model also covers the per-position count and perplexity histograms, and the two running
    accumulators, which are explicit input and output state.
  - It covers the averaged table with its −1 sentinel.
  - The stored accumulators are added to the batch's per-position sums with torch's broadcasting. Either operand may have length 1, and a mismatch raises `RuntimeError`.

Python exceptions become `PyResult.Result` values. The `Error` records which exception class
would propagate.

One behaviour the proofs make explicit is in `TokensAtPositionAreSequencesReachingIt`. The
length accumulator at position `i` counts the packed sequences that have more than `i` tokens.
At position 0 it also counts every token whose id is outside `[0, L)`, such as padding (`-1`).
That token's perplexity is added at position 0 too.

## Model

| member | source | states |
|---|---|---|
| `FlexAttention.Init` | llmfoundry/models/layers/flex_attn_utils.py:39-42 | The constructor succeeds only for the tags "mask" and "score"; any other tag is an `AssertionError`. `mod_fn` is the mask function exactly when the tag is "mask". |
| `FlexAttention.New` | llmfoundry/models/layers/flex_attn_utils.py:59-60 | A class constructor passes its own tag, so `mod_fn` is the mask function exactly for the mask classes. The same pattern is at lines 77-78, 103-104, 139 and 161. |
| `FlexAttention.ConstructedModsAreImplemented` | llmfoundry/models/layers/flex_attn_utils.py:14-42 | For a modifier built by its own class, the base assertion passes. The bound `mod_fn` never reaches the base class's `NotImplementedError`. |
| `FlexAttention.SequenceIdTest` | llmfoundry/models/layers/flex_attn_utils.py:99-101 | Succeeds exactly when `b`, `q` and `kv` index the tensor; otherwise `IndexError`. The result is true iff the query and key have the same id and the query id is not -1. |
| `FlexAttention.Allowed` | llmfoundry/models/layers/flex_attn_utils.py:48-132 | The rules for each mask class: <br>• Causal: `q >= kv`. <br>• Sliding window: `q - kv <= w`. <br>• Sequence-id: same non-padding sequence. <br>• Local-global: same non-padding sequence AND (`pos_in_seq[b][kv] <= g` OR `q - kv <= w`). <br>The base version raises `NotImplementedError`. Missing metadata is a `ValueError`. A missing dictionary key is a `KeyError` naming the key. An out-of-range index is an `IndexError`. |
| `FlexAttention.ModifyScore` | llmfoundry/models/layers/flex_attn_utils.py:147-158 | ALiBi fails only when the head has no slope, and then with `IndexError`. Otherwise the result is `score − slopes[h]·(q − kv)`. So a diagonal score (`q == kv`) is unchanged, and with a positive slope the score decreases exactly when the key precedes the query. The mask classes raise `NotImplementedError`. |
| `FlexAttention.CallMask` | llmfoundry/models/layers/flex_attn_utils.py:42 | Calling a bound modifier as a mask: a modifier whose `mod_fn` is the score function raises `TypeError`, because that function takes an extra positional argument. A mask modifier gives exactly its mask rule. |
| `FlexAttention.CallScore` | llmfoundry/models/layers/flex_attn_utils.py:42 | Calling a bound modifier as a score function: a modifier whose `mod_fn` is the mask function raises `TypeError`, because that function takes one positional argument fewer. A score modifier gives exactly its score rule. |
| `FlexAttention.BuildMaskTree` | llmfoundry/models/layers/flex_attn_utils.py:198-209 | The loop produces a mask exactly when the list is non-empty. Its operands, read left to right, are the bound modifiers in list order. |
| `FlexAttention.EvalMask` | llmfoundry/models/layers/flex_attn_utils.py:206-209 | Evaluating an `and_masks` tree is the conjunction of its leaves. It is true iff every leaf is true, and it fails iff some leaf fails, with the first failing leaf's error. |
| `FlexAttention.ConjunctionStep` | llmfoundry/models/layers/flex_attn_utils.py:206-209 | Adding one operand with `and_masks` to a conjunction of a list gives the conjunction of the extended list. |
| `FlexAttention.GenerateBlockMask` | llmfoundry/models/layers/flex_attn_utils.py:187-219 | A `None` list gives `None`. Otherwise the builder receives the batch size and lengths unchanged, and a composed mask exactly when the list is non-empty. The composed mask's operands are the list's modifiers, in list order, each bound to the given sequence metadata. It allows an edge `(b, h, q, kv)` exactly when every modifier of the list, bound to that metadata, allows it. |
| `FlexAttention.ComposedMaskIsConjunction` | llmfoundry/models/layers/flex_attn_utils.py:198-209 | For a non-empty list, the composed mask is true iff every modifier is true. It fails iff some modifier fails, and then with the error of the first failing modifier in list order. |
| `FlexAttention.ComposedMaskIgnoresHead` | llmfoundry/models/layers/flex_attn_utils.py:211-217 | The composed mask's decision is the same for every head index. This justifies building the block mask with `H=None`. |
| `FlexAttention.LocalGlobalImpliesSequenceId` | llmfoundry/models/layers/flex_attn_utils.py:127-132 | Every edge the local-global mask allows is also allowed by the sequence-id mask. |
| `FlexAttention.SlidingWindowAdmitsFutureKeys` | llmfoundry/models/layers/flex_attn_utils.py:75 | The sliding window has no lower bound: with `w >= 0` it allows every key at or after the query. |
| `FlexAttention.SequenceIdMaskIsPartialEquivalence` | llmfoundry/models/layers/flex_attn_utils.py:100-101 | The sequence-id mask's allowed edges are symmetric and transitive. |
| `FlexAttention.GenerateScoreMod` | llmfoundry/models/layers/flex_attn_utils.py:222-241 | The result is `None` exactly when the list is `None` or empty. Otherwise the chained functions are the list's modifiers, in list order, each bound to the given sequence metadata. For every score and index tuple the result computes the same thing as applying those bound modifiers one after another, front to back. |
| `FlexAttention.BuildScoreTree` | llmfoundry/models/layers/flex_attn_utils.py:228-239 | The loop produces a function exactly when the list is non-empty. Its chained functions, read left to right, are the bound modifiers in list order. |
| `FlexAttention.EvalScore` | llmfoundry/models/layers/flex_attn_utils.py:244-260 | Evaluating a wrapped score function applies the leaves one after another, front to back. The score from one leaf is the input to the next, and the first error stops the chain. |
| `FlexAttention.ComposedScoreIsSequential` | llmfoundry/models/layers/flex_attn_utils.py:244-260 | For a non-empty list, the composed score function equals f_n(…f_2(f_1(score))…), applied in list order. This includes stopping at the first error. |
| `FlexAttention.AlibiChainClosedForm` | llmfoundry/models/layers/flex_attn_utils.py:157-158 | In exact arithmetic, chained ALiBi modifiers give `score − (Σ slopes[h])·(q − kv)`. The score is unchanged on the diagonal. |
| `PromptFiles.FindFirst` | llmfoundry/utils/prompt_files.py:54 | Returns the leftmost occurrence of the separator, or none when the separator does not occur. |
| `PromptFiles.Split` | llmfoundry/utils/prompt_files.py:66 | `str.split` with a non-empty separator meets the independent description `IsSplit`. The pieces rejoin to the text, no piece contains the separator, and each cut is at the leftmost occurrence. |
| `PromptFiles.SplitIsUnique` | llmfoundry/utils/prompt_files.py:66 | Any list of pieces that satisfies `IsSplit` is exactly what `Split` returns. |
| `PromptFiles.DropEmpty` | llmfoundry/utils/prompt_files.py:66 | The filtered list keeps exactly the non-empty pieces. It is no longer than the input, and its concatenation is unchanged. |
| `PromptFiles.DropEmptyKeepsNonEmpty` | llmfoundry/utils/prompt_files.py:66 | A list with no empty piece passes through unchanged. |
| `PromptFiles.DropEmptyIsOrderedFilter` | llmfoundry/utils/prompt_files.py:66 | The filter preserves order: filtering a concatenation gives the concatenation of the filtered parts. |
| `PromptFiles.DropEmptySingleton` | llmfoundry/utils/prompt_files.py:66 | A single piece is dropped exactly when it is empty, and kept otherwise. |
| `PromptFiles.SplitOnce` | llmfoundry/utils/prompt_files.py:54 | Splitting once returns nothing exactly when the separator does not occur. Otherwise it returns the text before and after an occurrence, which rejoin to the input. No occurrence starts before the cut, so the cut is at the first occurrence. |
| `PromptFiles.FilePath` | llmfoundry/utils/prompt_files.py:54 | For a path starting with `file::`, the file looked up is the rest of the path after that prefix. |
| `PromptFiles.LoadPromptsFromFile` | llmfoundry/utils/prompt_files.py:37-66 | The outcomes are checked in this order: <br>• No `file::` prefix: `ValueError`. <br>• File not in the filesystem: `FileNotFoundError`. <br>• No delimiter: exactly `[contents]`, even when empty. <br>• Empty delimiter: `ValueError`. <br>• Otherwise: the split pieces with the empty ones removed and the rest kept in order. None of them is empty, and their concatenation equals that of all the pieces. |
| `PromptFiles.LoadedPromptsRejoin` | llmfoundry/utils/prompt_files.py:64-66 | When no split piece is empty, rejoining the loaded prompts with the delimiter gives back the file's contents. |
| `PromptFiles.Expand` | llmfoundry/utils/prompt_files.py:28-33 | An entry without the prefix stands for itself. A prefixed entry is loaded from its file. |
| `PromptFiles.LoadPrompts` | llmfoundry/utils/prompt_files.py:15-34 | A failure comes only from an entry starting with `file::`, and it is a `FileNotFoundError` or the empty-separator `ValueError`. On success, every entry without the prefix appears in the result. |
| `PromptFiles.LoadPromptsSucceedsWithConcatenation` | llmfoundry/utils/prompt_files.py:27-34 | Succeeds iff every entry expands, and then returns the in-order concatenation of the expansions. |
| `PromptFiles.LoadPromptsFailsAtFirstError` | llmfoundry/utils/prompt_files.py:27-34 | A failure carries the error of some entry whose expansion fails, and every entry before that one expands. |
| `PromptFiles.LoadPromptsWithoutFilesIsIdentity` | llmfoundry/utils/prompt_files.py:27-34 | If no entry starts with `file::`, the input comes back unchanged. |
| `LossVsContextLength.ColumnSumClosedForm` | llmfoundry/callbacks/eval_loss_v_context_length_callback.py:16-20 | Summing `(cumsum − 1)·onehot` over the ids below `n` gives the number of earlier tokens with the same id when that id is in `[0, n)`, and 0 otherwise. |
| `LossVsContextLength.TokIds` | llmfoundry/callbacks/eval_loss_v_context_length_callback.py:16-20 | `tok_ids[j]` is the number of earlier tokens in the row with the same id when that id is in `[0, L)`, and 0 otherwise (e.g. padding -1). Every value lies in `[0, L)`. |
| `LossVsContextLength.BatchTokIds` | llmfoundry/callbacks/eval_loss_v_context_length_callback.py:16-20 | `tok_ids` for the whole [B, L] batch: one row per batch row, each row the per-token position within its sequence given by `TokIds`, with the row's length unchanged. |
| `LossVsContextLength.TokensAtPositionAreSequencesReachingIt` | llmfoundry/callbacks/eval_loss_v_context_length_callback.py:16-30 | In one row, the number of tokens at position `i` equals the number of sequence ids with more than `i` tokens. At position 0 it also includes the tokens whose id is outside `[0, L)`. |
| `LossVsContextLength.PositionCountsCoverBatch` | llmfoundry/callbacks/eval_loss_v_context_length_callback.py:21-30 | The per-position counts added for a [B, L] batch total exactly B·L. |
| `LossVsContextLength.AccumulateLengths` | llmfoundry/callbacks/eval_loss_v_context_length_callback.py:28-30 | For an accumulator of length L, position `i` grows by the number of tokens at position `i` in the batch. |
| `LossVsContextLength.AccumulatePerp` | llmfoundry/callbacks/eval_loss_v_context_length_callback.py:24-27 | For an accumulator of length L, position `i` grows by the sum of the perplexities of the tokens at position `i` in the batch. |
| `LossVsContextLength.Increments` | llmfoundry/callbacks/eval_loss_v_context_length_callback.py:21-30 | The two per-position increments of a [B, L] batch, both of length L. At position `i`, the perplexity increment is the sum of the perplexities of the tokens at position `i`, and the length increment is the number of those tokens. |
| `LossVsContextLength.StoreSums` | llmfoundry/callbacks/eval_loss_v_context_length_callback.py:25-30 | The two additions `sum_perp + …` and `sum_length + …`. They fail with `RuntimeError` exactly when either accumulator cannot be broadcast against its increment. Otherwise each stored sum has the broadcast length, and element `i` is the accumulator's element plus the increment's element. A length-1 operand contributes its only element. |
| `LossVsContextLength.Broadcast` | llmfoundry/callbacks/eval_loss_v_context_length_callback.py:25-30 | Torch's elementwise broadcasting of two vectors. It succeeds exactly when the lengths are equal or either length is 1; otherwise it raises `RuntimeError`. When one operand has length 1, the result has the other's length (possibly 0); otherwise it has the common length. Element `i` pairs `a[i]` with `b[i]`, and a length-1 operand contributes its only element at every position. |
| `LossVsContextLength.BroadcastIsSymmetric` | llmfoundry/callbacks/eval_loss_v_context_length_callback.py:25-30 | Broadcasting is symmetric: swapping the operands succeeds under the same condition and gives the same pairs, swapped. |
| `LossVsContextLength.Average` | llmfoundry/callbacks/eval_loss_v_context_length_callback.py:38-40 | The average times the count gives back the perplexity sum when the count is non-zero. It is −1 when the count is zero. |
| `LossVsContextLength.Table` | llmfoundry/callbacks/eval_loss_v_context_length_callback.py:38-41 | The table raises `RuntimeError` exactly when the two stored sums cannot be broadcast together. Otherwise row `i` is `(i, avg_i)`, where `avg_i` is the average of the broadcast sums at `i` (−1 where the count is 0). Rows are in increasing order of `i`. |
| `LossVsContextLength.EvalBatchEnd` | llmfoundry/callbacks/eval_loss_v_context_length_callback.py:12-41 | Fails with `RuntimeError` exactly when the perplexity does not have the batch's shape [B, L], or an accumulator cannot be broadcast against a length-L vector. Each accumulator must have length L or 1, unless L is 1. On success: <br>• Each stored sum has the broadcast length: L for a length-1 accumulator, otherwise the accumulator's own length. <br>• Stored element `i` is the old value plus the count, or plus the perplexity sum, of the tokens at that position. Either operand's only element is used when its length is 1. <br>• The sentinel never reaches the stored sums. <br>• The table is the averaged table of the stored sums. |
| `LossVsContextLength.EvalBatchEndAccumulates` | llmfoundry/callbacks/eval_loss_v_context_length_callback.py:24-35 | When both accumulators have length L, the call succeeds and stores exactly the per-position sums: the old value plus the batch's count, or perplexity sum, at each position. |
| `LossVsContextLength.LengthGrowthIsBatchSize` | llmfoundry/callbacks/eval_loss_v_context_length_callback.py:21-30 | Over one [B, L] batch, the total of the length accumulator across all positions grows by exactly B·L. |
| `LossVsContextLength.PerplexityIsConserved` | llmfoundry/callbacks/eval_loss_v_context_length_callback.py:21-27 | Over one batch, the total of the perplexity accumulator across all positions grows by exactly the batch's total perplexity. Every token's perplexity is added at exactly one position. |

## Left out

- `SoftcapScoreMod`: its score function uses `tanh`, which is transcendental floating-point arithmetic.
- Registry decorators (`flex_attention_mods.register`): registration has no effect on the modifiers' behaviour.
- `compiled_create_block_mask` and the attention kernel are external. The model stops at the request handed to the builder. For an empty mask list, that request carries no mask function, and what the builder does with it is not modelled.
- `and_masks` is modelled only by its semantics. It evaluates the operands in order and conjoins them, and the first error propagates.
- Tensor-valued indices: the kernel calls the modifiers on index tensors. The model evaluates one scalar index tuple at a time, with non-negative indices, so negative (wrap-around) indexing does not arise.
- Filesystem I/O and `os.path.expanduser`: files are a map from path to contents, and home-directory expansion is treated as the identity.
- wandb (`Table`, `plot.scatter`, `log`), the Composer `State` and `Logger`, and the metric object's `compute()` and `reset()` are external. The accumulators are explicit input and output state. The table rows are the returned data. The logging step number is not modelled.
- The metric's initial accumulator values are not part of this model. A 0-dimensional tensor broadcasts the same way as a length-1 vector, so it is represented as one.
- LossVsContextLength.EvalBatchEnd: the per-token perplexities are given with the batch's shape [B, L]. Any other shape is treated as a `view` failure. `view` would also reshape a tensor of a different shape with B·L elements, and that case is not modelled.
- Floating-point rounding: perplexities and averages are real numbers, and the integer counts are unbounded (no int64 overflow).
- Attention scores and ALiBi slopes are real numbers too, with no floating-point rounding.
- FlexAttention.AlibiChainClosedForm: holds in exact arithmetic only. Each `score + bias` in the kernel rounds, so two chained ALiBi modifiers need not equal one modifier with the summed slope.
- The filesystem map holds each file's text as `f.read()` returns it in text mode: already decoded, with universal newlines translating `\r\n` and `\r` into `\n`. Decoding and newline translation are not modelled. If the map held the raw bytes instead, a delimiter containing `\r` could split in the model where it never matches the translated text.
- tests/data/test_template_tokenization.py: it exercises a chat-template tokenizer whose implementation is not part of this model.
