# imgbeddings in Dafny

A model of the `imgbeddings` embedder (`imgbeddings/imgbeddings.py`). It turns
images into fixed-length vectors by reading the hidden states and attentions
of the last `num_layers` layers of a CLIP vision transformer:

- the hidden states of those layers are summed;
- the attention each key token receives is averaged over the layers, heads
  and query tokens;
- the class token's weight is set to zero, and each image's weights are
  divided by their sum;
- each image's embedding is the weighted sum of its token vectors.

Around this reducer sit three smaller parts:

- the patch-size check of the constructor;
- the `batch` generator that cuts a list into slices;
- `to_embeddings`, which wraps a single image into a list and picks the
  single-batch or the chunked path.

Modules:

- `Tensors` (`tensors.dfy`): vectors and tensors as nested sequences of
  reals, their shape predicates, and `Sum` with its algebra.
- `Reducer` (`reducer.dfy`): `create_embeddings` after the forward pass. It
  is the pure function `Reduce` plus the method `CreateEmbeddings`, which
  clears the class-token column in place in a two-dimensional array, as line
  94 does to the tensor that `attentions_reduced` and `attentions_reweighted`
  share.
- `ReducerProperties` (`reducer_properties.dfy`): a per-image reference
  reduction and the reducer's promises. Rows are independent, the weights
  form a distribution, hidden states are summed and attention averaged, and
  the class token is ignored. It ends with a worked example.
- `Chunking` (`chunking.dfy`): the `batch` generator, as the function
  `Chunks` and the loop `Batch`.
- `Imgbeddings` (`imgbeddings.dfy`): the constructor's check and
  `to_embeddings`, both as written and corrected (see Findings).
- `ImgbeddingsProperties` (`imgbeddings_properties.dfy`): one row per image,
  chunking invariance for an encoder that treats images independently, and
  the two defects of the chunked path as written.

Arithmetic is exact, over `real`. Where the original raises an exception or
produces NaN, the model returns an error value:

| error | cause |
|---|---|
| `ShapeMismatch` | ragged tensors, or the two stacks disagree on batch or token count |
| `LayerWindowOutOfRange` | `num_layers < 1` stacks an empty list; a window deeper than a stack indexes out of range |
| `NoClassToken` | there is no token 0 to clear |
| `NoHeads` | the mean is taken over an empty head axis |
| `DegenerateWeights` | an image's patch-token weights sum to zero, which is NaN in the original |

The encoder is a parameter: `encode` maps a batch of images to its hidden
states and attentions.

The original's default arguments are Dafny default parameter values:

- `Create` takes `patchSize := 32`;
- `EmbeddingsAsWritten` and `ToEmbeddingsAsWritten` take `numLayers := 3`,
  `batchSize := 64` and `format := Numpy`, that is `return_format="np"`;
- `Embeddings` and `ToEmbeddings` take the same `numLayers` and `batchSize`
  defaults. They have no format parameter, because on the corrected path the
  format only changes the container.

## Model

| member | source | states |
|---|---|---|
| Imgbeddings.Create | imgbeddings/imgbeddings.py:16-22 | construction, with patch size 32 by default, succeeds exactly when the patch size is 14, 16 or 32 and keeps that patch size; otherwise it fails with an error listing the allowed sizes [14, 16, 32] |
| Reducer.Window | imgbeddings/imgbeddings.py:83-86 | the window has exactly `k` layers, and its entry `j` is layer `len - k + j`: Python's indices `-k .. -1` in order |
| Reducer.Precheck | imgbeddings/imgbeddings.py:82-99 | the reduction may start exactly when both stacks are well formed, `1 <= num_layers`, the window fits in both stacks, they agree on batch and token counts, and there is at least one token and one head. A window that does not fit the hidden stack is reported as `LayerWindowOutOfRange` before any shape is looked at, as is a well-formed hidden stack whose window does not fit the attention stack. `LayerWindowOutOfRange` is reported only when the window does not fit, `NoClassToken` only when there are no tokens, and `NoHeads` only when there are no heads. `DegenerateWeights` is never reported here |
| Reducer.LayerSum | imgbeddings/imgbeddings.py:82-84 | the sum over a window keeps the (batch, tokens, features) shape |
| Reducer.HiddenSum | imgbeddings/imgbeddings.py:82-84 | the summed hidden states of the last `k` layers keep the (batch, tokens, features) shape |
| ReducerProperties.HiddenSumEmpty | imgbeddings/imgbeddings.py:82-84 | an empty window sums to zero in every entry |
| ReducerProperties.HiddenSumPeel | imgbeddings/imgbeddings.py:82-84 | every entry of the sum over the last `k` layers is layer `-k`'s entry plus the sum over the last `k - 1`, so the reduction is the element-wise sum of layers `-k .. -1` |
| ReducerProperties.HiddenSumOfEqualLayers | imgbeddings/imgbeddings.py:82-84 | `k` equal layers sum to `k` times that layer: the layers are summed, not averaged |
| Reducer.MeanAttention | imgbeddings/imgbeddings.py:86-90 | the mean over layers, heads and query tokens gives one weight per (image, key token) |
| Reducer.Reduced | imgbeddings/imgbeddings.py:86-90 | the averaged attention of the window is a batch × tokens matrix |
| ReducerProperties.MeanOfConstantAttention | imgbeddings/imgbeddings.py:86-90 | a consistency check: if every layer, head and query token in the window gives key token `t` the same attention `c`, its averaged weight is `c`, so the result is divided by the count of entries and not summed |
| ReducerProperties.MeanPointChange | imgbeddings/imgbeddings.py:86-90 | changing one attention entry (layer `l`, image `i`, head `h`, query `q`, key `t`) by `delta` changes the averaged weight of (`i`, `t`) by `delta / (k * heads * tokens)` when layer `l` is in the window. Every other (image, key) weight stays the same, and when `l` lies outside the window nothing changes. So every entry in the window counts equally, with weight one over the entry count, and entries outside the window do not count |
| Reducer.ClassTokenZeroed | imgbeddings/imgbeddings.py:94 | the result has the same shape, entry 0 of every row is 0.0, and every other entry is unchanged |
| Reducer.ZeroClassToken | imgbeddings/imgbeddings.py:94 | in place, the array's new contents are its old rows with entry 0 set to 0.0, and nothing else changes |
| Reducer.Normalize | imgbeddings/imgbeddings.py:95-97 | dividing a vector with a non-zero sum by that sum keeps its length, scales each entry `t` so that it times the old sum is the old entry, and gives entries that sum to 1 |
| Reducer.NormalizeRows | imgbeddings/imgbeddings.py:95-97 | normalising the rows fails exactly when some row sums to zero, with `DegenerateWeights`. Otherwise every row keeps its length and sums to 1, and each entry times its old row's sum is the old entry |
| Reducer.Weights | imgbeddings/imgbeddings.py:86-97 | the weights fail only with `DegenerateWeights`; on success they are a batch × tokens matrix whose rows have class-token weight 0 and sum to 1 |
| ReducerProperties.WeightsDistribution | imgbeddings/imgbeddings.py:91-97 | the weights fail exactly when some image's patch-token attention sums to zero; otherwise every image's class-token weight is 0 and its weights sum to 1 |
| ReducerProperties.WeightsNonNegative | imgbeddings/imgbeddings.py:91-97 | non-negative attention gives non-negative weights |
| Reducer.Combine | imgbeddings/imgbeddings.py:99-100 | one image's weighted token sum has one entry per feature |
| ReducerProperties.CombineWeightChange | imgbeddings/imgbeddings.py:99-100 | raising token `t`'s weight by `delta` raises every feature `d` of the weighted sum by `delta * h[t][d]`: the sum is linear in each weight |
| ReducerProperties.CombineHiddenChange | imgbeddings/imgbeddings.py:99-100 | raising feature `d` of token `t`'s hidden vector by `delta` raises feature `d` of the weighted sum by `w[t] * delta` and leaves every other feature unchanged |
| ReducerProperties.CombineUniform | imgbeddings/imgbeddings.py:99-100 | with class weight 0 and weights summing to 1, patch tokens that all carry the same vector `v` combine to `v` |
| Reducer.WeightedTokenSum | imgbeddings/imgbeddings.py:99-100 | the weighted token sums form a batch × features matrix |
| Reducer.Reduce | imgbeddings/imgbeddings.py:82-100 | a successful reduction has one row of `features` entries per image, and happens only when the window and shape checks pass |
| Reducer.CreateEmbeddings | imgbeddings/imgbeddings.py:76-100 | the method, which clears the class token in place, returns exactly the result of `Reduce` |
| ReducerProperties.ImageOf | imgbeddings/imgbeddings.py:82-100 | one image's slice of both stacks has their depths and that image's per-layer shapes |
| ReducerProperties.ReduceImage | imgbeddings/imgbeddings.py:82-100 | the reduction of a single image has one entry per feature and can fail only on degenerate weights |
| ReducerProperties.HiddenRowOfBatch | imgbeddings/imgbeddings.py:82-84 | image `i`'s row of the batched layer sum is the layer sum of image `i` alone |
| ReducerProperties.WeightRowOfBatch | imgbeddings/imgbeddings.py:86-94 | image `i`'s row of the batched, class-cleared weights is computed from image `i` alone |
| ReducerProperties.ReduceRowwise | imgbeddings/imgbeddings.py:82-100 | a batch reduces exactly when each image reduces alone, and row `i` of the result is image `i`'s own embedding |
| ReducerProperties.ImagesIndependent | imgbeddings/imgbeddings.py:99-100 | an image with the same activations gets the same row in any two batches, at any positions |
| ReducerProperties.UniformPatchTokens | imgbeddings/imgbeddings.py:95-100 | if every patch token of an image carries the same summed vector `v`, its embedding is `v`, so the weights form a weighted average |
| ReducerProperties.ClassTokenHiddenIgnored | imgbeddings/imgbeddings.py:93-100 | hidden stacks that differ only at the class token give the same result |
| ReducerProperties.ExampleWeights | imgbeddings/imgbeddings.py:86-97 | attention 0.5, 0.3, 0.2 on the keys becomes weights 0, 0.6, 0.4 |
| ReducerProperties.ExampleHiddenSum | imgbeddings/imgbeddings.py:82-84 | a one-layer window sums to that layer |
| ReducerProperties.ExampleCombine | imgbeddings/imgbeddings.py:99-100 | weights 0, 0.6, 0.4 over tokens [1,1,1,1], [2,0,0,0] and [0,2,0,0] give [1.2, 0.8, 0, 0] |
| ReducerProperties.WorkedExample | imgbeddings/imgbeddings.py:82-100 | the full reduction of that example is [[1.2, 0.8, 0, 0]] |
| Chunking.Chunks | imgbeddings/imgbeddings.py:51-54 | the slices are empty exactly when the input is, and there are never more slices than items |
| Chunking.FlattenChunks | imgbeddings/imgbeddings.py:51-54 | the slices, concatenated in order, give back the input: nothing is dropped, repeated or reordered |
| Chunking.ChunkSizes | imgbeddings/imgbeddings.py:52-54 | every slice holds between 1 and `n` items, and all but the last hold exactly `n` |
| Chunking.ChunkCount | imgbeddings/imgbeddings.py:52-54 | an empty input yields no slices, and otherwise the slice count `c` satisfies `(c - 1) * n < len <= c * n` |
| Chunking.CeilingCount | imgbeddings/imgbeddings.py:52-54 | the slice count is `(len + n - 1) / n`, the ceiling of `len / n` |
| Chunking.ChunkAt | imgbeddings/imgbeddings.py:53-54 | slice `j` starts at `j * n < len` and is `s[j*n : min(j*n + n, len)]` |
| Chunking.Batch | imgbeddings/imgbeddings.py:51-54 | the loop over `ndx` fails on a zero step, yields nothing for a negative step, and otherwise collects exactly the slices `Chunks` describes |
| Imgbeddings.AsList | imgbeddings/imgbeddings.py:36-37 | a single image becomes a one-element list, and a list is kept as it is |
| Imgbeddings.UsesSingleBatch | imgbeddings/imgbeddings.py:40 | the single-batch path is taken only for a positive `batch_size` larger than the image count; otherwise the count is at least `batch_size` |
| Imgbeddings.BatchEmbeddings | imgbeddings/imgbeddings.py:41-46 | one batch's embeddings exist exactly when its reduction succeeds. They then have one row of `features` entries per image of the encoder's batch, and a failure is a reduction error |
| Imgbeddings.ChunkResults | imgbeddings/imgbeddings.py:58-60 | reducing the batches in turn gives one result per batch, and it can fail only when there is at least one batch |
| ImgbeddingsProperties.ChunkResultsByBatch | imgbeddings/imgbeddings.py:58-60 | the batches reduce together exactly when each batch reduces, and result `j` is batch `j`'s reduction. A failure is the error of the first batch that fails, and every earlier batch reduced |
| Imgbeddings.EmbeddingsAsWritten | imgbeddings/imgbeddings.py:35-68 | as written, with defaults `num_layers=3`, `batch_size=64` and `return_format="np"`: fewer images than `batch_size` gives the single batch's embeddings; a zero `batch_size` fails on the zero step; a negative one leaves nothing to stack; and with the default format, any call that takes the other path fails |
| Imgbeddings.Embeddings | imgbeddings/imgbeddings.py:35-68 | corrected, with the same defaults: the same single-batch, zero-step and negative-step cases as written, and it never fails on `.numpy()` |
| Imgbeddings.ReduceEachKeepingLast | imgbeddings/imgbeddings.py:56-62 | the loop that rebinds `embeddings` fails with the error of the batch results exactly when they fail. Otherwise it holds nothing when there are no batches and the last batch's result when there are some |
| Imgbeddings.ReduceEach | imgbeddings/imgbeddings.py:56-62 | the loop that keeps every batch's result returns exactly the batch results `ChunkResults` describes |
| Imgbeddings.ToEmbeddingsAsWritten | imgbeddings/imgbeddings.py:35-68 | the method, with `embeddings` rebound on every batch, returns exactly `EmbeddingsAsWritten` |
| Imgbeddings.ToEmbeddings | imgbeddings/imgbeddings.py:35-68 | the method, appending every batch's rows, returns exactly `Embeddings` |
| ImgbeddingsProperties.SingleImageOneRow | imgbeddings/imgbeddings.py:36-37 | a single image, not in a list, gets exactly one embedding row |
| ImgbeddingsProperties.EmbeddingsOnePerImage | imgbeddings/imgbeddings.py:35-68 | with an encoder that returns one row per image, a successful call returns one row per input image |
| ImgbeddingsProperties.ReduceByImage | imgbeddings/imgbeddings.py:41-42 | with an encoder that treats images independently, the reduction of any batch is the list of its images' own embeddings |
| ImgbeddingsProperties.ChunkingInvariance | imgbeddings/imgbeddings.py:39-68 | with such an encoder, every positive `batch_size` gives the same result, rows or error, as one batch of all the images |
| ImgbeddingsProperties.AsWrittenIsLastChunk | imgbeddings/imgbeddings.py:56-64 | as written, a successful chunked call returns exactly the last batch's embeddings |
| ImgbeddingsProperties.AsWrittenKeepsLastChunk | imgbeddings/imgbeddings.py:56-64 | as written, with more images than `batch_size`, a successful result is the last batch's embeddings alone, with fewer rows than images |
| ImgbeddingsProperties.ToyPerImage | imgbeddings/imgbeddings.py:41-42 | the toy encoder treats images independently, with one layer, one head, two tokens and one feature, so the premise of `ChunkingInvariance` and `ReduceByImage` can be met |
| ImgbeddingsProperties.ToyReduces | imgbeddings/imgbeddings.py:82-100 | a one-layer, one-head encoder output whose queries attend 0.5 to both tokens reduces for every batch |
| ImgbeddingsProperties.ThreeInTwos | imgbeddings/imgbeddings.py:51-54 | three items in slices of two are a full slice and a last slice of one |
| ImgbeddingsProperties.LastChunkCounterexample | imgbeddings/imgbeddings.py:56-64 | as written, three images with `batch_size` 2 give a result with one row |
| ImgbeddingsProperties.AllChunksKept | imgbeddings/imgbeddings.py:56-64 | corrected, the same three images give three rows |
| ImgbeddingsProperties.NumpyCounterexample | imgbeddings/imgbeddings.py:64-66 | as written, the same three images with the default `return_format` fail on `.numpy()`, while the corrected path returns rows |
| ImgbeddingsProperties.AsWrittenNumpyFails | imgbeddings/imgbeddings.py:64-66 | as written, the chunked path with the default `return_format` fails wherever the corrected path returns rows |

## Left out

- Loading the pretrained model and processor (lines 24-33) is not modelled: these are library and network or disk I/O. An `Embedder` holds only its patch size.
- Preprocessing (`process_inputs`, lines 70-74, with `square_pad` from `imgbeddings/utils.py`, which is not part of this model) and the forward pass (lines 77-80) are not modelled. Together they are the `encode` parameter of `to_embeddings`. The reducer takes the two output stacks directly. The properties of `to_embeddings` assume `encode` is a function of the batch, as in `eval` mode under `no_grad`.
- Floating-point rounding is not modelled: arithmetic is exact over `real`. Where division by zero or an empty mean would give NaN, the model returns `DegenerateWeights` or `NoHeads` instead of propagating NaN. This costs more than the NaN itself:
  - In the original, a zero patch-weight sum makes only that image's row NaN. In the model, the whole batch and so the whole call fail. For the same reason `ImagesIndependent` needs both batches to reduce.
  - On the as-written chunked path, the original silently drops an earlier batch's NaN rows. For example, batches [degenerate, good] with `return_format="pt"` return the good batch's rows, while `EmbeddingsAsWritten` returns `Err(Reduction(DegenerateWeights))`.
- Reducer.Precheck: every layer of both stacks must have the declared shape, including layers outside the window that lines 83 and 86 never read. A stack with a malformed layer outside the window is rejected with `ShapeMismatch`, where the original reduces.
- torch's broadcasting of size-1 axes is not modelled: stacks whose batch or token counts differ are rejected with `ShapeMismatch`, even where torch would broadcast.
- Logging and the tqdm progress bar (lines 48, 57, 61, 63) are left out as presentation.
- The conversion between numpy arrays and torch tensors (lines 43-46, 64-68) only changes the container, so it is not modelled. The one exception is the failing `.numpy()` call of line 66, which is modelled as `NoNumpyMethod`.
- Only Python lists count as lists. Any other argument, including a tuple of images, is the `Single` case, as `isinstance(inputs, list)` decides.
- `batch_size` and `num_layers` are integers; other Python values are not modelled.
- Reducer.LayerSum, Reducer.HiddenSum, Reducer.MeanAttention, Reducer.Reduced, Reducer.Combine and Reducer.WeightedTokenSum: their own contracts state only shapes. Their values are described by separate lemmas, each covering one aspect and none giving a closed form:
  - `HiddenSumPeel` states the layer sum entry by entry.
  - `MeanPointChange` states how much each attention entry contributes to the mean, and `MeanOfConstantAttention` states the value at constant attention.
  - `CombineWeightChange` and `CombineHiddenChange` state that the weighted sum is linear in each weight and in each hidden entry.
  - `CombineUniform` and `UniformPatchTokens` state the value when all patch tokens carry the same vector.
  - `ReduceRowwise` and `WorkedExample` cover the whole reduction.

## Findings

The chunked path of `to_embeddings` is modelled as written, as `EmbeddingsAsWritten` and `ToEmbeddingsAsWritten`. It is also modelled corrected, as `Embeddings` and `ToEmbeddings`, which the properties of one row per image and chunking invariance are about.

| source | as written | input that shows it | evidently intended | confidence | as-written member | corrected member |
|---|---|---|---|---|---|---|
| imgbeddings/imgbeddings.py:56-64 | line 60 rebinds `embeddings` to each batch's result instead of appending it, so `np.vstack` stacks the last batch only | three images with `batch_size=2`: batches of two and one images, and a result with one row | one row per input image, the batches stacked in input order, the same as a single batch | not executed | ImgbeddingsProperties.LastChunkCounterexample | ImgbeddingsProperties.ChunkingInvariance |
| imgbeddings/imgbeddings.py:64-66 | `np.vstack` returns a numpy array, and line 66 calls `.numpy()` on it, which numpy arrays lack | three images with `batch_size=2` and the default `return_format="np"`. More generally, for a positive `batch_size`, any list of at least `batch_size` images whose batches all reduce fails the same way | return the stacked array itself | not executed | ImgbeddingsProperties.NumpyCounterexample | ImgbeddingsProperties.EmbeddingsOnePerImage |
