/**
 * The `imgbeddings` class: the patch-size check of `__post_init__` and the
 * entry point `to_embeddings`, which normalises its input, picks the
 * single-batch or the chunked path and hands each batch to the reducer.
 *
 * The pretrained model and processor are not modelled. `to_embeddings`
 * takes them as one function `encode` from a batch of images to the
 * encoder's hidden states and attentions for that batch.
 */
module Imgbeddings {
  import opened Wrappers
  import opened Tensors
  import opened Reducer
  import opened Chunking

  /** The patch sizes with a published checkpoint (line 21). */
  const PatchSizes: seq<int> := [14, 16, 32]

  /** The embedder; of its fields only the patch size is modelled. */
  datatype Embedder = Embedder(patchSize: int)

  /** The failed assertion of line 22, whose message lists the accepted sizes. */
  datatype ConfigError = PatchSizeNotIn(allowed: seq<int>)

  /** Construction, lines 16-22: the assertion on the patch size, which defaults to 32. */
  function Create(patchSize: int := 32): (r: Result<Embedder, ConfigError>)
    ensures r.Ok? <==> patchSize == 14 || patchSize == 16 || patchSize == 32
    ensures r.Ok? ==> r.value.patchSize == patchSize
    ensures r.Err? ==> r.error.allowed == [14, 16, 32]
  {
    if patchSize in PatchSizes then Ok(Embedder(patchSize)) else Err(PatchSizeNotIn(PatchSizes))
  }

  /** What `to_embeddings` accepts: a single image, or a list of images. */
  datatype Inputs<Image> = Single(image: Image) | List(images: seq<Image>)

  /** Lines 36-37: an input that is not a list becomes a one-element list. */
  function AsList<Image>(inputs: Inputs<Image>): (r: seq<Image>)
    ensures inputs.Single? ==> r == [inputs.image]
    ensures inputs.List? ==> r == inputs.images
  {
    match inputs
    case Single(image) => [image]
    case List(images) => images
  }

  /** Line 40: the single-batch path is taken exactly when there are fewer images than `batch_size`. */
  predicate UsesSingleBatch(count: nat, batchSize: int): (b: bool)
    ensures b ==> batchSize >= 1 && batchSize > count
    ensures !b ==> count >= batchSize
  {
    count < batchSize
  }

  /** What the encoder returns for a batch (lines 78-80). */
  datatype EncoderOutput = EncoderOutput(hidden: HiddenStates, attentions: Attentions)

  /** `return_format`: "np", or anything else (a tensor is returned). */
  datatype Format = Numpy | Tensor

  datatype EmbedError =
    | Reduction(cause: ReduceError)  // the reducer failed on a batch
    | StepIsZero                       // `batch_size` 0: `range` refuses a zero step
    | NothingToStack                 // no batch was reduced: `np.vstack([])` raises
    | NoNumpyMethod                  // `.numpy()` called on a numpy array (line 66)

  /** Lines 41-42: the embeddings of one batch. */
  function BatchEmbeddings<Image>(encode: seq<Image> -> EncoderOutput, items: seq<Image>, numLayers: int)
    : (r: Result<Matrix, EmbedError>)
    ensures r.Ok? <==> Reduce(encode(items).hidden, encode(items).attentions, numLayers).Ok?
    ensures r.Ok? ==> IsMatrix(r.value, encode(items).hidden.batch, encode(items).hidden.features)
    ensures r.Err? ==> r.error.Reduction?
  {
    var out := encode(items);
    match Reduce(out.hidden, out.attentions, numLayers)
    case Ok(m) => Ok(m)
    case Err(e) => Err(Reduction(e))
  }

  /** The reduction of every batch, in order, stopping at the first that fails. */
  function ChunkResults<Image>(encode: seq<Image> -> EncoderOutput, chunks: seq<seq<Image>>, numLayers: int)
    : (r: Result<seq<Matrix>, ReduceError>)
    ensures r.Ok? ==> |r.value| == |chunks|
    ensures r.Err? ==> |chunks| >= 1
    decreases |chunks|
  {
    if |chunks| == 0 then Ok([])
    else
      var out := encode(chunks[0]);
      match Reduce(out.hidden, out.attentions, numLayers)
      case Err(e) => Err(e)
      case Ok(m) =>
        match ChunkResults(encode, chunks[1..], numLayers)
        case Err(e) => Err(e)
        case Ok(ms) => Ok([m] + ms)
  }

  /** The batches the loop of line 58 visits, for a non-zero `batch_size`. */
  function ChunksOf<Image>(items: seq<Image>, batchSize: int): seq<seq<Image>>
    requires batchSize != 0
  {
    if batchSize < 0 then [] else Chunks(items, batchSize)
  }

  /**
   * Lines 35-68 as written. On the chunked path line 60 rebinds
   * `embeddings` to each batch's result, so only the last batch survives,
   * and with `return_format` "np" line 66 calls `.numpy()` on the numpy
   * array that `np.vstack` returned, which raises.
   */
  function EmbeddingsAsWritten<Image>(encode: seq<Image> -> EncoderOutput, inputs: Inputs<Image>,
                                      numLayers: int := 3, batchSize: int := 64, format: Format := Numpy)
    : (r: Result<Matrix, EmbedError>)
    ensures |AsList(inputs)| < batchSize ==> r == BatchEmbeddings(encode, AsList(inputs), numLayers)
    ensures batchSize == 0 ==> r == Err(StepIsZero)
    ensures batchSize < 0 ==> r == Err(NothingToStack)
    ensures |AsList(inputs)| >= batchSize && format == Numpy ==> r.Err?
  {
    var items := AsList(inputs);
    if UsesSingleBatch(|items|, batchSize) then BatchEmbeddings(encode, items, numLayers)
    else if batchSize == 0 then Err(StepIsZero)
    else
      match ChunkResults(encode, ChunksOf(items, batchSize), numLayers)
      case Err(e) => Err(Reduction(e))
      case Ok(ms) =>
        if |ms| == 0 then Err(NothingToStack)
        else if format == Numpy then Err(NoNumpyMethod)
        else Ok(ms[|ms| - 1])
  }

  /**
   * Lines 35-68 with the chunked path accumulating: each batch's rows are
   * appended and the batches stacked in order. The return format only
   * changes the container, so it does not appear.
   */
  function Embeddings<Image>(encode: seq<Image> -> EncoderOutput, inputs: Inputs<Image>,
                             numLayers: int := 3, batchSize: int := 64)
    : (r: Result<Matrix, EmbedError>)
    ensures |AsList(inputs)| < batchSize ==> r == BatchEmbeddings(encode, AsList(inputs), numLayers)
    ensures batchSize == 0 ==> r == Err(StepIsZero)
    ensures batchSize < 0 ==> r == Err(NothingToStack)
    ensures r.Err? ==> r.error != NoNumpyMethod
  {
    var items := AsList(inputs);
    if UsesSingleBatch(|items|, batchSize) then BatchEmbeddings(encode, items, numLayers)
    else if batchSize == 0 then Err(StepIsZero)
    else
      match ChunkResults(encode, ChunksOf(items, batchSize), numLayers)
      case Err(e) => Err(Reduction(e))
      case Ok(ms) => if |ms| == 0 then Err(NothingToStack) else Ok(Flatten(ms))
  }

  /** Results computed so far in front of the results still to come. */
  function Prepend(done: seq<Matrix>, rest: Result<seq<Matrix>, ReduceError>): Result<seq<Matrix>, ReduceError>
  {
    match rest
    case Err(e) => Err(e)
    case Ok(ms) => Ok(done + ms)
  }

  lemma PrependNothing(rest: Result<seq<Matrix>, ReduceError>)
    ensures Prepend([], rest) == rest
  {
    match rest
    case Err(e) =>
    case Ok(ms) => assert [] + ms == ms;
  }

  lemma ChunkResultsStep<Image>(encode: seq<Image> -> EncoderOutput, chunks: seq<seq<Image>>, numLayers: int,
                                j: nat, done: seq<Matrix>, m: Matrix)
    requires j < |chunks|
    requires Reduce(encode(chunks[j]).hidden, encode(chunks[j]).attentions, numLayers) == Ok(m)
    ensures Prepend(done, ChunkResults(encode, chunks[j..], numLayers))
         == Prepend(done + [m], ChunkResults(encode, chunks[j + 1..], numLayers))
  {
    assert chunks[j..][1..] == chunks[j + 1..];
    match ChunkResults(encode, chunks[j + 1..], numLayers)
    case Err(e) =>
    case Ok(ms) =>
      assert done + ([m] + ms) == (done + [m]) + ms;
  }

  /**
   * The loop of lines 58-61 as written: every batch reduced in turn, with
   * `embeddings` rebound to each result, so that only the last survives.
   */
  method ReduceEachKeepingLast<Image>(encode: seq<Image> -> EncoderOutput, chunks: seq<seq<Image>>, numLayers: int)
    returns (r: Result<Option<Matrix>, ReduceError>)
    ensures ChunkResults(encode, chunks, numLayers).Err? ==> r == Err(ChunkResults(encode, chunks, numLayers).error)
    ensures ChunkResults(encode, chunks, numLayers).Ok? ==>
      r == Ok(if |chunks| == 0 then None else Some(ChunkResults(encode, chunks, numLayers).value[|chunks| - 1]))
  {
    var embeddings: Option<Matrix> := None;  // `embeddings = []`
    ghost var done: seq<Matrix> := [];
    var j := 0;
    assert chunks[j..] == chunks;
    PrependNothing(ChunkResults(encode, chunks, numLayers));
    while j < |chunks|
      invariant 0 <= j <= |chunks| && |done| == j
      invariant ChunkResults(encode, chunks, numLayers) == Prepend(done, ChunkResults(encode, chunks[j..], numLayers))
      invariant embeddings == if j == 0 then None else Some(done[j - 1])
    {
      var out := encode(chunks[j]);
      var e := CreateEmbeddings(out.hidden, out.attentions, numLayers);
      if e.Err? {
        assert chunks[j..][0] == chunks[j];
        return Err(e.error);
      }
      ChunkResultsStep(encode, chunks, numLayers, j, done, e.value);
      embeddings := Some(e.value);  // line 60 rebinds instead of appending
      done := done + [e.value];
      j := j + 1;
    }
    assert chunks[j..] == [];
    assert done + [] == done;
    return Ok(embeddings);
  }

  /** `to_embeddings`, lines 35-68, as written. */
  method ToEmbeddingsAsWritten<Image>(encode: seq<Image> -> EncoderOutput, inputs: Inputs<Image>,
                                      numLayers: int := 3, batchSize: int := 64, format: Format := Numpy)
    returns (r: Result<Matrix, EmbedError>)
    ensures r == EmbeddingsAsWritten(encode, inputs, numLayers, batchSize, format)
  {
    var items := AsList(inputs);
    if |items| < batchSize {
      var out := encode(items);
      var e := CreateEmbeddings(out.hidden, out.attentions, numLayers);
      r := if e.Ok? then Ok(e.value) else Err(Reduction(e.error));
      return;
    }
    var batches := Batch(items, batchSize);
    if batches.Err? {
      return Err(StepIsZero);
    }
    assert batches.value == ChunksOf(items, batchSize);
    ghost var results := ChunkResults(encode, batches.value, numLayers);
    ghost var expected := EmbeddingsAsWritten(encode, inputs, numLayers, batchSize, format);
    assert expected == match results
      case Err(e) => Err(Reduction(e))
      case Ok(ms) =>
        if |ms| == 0 then Err(NothingToStack)
        else if format == Numpy then Err(NoNumpyMethod)
        else Ok(ms[|ms| - 1]);
    var last := ReduceEachKeepingLast(encode, batches.value, numLayers);
    if last.Err? {
      return Err(Reduction(last.error));
    }
    if last.value.None? {
      return Err(NothingToStack);
    }
    if format == Numpy {
      return Err(NoNumpyMethod);
    }
    return Ok(last.value.value);
  }

  /** The loop of lines 58-61 with each batch's result appended: `ChunkResults`, computed in order. */
  method ReduceEach<Image>(encode: seq<Image> -> EncoderOutput, chunks: seq<seq<Image>>, numLayers: int)
    returns (r: Result<seq<Matrix>, ReduceError>)
    ensures r == ChunkResults(encode, chunks, numLayers)
  {
    var embeddings: seq<Matrix> := [];
    var j := 0;
    assert chunks[j..] == chunks;
    PrependNothing(ChunkResults(encode, chunks, numLayers));
    while j < |chunks|
      invariant 0 <= j <= |chunks| && |embeddings| == j
      invariant ChunkResults(encode, chunks, numLayers) == Prepend(embeddings, ChunkResults(encode, chunks[j..], numLayers))
    {
      var out := encode(chunks[j]);
      var e := CreateEmbeddings(out.hidden, out.attentions, numLayers);
      if e.Err? {
        assert chunks[j..][0] == chunks[j];
        return Err(e.error);
      }
      ChunkResultsStep(encode, chunks, numLayers, j, embeddings, e.value);
      embeddings := embeddings + [e.value];
      j := j + 1;
    }
    assert chunks[j..] == [];
    assert embeddings + [] == embeddings;
    return Ok(embeddings);
  }

  /** `to_embeddings`, lines 35-68, with each batch's rows appended. */
  method ToEmbeddings<Image>(encode: seq<Image> -> EncoderOutput, inputs: Inputs<Image>,
                             numLayers: int := 3, batchSize: int := 64)
    returns (r: Result<Matrix, EmbedError>)
    ensures r == Embeddings(encode, inputs, numLayers, batchSize)
  {
    var items := AsList(inputs);
    if |items| < batchSize {
      var out := encode(items);
      var e := CreateEmbeddings(out.hidden, out.attentions, numLayers);
      r := if e.Ok? then Ok(e.value) else Err(Reduction(e.error));
      return;
    }
    var batches := Batch(items, batchSize);
    if batches.Err? {
      return Err(StepIsZero);
    }
    assert batches.value == ChunksOf(items, batchSize);
    var all := ReduceEach(encode, batches.value, numLayers);
    if all.Err? {
      return Err(Reduction(all.error));
    }
    if |all.value| == 0 {
      return Err(NothingToStack);
    }
    return Ok(Flatten(all.value));
  }
}
