/**
 * What `to_embeddings` promises its callers: one embedding row per input
 * image, and the same rows whatever `batch_size` is, for an encoder that
 * treats the images of a batch independently. The as-written chunked
 * path is shown to break both.
 */
module ImgbeddingsProperties {
  import opened Wrappers
  import opened Tensors
  import opened Reducer
  import opened ReducerProperties
  import opened Chunking
  import opened Imgbeddings

  /** The encoder returns one row of hidden states and attentions per image of the batch. */
  ghost predicate RowPerImage<Image(!new)>(encode: seq<Image> -> EncoderOutput) {
    forall c: seq<Image> :: encode(c).hidden.batch == |c|
  }

  /** The dimensions every encoder output shares; only the batch axis follows the input. */
  datatype Shape = Shape(hiddenDepth: nat, attentionDepth: nat, heads: nat, tokens: nat, features: nat)

  predicate Fits(x: ImageActivations, shape: Shape) {
    && |x.hidden| == shape.hiddenDepth && |x.attention| == shape.attentionDepth
    && ImageShaped(x, shape.heads, shape.tokens, shape.features)
  }

  /** `out` has shape `shape`, one row per image of `c`, and image `i`'s row is `one(c[i])`. */
  predicate OutputFor<Image>(out: EncoderOutput, one: Image -> ImageActivations, shape: Shape, c: seq<Image>) {
    && out.hidden.Conforms() && out.attentions.Conforms()
    && out.hidden.batch == |c| && out.attentions.batch == |c|
    && |out.hidden.layers| == shape.hiddenDepth && |out.attentions.layers| == shape.attentionDepth
    && out.hidden.tokens == shape.tokens && out.attentions.tokens == shape.tokens
    && out.hidden.features == shape.features && out.attentions.heads == shape.heads
    && forall i | 0 <= i < |c| :: ImageOf(out.hidden, out.attentions, i) == one(c[i])
  }

  /**
   * The encoder treats the images of a batch independently: every output
   * has the shape `shape` with one row per image, and image `i`'s row is
   * `one(c[i])`, whatever else is in the batch.
   */
  ghost predicate PerImage<Image(!new)>(encode: seq<Image> -> EncoderOutput, one: Image -> ImageActivations, shape: Shape) {
    && (forall img: Image :: Fits(one(img), shape))
    && forall c: seq<Image> :: OutputFor(encode(c), one, shape, c)
  }

  /** The reducer's precondition checks, for outputs of shape `shape`. */
  function ShapeCheck(shape: Shape, numLayers: int): Option<ReduceError> {
    if numLayers < 1 || numLayers > shape.hiddenDepth || numLayers > shape.attentionDepth then Some(LayerWindowOutOfRange)
    else if shape.tokens == 0 then Some(NoClassToken)
    else if shape.heads == 0 then Some(NoHeads)
    else None
  }

  /** One image's embedding, computed from that image alone. */
  function ImageRow<Image(!new)>(one: Image -> ImageActivations, shape: Shape, numLayers: int, img: Image): Result<Vector, ReduceError>
    requires ShapeCheck(shape, numLayers) == None && Fits(one(img), shape)
  {
    ReduceImage(one(img), numLayers as nat, shape.heads, shape.tokens, shape.features)
  }

  /** The embeddings of a list of images, each computed alone, stopping at the first that fails. */
  function ImageRows<Image(!new)>(one: Image -> ImageActivations, shape: Shape, numLayers: int, c: seq<Image>): Result<Matrix, ReduceError>
    requires ShapeCheck(shape, numLayers) == None && forall img: Image :: Fits(one(img), shape)
    decreases |c|
  {
    if |c| == 0 then Ok([])
    else
      match ImageRow(one, shape, numLayers, c[0])
      case Err(e) => Err(e)
      case Ok(v) =>
        match ImageRows(one, shape, numLayers, c[1..])
        case Err(e) => Err(e)
        case Ok(vs) => Ok([v] + vs)
  }

  lemma {:induction false} ImageRowsByIndex<Image(!new)>(one: Image -> ImageActivations, shape: Shape, numLayers: int, c: seq<Image>)
    requires ShapeCheck(shape, numLayers) == None && forall img: Image :: Fits(one(img), shape)
    ensures ImageRows(one, shape, numLayers, c).Ok? <==> forall i | 0 <= i < |c| :: ImageRow(one, shape, numLayers, c[i]).Ok?
    ensures ImageRows(one, shape, numLayers, c).Ok? ==>
      && |ImageRows(one, shape, numLayers, c).value| == |c|
      && forall i | 0 <= i < |c| :: ImageRows(one, shape, numLayers, c).value[i] == ImageRow(one, shape, numLayers, c[i]).value
    ensures ImageRows(one, shape, numLayers, c).Err? ==> ImageRows(one, shape, numLayers, c).error == DegenerateWeights
    decreases |c|
  {
    if |c| > 0 {
      ImageRowsByIndex(one, shape, numLayers, c[1..]);
      if ImageRow(one, shape, numLayers, c[0]).Ok? && ImageRows(one, shape, numLayers, c[1..]).Ok? {
        forall i | 0 <= i < |c|
          ensures ImageRows(one, shape, numLayers, c).value[i] == ImageRow(one, shape, numLayers, c[i]).value
        {
          if i > 0 {
            assert c[1..][i - 1] == c[i];
          }
        }
      } else if ImageRow(one, shape, numLayers, c[0]).Ok? {
        var i :| 0 <= i < |c[1..]| && !ImageRow(one, shape, numLayers, c[1..][i]).Ok?;
        assert c[1..][i] == c[i + 1];
      }
    }
  }

  /** Rows computed for `a + b` are those for `a` followed by those for `b`. */
  function Join(x: Result<Matrix, ReduceError>, y: Result<Matrix, ReduceError>): Result<Matrix, ReduceError> {
    match x
    case Err(e) => Err(e)
    case Ok(a) =>
      match y
      case Err(e) => Err(e)
      case Ok(b) => Ok(a + b)
  }

  lemma {:induction false} ImageRowsAppend<Image(!new)>(one: Image -> ImageActivations, shape: Shape, numLayers: int, a: seq<Image>, b: seq<Image>)
    requires ShapeCheck(shape, numLayers) == None && forall img: Image :: Fits(one(img), shape)
    ensures ImageRows(one, shape, numLayers, a + b) == Join(ImageRows(one, shape, numLayers, a), ImageRows(one, shape, numLayers, b))
    decreases |a|
  {
    if |a| == 0 {
      assert a + b == b;
      match ImageRows(one, shape, numLayers, b)
      case Err(e) =>
      case Ok(vs) => assert [] + vs == vs;
    } else {
      assert (a + b)[0] == a[0];
      assert (a + b)[1..] == a[1..] + b;
      ImageRowsAppend(one, shape, numLayers, a[1..], b);
      match ImageRow(one, shape, numLayers, a[0])
      case Err(e) =>
      case Ok(v) =>
        match ImageRows(one, shape, numLayers, a[1..])
        case Err(e) =>
        case Ok(vs) =>
          match ImageRows(one, shape, numLayers, b)
          case Err(e) =>
          case Ok(ws) => assert [v] + (vs + ws) == ([v] + vs) + ws;
    }
  }

  /** With the window and shape checks passed, the reducer can only fail on a degenerate weight row. */
  lemma ReduceErrorIsDegenerate(hs: HiddenStates, att: Attentions, numLayers: int)
    requires Precheck(hs, att, numLayers) == None && Reduce(hs, att, numLayers).Err?
    ensures Reduce(hs, att, numLayers).error == DegenerateWeights
  {
    assert Weights(att, numLayers as nat).Err?;
  }

  /** A batch reduced by the reducer gives each image's own embedding. */
  lemma ReduceOutput<Image(!new)>(out: EncoderOutput, one: Image -> ImageActivations, shape: Shape, numLayers: int, c: seq<Image>)
    requires OutputFor(out, one, shape, c) && ShapeCheck(shape, numLayers) == None
    requires forall img: Image :: Fits(one(img), shape)
    ensures Reduce(out.hidden, out.attentions, numLayers) == ImageRows(one, shape, numLayers, c)
  {
    var hs, att := out.hidden, out.attentions;
    assert Precheck(hs, att, numLayers) == None;
    ReduceRowwise(hs, att, numLayers);
    ImageRowsByIndex(one, shape, numLayers, c);
    forall i | 0 <= i < |c|
      ensures ReduceImage(ImageOf(hs, att, i), numLayers, att.heads, hs.tokens, hs.features)
           == ImageRow(one, shape, numLayers, c[i])
    {
      assert ImageOf(hs, att, i) == one(c[i]);
    }
    var r := Reduce(hs, att, numLayers);
    if r.Ok? {
      assert forall i | 0 <= i < |c| :: ImageRow(one, shape, numLayers, c[i]).Ok?;
      var rows := ImageRows(one, shape, numLayers, c).value;
      assert |r.value| == |rows|;
      forall i | 0 <= i < |c|
        ensures r.value[i] == rows[i]
      {
        assert r.value[i] == ReduceImage(ImageOf(hs, att, i), numLayers, att.heads, hs.tokens, hs.features).value;
      }
      assert r.value == rows;
    } else {
      ReduceErrorIsDegenerate(hs, att, numLayers);
    }
  }

  lemma ReduceByImage<Image(!new)>(encode: seq<Image> -> EncoderOutput, one: Image -> ImageActivations, shape: Shape,
                                   numLayers: int, c: seq<Image>)
    requires PerImage(encode, one, shape) && ShapeCheck(shape, numLayers) == None
    ensures Reduce(encode(c).hidden, encode(c).attentions, numLayers) == ImageRows(one, shape, numLayers, c)
  {
    assert OutputFor(encode(c), one, shape, c);
    ReduceOutput(encode(c), one, shape, numLayers, c);
  }

  /** The results of a list of batches, stacked. */
  function Stacked(r: Result<seq<Matrix>, ReduceError>): Result<Matrix, ReduceError> {
    match r
    case Err(e) => Err(e)
    case Ok(ms) => Ok(Flatten(ms))
  }

  lemma {:induction false} ChunkResultsByImage<Image(!new)>(encode: seq<Image> -> EncoderOutput, one: Image -> ImageActivations,
                                                      shape: Shape, numLayers: int, cs: seq<seq<Image>>)
    requires PerImage(encode, one, shape) && ShapeCheck(shape, numLayers) == None
    ensures Stacked(ChunkResults(encode, cs, numLayers)) == ImageRows(one, shape, numLayers, Flatten(cs))
    decreases |cs|
  {
    if |cs| > 0 {
      ChunkResultsByImage(encode, one, shape, numLayers, cs[1..]);
      ReduceByImage(encode, one, shape, numLayers, cs[0]);
      ImageRowsAppend(one, shape, numLayers, cs[0], Flatten(cs[1..]));
      match ChunkResults(encode, cs[1..], numLayers)
      case Err(e) =>
      case Ok(ms) =>
        match Reduce(encode(cs[0]).hidden, encode(cs[0]).attentions, numLayers)
        case Err(e) =>
        case Ok(m) => assert ([m] + ms)[1..] == ms;
    }
  }

  /**
   * Lines 58-61 reduce the batches in order: the loop completes exactly when
   * every batch reduces, the results are the batches' reductions in order,
   * and a failure is the first failing batch's.
   */
  lemma {:induction false} ChunkResultsByBatch<Image>(encode: seq<Image> -> EncoderOutput, cs: seq<seq<Image>>, numLayers: int)
    ensures ChunkResults(encode, cs, numLayers).Ok? <==>
      forall j | 0 <= j < |cs| :: Reduce(encode(cs[j]).hidden, encode(cs[j]).attentions, numLayers).Ok?
    ensures ChunkResults(encode, cs, numLayers).Ok? ==> forall j | 0 <= j < |cs| ::
      Reduce(encode(cs[j]).hidden, encode(cs[j]).attentions, numLayers) == Ok(ChunkResults(encode, cs, numLayers).value[j])
    ensures ChunkResults(encode, cs, numLayers).Err? ==> exists j | 0 <= j < |cs| ::
      && Reduce(encode(cs[j]).hidden, encode(cs[j]).attentions, numLayers) == Err(ChunkResults(encode, cs, numLayers).error)
      && forall j' | 0 <= j' < j :: Reduce(encode(cs[j']).hidden, encode(cs[j']).attentions, numLayers).Ok?
    decreases |cs|
  {
    if |cs| > 0 {
      ChunkResultsByBatch(encode, cs[1..], numLayers);
      var r := ChunkResults(encode, cs, numLayers);
      var rest := ChunkResults(encode, cs[1..], numLayers);
      forall j | 1 <= j < |cs|
        ensures cs[j] == cs[1..][j - 1]
      {
      }
      if Reduce(encode(cs[0]).hidden, encode(cs[0]).attentions, numLayers).Err? {
        assert r.Err?;
      } else if rest.Err? {
        var j :| 0 <= j < |cs[1..]|
          && Reduce(encode(cs[1..][j]).hidden, encode(cs[1..][j]).attentions, numLayers) == Err(rest.error)
          && forall j' | 0 <= j' < j :: Reduce(encode(cs[1..][j']).hidden, encode(cs[1..][j']).attentions, numLayers).Ok?;
        assert Reduce(encode(cs[j + 1]).hidden, encode(cs[j + 1]).attentions, numLayers) == Err(r.error);
        forall j' | 0 <= j' < j + 1
          ensures Reduce(encode(cs[j']).hidden, encode(cs[j']).attentions, numLayers).Ok?
        {
          if j' > 0 {
            assert cs[j'] == cs[1..][j' - 1];
          }
        }
      } else {
        assert r.Ok?;
      }
    }
  }

  /** Lists whose items have matching lengths flatten to lists of the same length. */
  lemma {:induction false} FlattenLength<A, B>(xs: seq<seq<A>>, ys: seq<seq<B>>)
    requires |xs| == |ys| && forall j | 0 <= j < |xs| :: |xs[j]| == |ys[j]|
    ensures |Flatten(xs)| == |Flatten(ys)|
    decreases |xs|
  {
    if |xs| > 0 {
      FlattenLength(xs[1..], ys[1..]);
    }
  }

  /**
   * Batching does not change the result: for an encoder that treats images
   * independently, the embeddings of a list are the same for every
   * positive `batch_size` as for the whole list in one batch.
   */
  lemma ChunkingInvariance<Image(!new)>(encode: seq<Image> -> EncoderOutput, one: Image -> ImageActivations, shape: Shape,
                                  inputs: Inputs<Image>, numLayers: int, batchSize: int)
    requires PerImage(encode, one, shape) && batchSize >= 1
    ensures Embeddings(encode, inputs, numLayers, batchSize) == BatchEmbeddings(encode, AsList(inputs), numLayers)
  {
    var items := AsList(inputs);
    if |items| >= batchSize {
      var cs := Chunks(items, batchSize);
      ChunkCount(items, batchSize);
      FlattenChunks(items, batchSize);
      match ShapeCheck(shape, numLayers)
      case Some(e) =>
        assert OutputFor(encode(cs[0]), one, shape, cs[0]);
        assert OutputFor(encode(items), one, shape, items);
        assert Precheck(encode(cs[0]).hidden, encode(cs[0]).attentions, numLayers) == Some(e);
        assert Precheck(encode(items).hidden, encode(items).attentions, numLayers) == Some(e);
      case None =>
        ChunkResultsByImage(encode, one, shape, numLayers, cs);
        ReduceByImage(encode, one, shape, numLayers, items);
    }
  }

  /** Every input image gets exactly one embedding row. */
  lemma EmbeddingsOnePerImage<Image(!new)>(encode: seq<Image> -> EncoderOutput, inputs: Inputs<Image>, numLayers: int, batchSize: int)
    requires RowPerImage(encode)
    ensures Embeddings(encode, inputs, numLayers, batchSize).Ok? ==>
      |Embeddings(encode, inputs, numLayers, batchSize).value| == |AsList(inputs)|
  {
    var items := AsList(inputs);
    if Embeddings(encode, inputs, numLayers, batchSize).Ok? && |items| >= batchSize {
      var cs := Chunks(items, batchSize);
      var ms := ChunkResults(encode, cs, numLayers).value;
      ChunkResultsByBatch(encode, cs, numLayers);
      FlattenChunks(items, batchSize);
      forall j | 0 <= j < |cs|
        ensures |ms[j]| == |cs[j]|
      {
        assert encode(cs[j]).hidden.batch == |cs[j]|;
      }
      FlattenLength(ms, cs);
    }
  }

  /** A single image, not wrapped in a list, gets one embedding row. */
  lemma SingleImageOneRow<Image(!new)>(encode: seq<Image> -> EncoderOutput, image: Image, numLayers: int, batchSize: int)
    requires RowPerImage(encode)
    ensures Embeddings(encode, Single(image), numLayers, batchSize).Ok? ==>
      |Embeddings(encode, Single(image), numLayers, batchSize).value| == 1
  {
    EmbeddingsOnePerImage(encode, Single(image), numLayers, batchSize);
  }

  /** As written, a successful chunked call returns the reducer's result for the last batch. */
  lemma AsWrittenIsLastChunk<Image>(encode: seq<Image> -> EncoderOutput, inputs: Inputs<Image>, numLayers: int, batchSize: int)
    requires batchSize >= 1 && |AsList(inputs)| >= batchSize
    ensures var cs := Chunks(AsList(inputs), batchSize);
      EmbeddingsAsWritten(encode, inputs, numLayers, batchSize, Tensor).Ok? ==>
        && |cs| >= 1
        && EmbeddingsAsWritten(encode, inputs, numLayers, batchSize, Tensor) == BatchEmbeddings(encode, cs[|cs| - 1], numLayers)
  {
    var items := AsList(inputs);
    var cs := Chunks(items, batchSize);
    var r := EmbeddingsAsWritten(encode, inputs, numLayers, batchSize, Tensor);
    if r.Ok? {
      assert ChunksOf(items, batchSize) == cs;
      var results := ChunkResults(encode, cs, numLayers);
      ChunkResultsByBatch(encode, cs, numLayers);
      assert results.Ok? && |results.value| == |cs| && |cs| >= 1;
      assert r == Ok(results.value[|cs| - 1]);
      var last := cs[|cs| - 1];
      assert Reduce(encode(last).hidden, encode(last).attentions, numLayers) == Ok(results.value[|cs| - 1]);
    }
  }

  /**
   * As written, the chunked path returns the last batch's rows only: with
   * more images than `batch_size` the result is missing rows.
   */
  lemma AsWrittenKeepsLastChunk<Image(!new)>(encode: seq<Image> -> EncoderOutput, inputs: Inputs<Image>, numLayers: int, batchSize: int)
    requires RowPerImage(encode) && batchSize >= 1 && |AsList(inputs)| > batchSize
    ensures var cs := Chunks(AsList(inputs), batchSize);
      EmbeddingsAsWritten(encode, inputs, numLayers, batchSize, Tensor).Ok? ==>
        && |cs| >= 2
        && EmbeddingsAsWritten(encode, inputs, numLayers, batchSize, Tensor) == BatchEmbeddings(encode, cs[|cs| - 1], numLayers)
        && |EmbeddingsAsWritten(encode, inputs, numLayers, batchSize, Tensor).value| < |AsList(inputs)|
  {
    var items := AsList(inputs);
    var cs := Chunks(items, batchSize);
    var r := EmbeddingsAsWritten(encode, inputs, numLayers, batchSize, Tensor);
    if r.Ok? {
      AsWrittenIsLastChunk(encode, inputs, numLayers, batchSize);
      ChunkCount(items, batchSize);
      ChunkSizes(items, batchSize);
      assert |cs| >= 2 by {
        assert 2 * batchSize < |cs| * batchSize + batchSize;
        FactorOrder(2, |cs|, batchSize);
      }
      var last := cs[|cs| - 1];
      assert |r.value| == encode(last).hidden.batch;
      assert encode(last).hidden.batch == |last| <= batchSize;
    }
  }

  /**
   * As written, asking for a numpy array on the chunked path always fails,
   * even where the accumulated result exists.
   */
  lemma AsWrittenNumpyFails<Image(!new)>(encode: seq<Image> -> EncoderOutput, inputs: Inputs<Image>, numLayers: int, batchSize: int)
    requires |AsList(inputs)| >= batchSize
    requires Embeddings(encode, inputs, numLayers, batchSize).Ok?
    ensures EmbeddingsAsWritten(encode, inputs, numLayers, batchSize) == Err(NoNumpyMethod)
  {
  }

  /**
   * A concrete encoder for the counterexample: each image is a number `x`,
   * with one layer, one head, a class token carrying 0 and one patch token
   * carrying `x`, and every query attending 0.5 to each token.
   */
  function ToyEncode(c: seq<real>): EncoderOutput {
    EncoderOutput(
      HiddenStates([seq(|c|, i requires 0 <= i < |c| => [[0.0], [c[i]]])], |c|, 2, 1),
      Attentions([seq(|c|, i requires 0 <= i < |c| => [[[0.5, 0.5], [0.5, 0.5]]])], |c|, 1, 2))
  }

  /** The toy encoder's output reduces for every batch. */
  lemma ToyReduces(c: seq<real>)
    ensures Reduce(ToyEncode(c).hidden, ToyEncode(c).attentions, 1).Ok?
  {
    var hs, att := ToyEncode(c).hidden, ToyEncode(c).attentions;
    assert hs.Conforms();
    assert att.Conforms();
    assert Precheck(hs, att, 1) == None;
    forall i | 0 <= i < |c|
      ensures Sum(Reduced(att, 1)[i][1..]) != 0.0
    {
      MeanOfConstantAttention(att, 1, i, 1, 0.5);
      assert Reduced(att, 1)[i][1..] == [0.5];
    }
    WeightsDistribution(att, 1);
  }

  /** One image of the toy encoder, on its own: a class token carrying 0 and a patch token carrying `x`. */
  function ToyImage(x: real): ImageActivations {
    ImageActivations([[[0.0], [x]]], [[[[0.5, 0.5], [0.5, 0.5]]]])
  }

  /** The toy encoder treats images independently, so the premise of `ChunkingInvariance` can be met. */
  lemma ToyPerImage()
    ensures PerImage(ToyEncode, ToyImage, Shape(1, 1, 1, 2, 1))
  {
    var shape := Shape(1, 1, 1, 2, 1);
    forall x: real
      ensures Fits(ToyImage(x), shape)
    {
    }
    forall c: seq<real>
      ensures OutputFor(ToyEncode(c), ToyImage, shape, c)
    {
      var out := ToyEncode(c);
      assert out.hidden.Conforms() && out.attentions.Conforms();
      forall i | 0 <= i < |c|
        ensures ImageOf(out.hidden, out.attentions, i) == ToyImage(c[i])
      {
        var x := ImageOf(out.hidden, out.attentions, i);
        assert x.hidden == [[[0.0], [c[i]]]];
        assert x.attention == [[[[0.5, 0.5], [0.5, 0.5]]]];
      }
    }
  }

  lemma {:induction false} ToyChunksReduce(cs: seq<seq<real>>)
    ensures ChunkResults(ToyEncode, cs, 1).Ok?
    decreases |cs|
  {
    if |cs| > 0 {
      ToyReduces(cs[0]);
      ToyChunksReduce(cs[1..]);
    }
  }

  /** Three items in slices of two: a full slice and a last slice of one. */
  lemma ThreeInTwos()
    ensures Chunks([1.0, 2.0, 3.0], 2) == [[1.0, 2.0], [3.0]]
  {
    var items: seq<real> := [1.0, 2.0, 3.0];
    assert items[..2] == [1.0, 2.0] && items[2..] == [3.0];
    assert [3.0][..1] == [3.0] && [3.0][1..] == [];
    assert Chunks([3.0], 2) == [[3.0]];
  }

  /**
   * Three images with `batch_size` 2: as written the result has one row,
   * the last batch's.
   */
  lemma LastChunkCounterexample()
    ensures EmbeddingsAsWritten(ToyEncode, List([1.0, 2.0, 3.0]), 1, 2, Tensor).Ok?
    ensures |EmbeddingsAsWritten(ToyEncode, List([1.0, 2.0, 3.0]), 1, 2, Tensor).value| == 1
  {
    var items: seq<real> := [1.0, 2.0, 3.0];
    var cs: seq<seq<real>> := [[1.0, 2.0], [3.0]];
    ThreeInTwos();
    assert AsList(List(items)) == items && ChunksOf(items, 2) == cs;
    ToyChunksReduce(cs);
    var results := ChunkResults(ToyEncode, cs, 1);
    ChunkResultsByBatch(ToyEncode, cs, 1);
    assert results.Ok? && |results.value| == 2;
    assert EmbeddingsAsWritten(ToyEncode, List(items), 1, 2, Tensor) == Ok(results.value[1]);
    assert Reduce(ToyEncode(cs[1]).hidden, ToyEncode(cs[1]).attentions, 1) == Ok(results.value[1]);
    assert ToyEncode(cs[1]).hidden.batch == 1;
  }

  /** The same three images, corrected: three rows. */
  lemma AllChunksKept()
    ensures Embeddings(ToyEncode, List([1.0, 2.0, 3.0]), 1, 2).Ok?
    ensures |Embeddings(ToyEncode, List([1.0, 2.0, 3.0]), 1, 2).value| == 3
  {
    var items: seq<real> := [1.0, 2.0, 3.0];
    var cs: seq<seq<real>> := [[1.0, 2.0], [3.0]];
    ThreeInTwos();
    assert AsList(List(items)) == items && ChunksOf(items, 2) == cs;
    ToyChunksReduce(cs);
    var results := ChunkResults(ToyEncode, cs, 1);
    ChunkResultsByBatch(ToyEncode, cs, 1);
    assert results.Ok? && |results.value| == 2;
    assert Embeddings(ToyEncode, List(items), 1, 2) == Ok(Flatten(results.value));
    assert RowPerImage(ToyEncode);
    EmbeddingsOnePerImage(ToyEncode, List(items), 1, 2);
  }

  /**
   * The same three images with the default `return_format`: as written the
   * call fails on `.numpy()`, though the stacked rows exist.
   */
  lemma NumpyCounterexample()
    ensures EmbeddingsAsWritten(ToyEncode, List([1.0, 2.0, 3.0]), 1, 2) == Err(NoNumpyMethod)
    ensures Embeddings(ToyEncode, List([1.0, 2.0, 3.0]), 1, 2).Ok?
  {
    AllChunksKept();
    AsWrittenNumpyFails(ToyEncode, List([1.0, 2.0, 3.0]), 1, 2);
  }
}
