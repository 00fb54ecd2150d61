/**
 * What the reducer promises: the shape of its output, weights that form a
 * distribution over the patch tokens, layer summation rather than averaging,
 * and embeddings that depend on each image alone.
 */
module ReducerProperties {
  import opened Wrappers
  import opened Tensors
  import opened Reducer

  /** One image's share of the encoder output: its hidden states and attentions in every layer. */
  datatype ImageActivations = ImageActivations(hidden: seq<Matrix>, attention: seq<Tensor3>)

  predicate ImageShaped(x: ImageActivations, heads: nat, tokens: nat, features: nat) {
    && (forall l | 0 <= l < |x.hidden| :: IsMatrix(x.hidden[l], tokens, features))
    && (forall l | 0 <= l < |x.attention| :: IsTensor3(x.attention[l], heads, tokens, tokens))
  }

  /** Image `i` of a batch, in every layer of both stacks. */
  function ImageOf(hs: HiddenStates, att: Attentions, i: nat): (x: ImageActivations)
    requires hs.Conforms() && att.Conforms() && i < hs.batch && i < att.batch
    ensures |x.hidden| == |hs.layers| && |x.attention| == |att.layers|
    ensures forall l | 0 <= l < |x.hidden| :: IsMatrix(x.hidden[l], hs.tokens, hs.features)
    ensures forall l | 0 <= l < |x.attention| :: IsTensor3(x.attention[l], att.heads, att.tokens, att.tokens)
  {
    ImageActivations(
      seq(|hs.layers|, l requires 0 <= l < |hs.layers| =>
        assert IsTensor3(hs.layers[l], hs.batch, hs.tokens, hs.features); hs.layers[l][i]),
      seq(|att.layers|, l requires 0 <= l < |att.layers| =>
        assert IsTensor4(att.layers[l], att.batch, att.heads, att.tokens, att.tokens); att.layers[l][i]))
  }

  /** Entry (t, d) of every layer of one image's window, in layer order. */
  function ImageAcrossLayers(w: seq<Matrix>, tokens: nat, features: nat, t: nat, d: nat): (r: Vector)
    requires forall l | 0 <= l < |w| :: IsMatrix(w[l], tokens, features)
    requires t < tokens && d < features
    ensures |r| == |w|
  {
    seq(|w|, l requires 0 <= l < |w| => assert IsMatrix(w[l], tokens, features); w[l][t][d])
  }

  /** One image's hidden states, summed over the last `k` layers. */
  function ImageHiddenSum(x: ImageActivations, k: nat, tokens: nat, features: nat): (r: Matrix)
    requires k <= |x.hidden|
    requires forall l | 0 <= l < |x.hidden| :: IsMatrix(x.hidden[l], tokens, features)
    ensures IsMatrix(r, tokens, features)
  {
    var w := Window(x.hidden, k);
    seq(tokens, t requires 0 <= t < tokens =>
      seq(features, d requires 0 <= d < features =>
        Sum(ImageAcrossLayers(w, tokens, features, t, d))))
  }

  /** The attention key token `t` receives in every layer of one image's window, in layer order. */
  function ImageLayerMasses(w: seq<Tensor3>, heads: nat, tokens: nat, t: nat): (r: Vector)
    requires forall l | 0 <= l < |w| :: IsTensor3(w[l], heads, tokens, tokens)
    requires t < tokens
    ensures |r| == |w|
  {
    seq(|w|, l requires 0 <= l < |w| =>
      assert IsTensor3(w[l], heads, tokens, tokens); ReceivedMass(w[l], heads, tokens, t))
  }

  /** One image's mean received attention per key token, with the class token's weight cleared. */
  function ImageWeights(x: ImageActivations, k: nat, heads: nat, tokens: nat): (r: Vector)
    requires 1 <= k <= |x.attention| && heads >= 1 && tokens >= 1
    requires forall l | 0 <= l < |x.attention| :: IsTensor3(x.attention[l], heads, tokens, tokens)
    ensures |r| == tokens
  {
    var w := Window(x.attention, k);
    var n := (k * heads * tokens) as real;
    assert n > 0.0 by { assert k * heads >= 1; }
    var mass := seq(tokens, t requires 0 <= t < tokens => Sum(ImageLayerMasses(w, heads, tokens, t)) / n);
    mass[0 := 0.0]
  }

  /**
   * The reduction of a single image, stated without reference to the batch:
   * the reference the batched reduction is proved to agree with row by row.
   */
  function ReduceImage(x: ImageActivations, k: nat, heads: nat, tokens: nat, features: nat): (r: Result<Vector, ReduceError>)
    requires 1 <= k <= |x.hidden| && k <= |x.attention| && heads >= 1 && tokens >= 1
    requires ImageShaped(x, heads, tokens, features)
    ensures r.Ok? ==> |r.value| == features
    ensures r.Err? ==> r.error == DegenerateWeights
  {
    var w := ImageWeights(x, k, heads, tokens);
    if Sum(w) == 0.0 then Err(DegenerateWeights)
    else Ok(Combine(Normalize(w), ImageHiddenSum(x, k, tokens, features), features))
  }

  /** Image `i`'s row of the batched hidden-state sum is its own single-image sum. */
  lemma HiddenRowOfBatch(hs: HiddenStates, att: Attentions, k: nat, i: nat)
    requires hs.Conforms() && att.Conforms() && k <= |hs.layers| && i < hs.batch && i < att.batch
    ensures HiddenSum(hs, k)[i] == ImageHiddenSum(ImageOf(hs, att, i), k, hs.tokens, hs.features)
  {
    var x := ImageOf(hs, att, i);
    var hw, xw := Window(hs.layers, k), Window(x.hidden, k);
    forall t, d | 0 <= t < hs.tokens && 0 <= d < hs.features
      ensures HiddenSum(hs, k)[i][t][d] == ImageHiddenSum(x, k, hs.tokens, hs.features)[t][d]
    {
      assert AcrossLayers(hw, hs.batch, hs.tokens, hs.features, i, t, d)
          == ImageAcrossLayers(xw, hs.tokens, hs.features, t, d);
    }
    forall t | 0 <= t < hs.tokens
      ensures HiddenSum(hs, k)[i][t] == ImageHiddenSum(x, k, hs.tokens, hs.features)[t]
    {
    }
  }

  /** Image `i`'s row of the batched, class-cleared mean attention is its own single-image weight vector. */
  lemma WeightRowOfBatch(hs: HiddenStates, att: Attentions, k: nat, i: nat)
    requires hs.Conforms() && att.Conforms() && 1 <= k <= |att.layers| && i < hs.batch && i < att.batch
    requires att.heads >= 1 && att.tokens >= 1
    ensures ClassTokenZeroed(Reduced(att, k))[i] == ImageWeights(ImageOf(hs, att, i), k, att.heads, att.tokens)
  {
    var x := ImageOf(hs, att, i);
    var aw, yw := Window(att.layers, k), Window(x.attention, k);
    forall t | 0 <= t < att.tokens
      ensures Reduced(att, k)[i][t] == ImageWeights(x, k, att.heads, att.tokens)[t] || t == 0
    {
      assert LayerMasses(aw, att.batch, att.heads, att.tokens, i, t)
          == ImageLayerMasses(yw, att.heads, att.tokens, t);
    }
  }

  /**
   * Lines 82-100 treat every image on its own: once the shape checks pass, the
   * batch succeeds exactly when every image's own reduction does, and row `i`
   * of the result is image `i`'s own embedding.
   */
  lemma ReduceRowwise(hs: HiddenStates, att: Attentions, numLayers: int)
    requires Precheck(hs, att, numLayers) == None
    ensures Reduce(hs, att, numLayers).Ok? <==>
      forall i | 0 <= i < hs.batch :: ReduceImage(ImageOf(hs, att, i), numLayers, att.heads, hs.tokens, hs.features).Ok?
    ensures Reduce(hs, att, numLayers).Ok? ==>
      forall i | 0 <= i < hs.batch ::
        Reduce(hs, att, numLayers).value[i] == ReduceImage(ImageOf(hs, att, i), numLayers, att.heads, hs.tokens, hs.features).value
  {
    var k := numLayers as nat;
    var z := ClassTokenZeroed(Reduced(att, k));
    forall i | 0 <= i < hs.batch
      ensures z[i] == ImageWeights(ImageOf(hs, att, i), k, att.heads, att.tokens)
      ensures HiddenSum(hs, k)[i] == ImageHiddenSum(ImageOf(hs, att, i), k, hs.tokens, hs.features)
    {
      WeightRowOfBatch(hs, att, k, i);
      HiddenRowOfBatch(hs, att, k, i);
    }
  }

  /** An image's row of the result depends on that image alone, wherever it sits in its batch. */
  lemma ImagesIndependent(hs: HiddenStates, att: Attentions, hs': HiddenStates, att': Attentions,
                          numLayers: int, i: nat, j: nat)
    requires Reduce(hs, att, numLayers).Ok? && Reduce(hs', att', numLayers).Ok?
    requires i < hs.batch && j < hs'.batch
    requires hs.tokens == hs'.tokens && hs.features == hs'.features && att.heads == att'.heads
    requires ImageOf(hs, att, i) == ImageOf(hs', att', j)
    ensures Reduce(hs, att, numLayers).value[i] == Reduce(hs', att', numLayers).value[j]
  {
    ReduceRowwise(hs, att, numLayers);
    ReduceRowwise(hs', att', numLayers);
  }

  /**
   * Lines 91-97: every image's weights have a zero class-token entry and sum
   * to one; they fail to exist exactly when some image's patch tokens receive
   * no attention mass at all.
   */
  lemma WeightsDistribution(att: Attentions, k: nat)
    requires att.Conforms() && 1 <= k <= |att.layers| && att.heads >= 1 && att.tokens >= 1
    ensures Weights(att, k).Err? <==> exists i | 0 <= i < att.batch :: Sum(Reduced(att, k)[i][1..]) == 0.0
    ensures Weights(att, k).Ok? ==> IsMatrix(Weights(att, k).value, att.batch, att.tokens)
    ensures Weights(att, k).Ok? ==>
      forall i | 0 <= i < att.batch :: Weights(att, k).value[i][0] == 0.0 && Sum(Weights(att, k).value[i]) == 1.0
  {
    var m := Reduced(att, k);
    var z := ClassTokenZeroed(m);
    forall i | 0 <= i < att.batch
      ensures Sum(z[i]) == Sum(m[i][1..])
    {
      SumZeroHead(m[i]);
    }
    if Weights(att, k).Ok? {
      var w := Weights(att, k).value;
      forall i | 0 <= i < att.batch
        ensures w[i][0] == 0.0 && Sum(w[i]) == 1.0
      {
        var s := Sum(z[i]);
        SumScale(z[i], w[i], 1.0 / s);
      }
    }
  }

  predicate NonNegativeAttention(att: Attentions)
    requires att.Conforms()
  {
    forall l, i, h, q, t | 0 <= l < |att.layers| && 0 <= i < att.batch && 0 <= h < att.heads
                           && 0 <= q < att.tokens && 0 <= t < att.tokens ::
      att.layers[l][i][h][q][t] >= 0.0
  }

  lemma ReceivedMassNonNegative(a: Tensor3, heads: nat, tokens: nat, t: nat)
    requires IsTensor3(a, heads, tokens, tokens) && t < tokens
    requires forall h, q | 0 <= h < heads && 0 <= q < tokens :: a[h][q][t] >= 0.0
    ensures ReceivedMass(a, heads, tokens, t) >= 0.0
  {
    var outer := seq(heads, h requires 0 <= h < heads =>
      Sum(seq(tokens, q requires 0 <= q < tokens => a[h][q][t])));
    forall h | 0 <= h < heads
      ensures outer[h] >= 0.0
    {
      SumNonNegative(seq(tokens, q requires 0 <= q < tokens => a[h][q][t]));
    }
    SumNonNegative(outer);
  }

  /** Lines 90-97: attention entries that are never negative give weights that are never negative. */
  lemma WeightsNonNegative(att: Attentions, k: nat)
    requires att.Conforms() && 1 <= k <= |att.layers| && att.heads >= 1 && att.tokens >= 1
    requires NonNegativeAttention(att)
    ensures Weights(att, k).Ok? ==>
      forall i, t | 0 <= i < att.batch && 0 <= t < att.tokens :: Weights(att, k).value[i][t] >= 0.0
  {
    var m := Reduced(att, k);
    var w := Window(att.layers, k);
    var n := (k * att.heads * att.tokens) as real;
    assert n > 0.0 by { assert k * att.heads >= 1; }
    forall i, t | 0 <= i < att.batch && 0 <= t < att.tokens
      ensures m[i][t] >= 0.0
    {
      var masses := LayerMasses(w, att.batch, att.heads, att.tokens, i, t);
      forall l | 0 <= l < k
        ensures masses[l] >= 0.0
      {
        assert IsTensor4(w[l], att.batch, att.heads, att.tokens, att.tokens);
        ReceivedMassNonNegative(w[l][i], att.heads, att.tokens, t);
      }
      SumNonNegative(masses);
    }
    var z := ClassTokenZeroed(m);
    forall i | 0 <= i < att.batch
      ensures Sum(z[i]) >= 0.0
    {
      SumNonNegative(z[i]);
    }
  }

  /**
   * Lines 82-84 sum the window of layers rather than average it: a window of
   * `k` equal layers gives `k` times that layer.
   */
  lemma HiddenSumOfEqualLayers(hs: HiddenStates, k: nat, x: Tensor3)
    requires hs.Conforms() && k <= |hs.layers| && IsTensor3(x, hs.batch, hs.tokens, hs.features)
    requires forall l | |hs.layers| - k <= l < |hs.layers| :: hs.layers[l] == x
    ensures forall i, t, d | 0 <= i < hs.batch && 0 <= t < hs.tokens && 0 <= d < hs.features ::
      HiddenSum(hs, k)[i][t][d] == k as real * x[i][t][d]
  {
    var w := Window(hs.layers, k);
    forall i, t, d | 0 <= i < hs.batch && 0 <= t < hs.tokens && 0 <= d < hs.features
      ensures HiddenSum(hs, k)[i][t][d] == k as real * x[i][t][d]
    {
      SumConstant(AcrossLayers(w, hs.batch, hs.tokens, hs.features, i, t, d), x[i][t][d]);
    }
  }

  /** An empty window sums to zero everywhere. */
  lemma HiddenSumEmpty(hs: HiddenStates, i: nat, t: nat, d: nat)
    requires hs.Conforms() && i < hs.batch && t < hs.tokens && d < hs.features
    ensures HiddenSum(hs, 0)[i][t][d] == 0.0
  {
    assert AcrossLayers(Window(hs.layers, 0), hs.batch, hs.tokens, hs.features, i, t, d) == [];
  }

  /**
   * Lines 82-84 sum layer by layer: the window of the last `k` layers sums
   * to layer `-k` plus the window of the last `k - 1`. With `HiddenSumEmpty`
   * this fixes every entry as the plain sum of layers `-k .. -1`.
   */
  lemma HiddenSumPeel(hs: HiddenStates, k: nat, i: nat, t: nat, d: nat)
    requires hs.Conforms() && 1 <= k <= |hs.layers|
    requires i < hs.batch && t < hs.tokens && d < hs.features
    ensures HiddenSum(hs, k)[i][t][d] == hs.layers[|hs.layers| - k][i][t][d] + HiddenSum(hs, k - 1)[i][t][d]
  {
    var n := |hs.layers|;
    var v := AcrossLayers(Window(hs.layers, k), hs.batch, hs.tokens, hs.features, i, t, d);
    var u := AcrossLayers(Window(hs.layers, k - 1), hs.batch, hs.tokens, hs.features, i, t, d);
    assert IsTensor3(hs.layers[n - k], hs.batch, hs.tokens, hs.features);
    assert v[0] == hs.layers[n - k][i][t][d];
    forall j | 0 <= j < k - 1
      ensures v[1..][j] == u[j]
    {
      assert Window(hs.layers, k)[j + 1] == Window(hs.layers, k - 1)[j];
    }
    assert v[1..] == u;
    assert HiddenSum(hs, k)[i][t][d] == Sum(v);
    assert HiddenSum(hs, k - 1)[i][t][d] == Sum(u);
  }

  lemma ReceivedMassConstant(a: Tensor3, heads: nat, tokens: nat, t: nat, c: real)
    requires IsTensor3(a, heads, tokens, tokens) && t < tokens
    requires forall h, q | 0 <= h < heads && 0 <= q < tokens :: a[h][q][t] == c
    ensures ReceivedMass(a, heads, tokens, t) == (heads * tokens) as real * c
  {
    var perHead := seq(heads, h requires 0 <= h < heads =>
      Sum(seq(tokens, q requires 0 <= q < tokens => a[h][q][t])));
    forall h | 0 <= h < heads
      ensures perHead[h] == tokens as real * c
    {
      SumConstant(seq(tokens, q requires 0 <= q < tokens => a[h][q][t]), c);
    }
    SumConstant(perHead, tokens as real * c);
    assert (heads * tokens) as real == heads as real * tokens as real;
  }

  /** A total of `k * heads * tokens` equal shares, divided by their number, is one share. */
  lemma MeanOfEqualShares(k: nat, heads: nat, tokens: nat, c: real, total: real)
    requires k >= 1 && heads >= 1 && tokens >= 1
    requires total == k as real * ((heads * tokens) as real * c)
    ensures total / (k * heads * tokens) as real == c
  {
    var n := (k * heads * tokens) as real;
    assert n == k as real * (heads * tokens) as real;
    assert n > 0.0 by { assert k * heads >= 1; }
  }

  /** One averaged weight: the window's masses for that image and key token, over `k * heads * tokens`. */
  lemma ReducedEntry(att: Attentions, k: nat, i: nat, t: nat)
    requires att.Conforms() && 1 <= k <= |att.layers| && att.heads >= 1 && att.tokens >= 1
    requires i < att.batch && t < att.tokens
    ensures Reduced(att, k)[i][t]
         == Sum(LayerMasses(Window(att.layers, k), att.batch, att.heads, att.tokens, i, t)) / (k * att.heads * att.tokens) as real
  {
  }

  /** A window layer whose entries for key token `t` of image `i` are all `c` gives that token `heads * tokens * c`. */
  lemma WindowLayerConstant(att: Attentions, k: nat, i: nat, t: nat, c: real, l: nat, layer: nat)
    requires att.Conforms() && 1 <= k <= |att.layers| && att.heads >= 1 && att.tokens >= 1
    requires i < att.batch && t < att.tokens && l < k && layer == |att.layers| - k + l
    requires forall l', h, q | |att.layers| - k <= l' < |att.layers| && 0 <= h < att.heads && 0 <= q < att.tokens ::
      att.layers[l'][i][h][q][t] == c
    ensures LayerMasses(Window(att.layers, k), att.batch, att.heads, att.tokens, i, t)[l]
         == (att.heads * att.tokens) as real * c
  {
    var a := att.layers[layer];
    assert Window(att.layers, k)[l] == a;
    assert IsTensor4(a, att.batch, att.heads, att.tokens, att.tokens);
    ReceivedMassConstant(a[i], att.heads, att.tokens, t, c);
  }

  /** Every layer of the window gives key token `t` of image `i` the mass `heads * tokens * c`. */
  lemma WindowMassesConstant(att: Attentions, k: nat, i: nat, t: nat, c: real)
    requires att.Conforms() && 1 <= k <= |att.layers| && att.heads >= 1 && att.tokens >= 1
    requires i < att.batch && t < att.tokens
    requires forall l, h, q | |att.layers| - k <= l < |att.layers| && 0 <= h < att.heads && 0 <= q < att.tokens ::
      att.layers[l][i][h][q][t] == c
    ensures forall l | 0 <= l < k ::
      LayerMasses(Window(att.layers, k), att.batch, att.heads, att.tokens, i, t)[l] == (att.heads * att.tokens) as real * c
  {
    forall l | 0 <= l < k
      ensures LayerMasses(Window(att.layers, k), att.batch, att.heads, att.tokens, i, t)[l] == (att.heads * att.tokens) as real * c
    {
      WindowLayerConstant(att, k, i, t, c, l, |att.layers| - k + l);
    }
  }

  /** When every layer of the window gives the same mass `heads * tokens * c`, the averaged weight is `c`. */
  lemma MeanOfEqualMasses(att: Attentions, k: nat, i: nat, t: nat, c: real)
    requires att.Conforms() && 1 <= k <= |att.layers| && att.heads >= 1 && att.tokens >= 1
    requires i < att.batch && t < att.tokens
    requires forall l | 0 <= l < k ::
      LayerMasses(Window(att.layers, k), att.batch, att.heads, att.tokens, i, t)[l] == (att.heads * att.tokens) as real * c
    ensures Reduced(att, k)[i][t] == c
  {
    var masses := LayerMasses(Window(att.layers, k), att.batch, att.heads, att.tokens, i, t);
    SumConstant(masses, (att.heads * att.tokens) as real * c);
    ReducedEntry(att, k, i, t);
    MeanOfEqualShares(k, att.heads, att.tokens, c, Sum(masses));
  }

  /**
   * Lines 86-90 take a mean: if every layer of the window, every head and every
   * query token give key token `t` of image `i` the same attention `c`, its
   * weight before the class token is cleared is `c`.
   */
  lemma MeanOfConstantAttention(att: Attentions, k: nat, i: nat, t: nat, c: real)
    requires att.Conforms() && 1 <= k <= |att.layers| && att.heads >= 1 && att.tokens >= 1
    requires i < att.batch && t < att.tokens
    requires forall l, h, q | |att.layers| - k <= l < |att.layers| && 0 <= h < att.heads && 0 <= q < att.tokens ::
      att.layers[l][i][h][q][t] == c
    ensures Reduced(att, k)[i][t] == c
  {
    WindowMassesConstant(att, k, i, t, c);
    MeanOfEqualMasses(att, k, i, t, c);
  }

  /** Two attention stacks of the same shape. */
  predicate SameShape(att: Attentions, att': Attentions) {
    && |att.layers| == |att'.layers| && att.batch == att'.batch
    && att.heads == att'.heads && att.tokens == att'.tokens
  }

  /**
   * `att'` is `att` with the single entry (layer `l`, image `i`, head `h`,
   * query `q`, key `t`) raised by `delta`.
   */
  predicate DiffersAt(att: Attentions, att': Attentions, l: nat, i: nat, h: nat, q: nat, t: nat, delta: real)
    requires att.Conforms() && att'.Conforms() && SameShape(att, att')
  {
    forall l', i', h', q', t' | 0 <= l' < |att.layers| && 0 <= i' < att.batch && 0 <= h' < att.heads
                               && 0 <= q' < att.tokens && 0 <= t' < att.tokens ::
      assert IsTensor4(att.layers[l'], att.batch, att.heads, att.tokens, att.tokens);
      assert IsTensor4(att'.layers[l'], att.batch, att.heads, att.tokens, att.tokens);
      att'.layers[l'][i'][h'][q'][t'] ==
        att.layers[l'][i'][h'][q'][t'] + (if l' == l && i' == i && h' == h && q' == q && t' == t then delta else 0.0)
  }

  /** One head-and-query entry of key token `t` raised by `delta` raises the mass `t` receives by `delta`. */
  lemma ReceivedMassPointChange(a: Tensor3, a': Tensor3, heads: nat, tokens: nat, h: nat, q: nat, t: nat, delta: real)
    requires IsTensor3(a, heads, tokens, tokens) && IsTensor3(a', heads, tokens, tokens)
    requires h < heads && q < tokens && t < tokens
    requires forall h', q' | 0 <= h' < heads && 0 <= q' < tokens ::
      a'[h'][q'][t] == a[h'][q'][t] + (if h' == h && q' == q then delta else 0.0)
    ensures ReceivedMass(a', heads, tokens, t) == ReceivedMass(a, heads, tokens, t) + delta
  {
    var outer := seq(heads, h' requires 0 <= h' < heads =>
      Sum(seq(tokens, q' requires 0 <= q' < tokens => a[h'][q'][t])));
    var outer' := seq(heads, h' requires 0 <= h' < heads =>
      Sum(seq(tokens, q' requires 0 <= q' < tokens => a'[h'][q'][t])));
    forall h' | 0 <= h' < heads
      ensures outer'[h'] == outer[h'] + (if h' == h then delta else 0.0)
    {
      SumPointChange(seq(tokens, q' requires 0 <= q' < tokens => a'[h'][q'][t]),
                     seq(tokens, q' requires 0 <= q' < tokens => a[h'][q'][t]), q, if h' == h then delta else 0.0);
    }
    SumPointChange(outer', outer, h, delta);
  }

  /** The mass key token `t0` of image `i0` receives in layer `j` of the window, with one entry changed. */
  lemma WindowLayerPointChange(att: Attentions, att': Attentions, k: nat, l: nat, i: nat, h: nat, q: nat, t: nat, delta: real,
                               i0: nat, t0: nat, j: nat)
    requires att.Conforms() && att'.Conforms() && SameShape(att, att')
    requires 1 <= k <= |att.layers| && att.heads >= 1 && att.tokens >= 1
    requires l < |att.layers| && i < att.batch && h < att.heads && q < att.tokens && t < att.tokens
    requires i0 < att.batch && t0 < att.tokens && j < k
    requires DiffersAt(att, att', l, i, h, q, t, delta)
    ensures LayerMasses(Window(att'.layers, k), att.batch, att.heads, att.tokens, i0, t0)[j]
         == LayerMasses(Window(att.layers, k), att.batch, att.heads, att.tokens, i0, t0)[j]
            + (if i0 == i && t0 == t && |att.layers| - k + j == l then delta else 0.0)
  {
    var L, heads, tokens := |att.layers|, att.heads, att.tokens;
    var dj := if i0 == i && t0 == t && L - k + j == l then delta else 0.0;
    var a, a' := att.layers[L - k + j], att'.layers[L - k + j];
    assert Window(att.layers, k)[j] == a && Window(att'.layers, k)[j] == a';
    assert IsTensor4(a, att.batch, heads, tokens, tokens);
    assert IsTensor4(a', att.batch, heads, tokens, tokens);
    forall h', q' | 0 <= h' < heads && 0 <= q' < tokens
      ensures a'[i0][h'][q'][t0] == a[i0][h'][q'][t0] + (if h' == h && q' == q then dj else 0.0)
    {
      assert att'.layers[L - k + j][i0][h'][q'][t0] == att.layers[L - k + j][i0][h'][q'][t0] +
        (if L - k + j == l && i0 == i && h' == h && q' == q && t0 == t then delta else 0.0);
    }
    ReceivedMassPointChange(a[i0], a'[i0], heads, tokens, h, q, t0, dj);
  }

  /** The masses key token `t0` of image `i0` receives across the window, with one entry changed. */
  lemma WindowMassesPointChange(att: Attentions, att': Attentions, k: nat, l: nat, i: nat, h: nat, q: nat, t: nat, delta: real,
                                i0: nat, t0: nat)
    requires att.Conforms() && att'.Conforms() && SameShape(att, att')
    requires 1 <= k <= |att.layers| && att.heads >= 1 && att.tokens >= 1
    requires l < |att.layers| && i < att.batch && h < att.heads && q < att.tokens && t < att.tokens
    requires i0 < att.batch && t0 < att.tokens
    requires DiffersAt(att, att', l, i, h, q, t, delta)
    ensures forall j | 0 <= j < k ::
      LayerMasses(Window(att'.layers, k), att.batch, att.heads, att.tokens, i0, t0)[j]
        == LayerMasses(Window(att.layers, k), att.batch, att.heads, att.tokens, i0, t0)[j]
           + (if i0 == i && t0 == t && |att.layers| - k + j == l then delta else 0.0)
  {
    forall j | 0 <= j < k
      ensures LayerMasses(Window(att'.layers, k), att.batch, att.heads, att.tokens, i0, t0)[j]
        == LayerMasses(Window(att.layers, k), att.batch, att.heads, att.tokens, i0, t0)[j]
           + (if i0 == i && t0 == t && |att.layers| - k + j == l then delta else 0.0)
    {
      WindowLayerPointChange(att, att', k, l, i, h, q, t, delta, i0, t0, j);
    }
  }

  /** Two quotients by the same positive count whose dividends differ by `d` differ by `d / n`. */
  lemma ShiftedQuotient(r: real, r': real, s: real, s': real, n: real, d: real)
    requires n > 0.0 && r == s / n && r' == s' / n && s' == s + d
    ensures r' == r + d / n
  {
    assert (s + d) / n == s / n + d / n;
  }

  /** When one layer's mass alone is raised by `d`, the averaged weight is raised by `d / (k * heads * tokens)`. */
  lemma MeanOfShiftedMasses(att: Attentions, att': Attentions, k: nat, i0: nat, t0: nat, j0: nat, d: real)
    requires att.Conforms() && att'.Conforms() && SameShape(att, att')
    requires 1 <= k <= |att.layers| && att.heads >= 1 && att.tokens >= 1
    requires i0 < att.batch && t0 < att.tokens && j0 < k
    requires forall j | 0 <= j < k ::
      LayerMasses(Window(att'.layers, k), att.batch, att.heads, att.tokens, i0, t0)[j]
        == LayerMasses(Window(att.layers, k), att.batch, att.heads, att.tokens, i0, t0)[j] + (if j == j0 then d else 0.0)
    ensures Reduced(att', k)[i0][t0] == Reduced(att, k)[i0][t0] + d / (k * att.heads * att.tokens) as real
  {
    var masses := LayerMasses(Window(att.layers, k), att.batch, att.heads, att.tokens, i0, t0);
    var masses' := LayerMasses(Window(att'.layers, k), att.batch, att.heads, att.tokens, i0, t0);
    SumPointChange(masses', masses, j0, d);
    var n := (k * att.heads * att.tokens) as real;
    assert n > 0.0 by { assert k * att.heads >= 1; }
    ReducedEntry(att, k, i0, t0);
    ReducedEntry(att', k, i0, t0);
    ShiftedQuotient(Reduced(att, k)[i0][t0], Reduced(att', k)[i0][t0], Sum(masses), Sum(masses'), n, d);
  }

  /**
   * Every entry of the window counts once, with weight 1 / (k * heads * tokens):
   * raising entry (`l`, `i`, `h`, `q`, `t`) by `delta` raises the averaged
   * weight of (`i0`, `t0`) by `delta / (k * heads * tokens)` when that entry is
   * in the window and is key token `t0` of image `i0`, and leaves it unchanged
   * otherwise.
   */
  lemma MeanPointChangeAt(att: Attentions, att': Attentions, k: nat, l: nat, i: nat, h: nat, q: nat, t: nat, delta: real,
                          i0: nat, t0: nat)
    requires att.Conforms() && att'.Conforms() && SameShape(att, att')
    requires 1 <= k <= |att.layers| && att.heads >= 1 && att.tokens >= 1
    requires l < |att.layers| && i < att.batch && h < att.heads && q < att.tokens && t < att.tokens
    requires i0 < att.batch && t0 < att.tokens
    requires DiffersAt(att, att', l, i, h, q, t, delta)
    ensures Reduced(att', k)[i0][t0] == Reduced(att, k)[i0][t0] +
      (if i0 == i && t0 == t && |att.layers| - k <= l then delta else 0.0) / (k * att.heads * att.tokens) as real
  {
    WindowMassesPointChange(att, att', k, l, i, h, q, t, delta, i0, t0);
    var hit := i0 == i && t0 == t && |att.layers| - k <= l;
    MeanOfShiftedMasses(att, att', k, i0, t0, if hit then l - (|att.layers| - k) else 0, if hit then delta else 0.0);
  }

  /**
   * Lines 86-90 are the mean over the window's layers, heads and query
   * tokens: one entry raised by `delta` raises its own (image, key token)
   * weight by `delta / (k * heads * tokens)` if it lies in the window, and
   * changes no other weight; outside the window it changes nothing.
   */
  lemma MeanPointChange(att: Attentions, att': Attentions, k: nat, l: nat, i: nat, h: nat, q: nat, t: nat, delta: real)
    requires att.Conforms() && att'.Conforms() && SameShape(att, att')
    requires 1 <= k <= |att.layers| && att.heads >= 1 && att.tokens >= 1
    requires l < |att.layers| && i < att.batch && h < att.heads && q < att.tokens && t < att.tokens
    requires DiffersAt(att, att', l, i, h, q, t, delta)
    ensures |att.layers| - k <= l ==>
      Reduced(att', k)[i][t] == Reduced(att, k)[i][t] + delta / (k * att.heads * att.tokens) as real
    ensures forall i0, t0 | 0 <= i0 < att.batch && 0 <= t0 < att.tokens && (i0 != i || t0 != t || l < |att.layers| - k) ::
      Reduced(att', k)[i0][t0] == Reduced(att, k)[i0][t0]
  {
    MeanPointChangeAt(att, att', k, l, i, h, q, t, delta, i, t);
    forall i0, t0 | 0 <= i0 < att.batch && 0 <= t0 < att.tokens && (i0 != i || t0 != t || l < |att.layers| - k)
      ensures Reduced(att', k)[i0][t0] == Reduced(att, k)[i0][t0]
    {
      MeanPointChangeAt(att, att', k, l, i, h, q, t, delta, i0, t0);
    }
  }

  lemma ZeroFactor(a: real, b: real)
    requires a == 0.0
    ensures a * b == 0.0
  {
  }

  lemma MulAddLeft(a: real, b: real, c: real)
    ensures a * (b + c) == a * b + a * c
  {
  }

  lemma MulAddRight(a: real, b: real, c: real)
    ensures (a + b) * c == a * c + b * c
  {
  }

  /** Feature `d` of the weighted sum, with token `t`'s weight raised by `delta`. */
  lemma TokenTermsWeightChange(w: Vector, w': Vector, h: Matrix, features: nat, t: nat, d: nat, delta: real)
    requires IsMatrix(h, |w|, features) && |w'| == |w| && t < |w| && d < features
    requires forall t' | 0 <= t' < |w| :: w'[t'] == w[t'] + (if t' == t then delta else 0.0)
    ensures Sum(TokenTerms(w', h, d)) == Sum(TokenTerms(w, h, d)) + delta * h[t][d]
  {
    var terms, terms' := TokenTerms(w, h, d), TokenTerms(w', h, d);
    forall t' | 0 <= t' < |w|
      ensures terms'[t'] == terms[t'] + (if t' == t then delta * h[t][d] else 0.0)
    {
      if t' == t {
        MulAddRight(w[t], delta, h[t][d]);
      }
    }
    SumPointChange(terms', terms, t, delta * h[t][d]);
  }

  /**
   * Lines 99-100 are linear in the weights: raising token `t`'s weight by
   * `delta` adds `delta` times that token's hidden vector to the embedding.
   */
  lemma CombineWeightChange(w: Vector, w': Vector, h: Matrix, features: nat, t: nat, delta: real)
    requires IsMatrix(h, |w|, features) && |w'| == |w| && t < |w|
    requires forall t' | 0 <= t' < |w| :: w'[t'] == w[t'] + (if t' == t then delta else 0.0)
    ensures forall d | 0 <= d < features ::
      Combine(w', h, features)[d] == Combine(w, h, features)[d] + delta * h[t][d]
  {
    forall d | 0 <= d < features
      ensures Combine(w', h, features)[d] == Combine(w, h, features)[d] + delta * h[t][d]
    {
      TokenTermsWeightChange(w, w', h, features, t, d, delta);
    }
  }

  /** Feature `d'` of the weighted sum, with feature `d` of token `t`'s hidden vector raised by `delta`. */
  lemma TokenTermsHiddenChange(w: Vector, h: Matrix, h': Matrix, features: nat, t: nat, d: nat, d': nat, delta: real)
    requires IsMatrix(h, |w|, features) && IsMatrix(h', |w|, features) && t < |w| && d < features && d' < features
    requires forall t', d'' | 0 <= t' < |w| && 0 <= d'' < features ::
      h'[t'][d''] == h[t'][d''] + (if t' == t && d'' == d then delta else 0.0)
    ensures Sum(TokenTerms(w, h', d')) == Sum(TokenTerms(w, h, d')) + (if d' == d then w[t] * delta else 0.0)
  {
    var terms, terms' := TokenTerms(w, h, d'), TokenTerms(w, h', d');
    forall t' | 0 <= t' < |w|
      ensures terms'[t'] == terms[t'] + (if t' == t && d' == d then w[t] * delta else 0.0)
    {
      if t' == t && d' == d {
        MulAddLeft(w[t], h[t][d], delta);
      }
    }
    SumPointChange(terms', terms, t, if d' == d then w[t] * delta else 0.0);
  }

  /**
   * Lines 99-100 are linear in the hidden states: raising feature `d` of
   * token `t` by `delta` raises feature `d` of the embedding by `delta` times
   * that token's weight, and leaves every other feature unchanged.
   */
  lemma CombineHiddenChange(w: Vector, h: Matrix, h': Matrix, features: nat, t: nat, d: nat, delta: real)
    requires IsMatrix(h, |w|, features) && IsMatrix(h', |w|, features) && t < |w| && d < features
    requires forall t', d' | 0 <= t' < |w| && 0 <= d' < features ::
      h'[t'][d'] == h[t'][d'] + (if t' == t && d' == d then delta else 0.0)
    ensures Combine(w, h', features)[d] == Combine(w, h, features)[d] + w[t] * delta
    ensures forall d' | 0 <= d' < features && d' != d :: Combine(w, h', features)[d'] == Combine(w, h, features)[d']
  {
    forall d' | 0 <= d' < features
      ensures Combine(w, h', features)[d'] == Combine(w, h, features)[d'] + (if d' == d then w[t] * delta else 0.0)
    {
      TokenTermsHiddenChange(w, h, h', features, t, d, d', delta);
    }
  }

  /** A successful reduction is the weighted token sum of the window's hidden states under its weights. */
  lemma ReduceUnfold(hs: HiddenStates, att: Attentions, numLayers: int)
    requires Reduce(hs, att, numLayers).Ok?
    ensures Precheck(hs, att, numLayers) == None
    ensures Weights(att, numLayers as nat).Ok?
    ensures IsMatrix(Weights(att, numLayers as nat).value, hs.batch, hs.tokens)
    ensures Reduce(hs, att, numLayers).value
         == WeightedTokenSum(HiddenSum(hs, numLayers as nat), Weights(att, numLayers as nat).value, hs.batch, hs.tokens, hs.features)
  {
  }

  /** Every token term of feature `d` is the token's weight times `c` when every token after the first carries `c` there. */
  lemma TokenTermsScaled(w: Vector, h: Matrix, features: nat, d: nat, c: real)
    requires IsMatrix(h, |w|, features) && d < features
    requires |w| >= 1 && w[0] == 0.0
    requires forall t | 1 <= t < |w| :: h[t][d] == c
    ensures forall t | 0 <= t < |w| :: TokenTerms(w, h, d)[t] == w[t] * c
  {
    var terms := TokenTerms(w, h, d);
    forall t | 0 <= t < |w|
      ensures terms[t] == w[t] * c
    {
      if t == 0 {
        ZeroFactor(w[0], h[0][d]);
        ZeroFactor(w[0], c);
      }
    }
  }

  /** Feature `d` of the weighted sum when every token after the first carries `c` there. */
  lemma TokenTermsUniform(w: Vector, h: Matrix, features: nat, d: nat, c: real)
    requires IsMatrix(h, |w|, features) && d < features
    requires |w| >= 1 && w[0] == 0.0
    requires forall t | 1 <= t < |w| :: h[t][d] == c
    ensures Sum(TokenTerms(w, h, d)) == Sum(w) * c
  {
    TokenTermsScaled(w, h, features, d, c);
    SumScale(w, TokenTerms(w, h, d), c);
  }

  /** Weights with a zero first entry that sum to one, over rows equal to `v` after the first, give `v`. */
  lemma CombineUniform(w: Vector, h: Matrix, features: nat, v: Vector)
    requires IsMatrix(h, |w|, features) && |v| == features
    requires |w| >= 1 && w[0] == 0.0 && Sum(w) == 1.0
    requires forall t | 1 <= t < |w| :: h[t] == v
    ensures Combine(w, h, features) == v
  {
    forall d | 0 <= d < features
      ensures Combine(w, h, features)[d] == v[d]
    {
      forall t | 1 <= t < |w|
        ensures h[t][d] == v[d]
      {
        assert h[t] == v;
      }
      TokenTermsUniform(w, h, features, d, v[d]);
    }
  }

  /**
   * Lines 99-100 form a weighted average of the patch tokens: if every patch
   * token of image `i` carries the same summed hidden vector `v`, the
   * embedding of image `i` is `v`.
   */
  lemma UniformPatchTokens(hs: HiddenStates, att: Attentions, numLayers: int, i: nat, v: Vector)
    requires Reduce(hs, att, numLayers).Ok? && i < hs.batch && |v| == hs.features
    requires forall t | 1 <= t < hs.tokens :: HiddenSum(hs, numLayers)[i][t] == v
    ensures Reduce(hs, att, numLayers).value[i] == v
  {
    var k := numLayers as nat;
    ReduceUnfold(hs, att, numLayers);
    var w := Weights(att, k).value;
    var h := HiddenSum(hs, k);
    assert Reduce(hs, att, numLayers).value[i] == Combine(w[i], h[i], hs.features);
    CombineUniform(w[i], h[i], hs.features, v);
  }

  /** Hidden stacks that agree on a patch token of an image agree on its summed hidden vector. */
  lemma HiddenSumAgrees(hs: HiddenStates, hs': HiddenStates, k: nat, i: nat, t: nat)
    requires hs.Conforms() && hs'.Conforms() && k <= |hs.layers|
    requires |hs.layers| == |hs'.layers| && hs.batch == hs'.batch && hs.tokens == hs'.tokens && hs.features == hs'.features
    requires i < hs.batch && t < hs.tokens
    requires forall l | 0 <= l < |hs.layers| :: hs.layers[l][i][t] == hs'.layers[l][i][t]
    ensures HiddenSum(hs, k)[i][t] == HiddenSum(hs', k)[i][t]
  {
    var hw, hw' := Window(hs.layers, k), Window(hs'.layers, k);
    forall d | 0 <= d < hs.features
      ensures HiddenSum(hs, k)[i][t][d] == HiddenSum(hs', k)[i][t][d]
    {
      assert AcrossLayers(hw, hs.batch, hs.tokens, hs.features, i, t, d)
          == AcrossLayers(hw', hs.batch, hs.tokens, hs.features, i, t, d);
    }
  }

  /** With a zero class-token weight, the weighted sum ignores the class token's hidden vector. */
  lemma WeightedSumIgnoresClassToken(h: Tensor3, h': Tensor3, w: Matrix, batch: nat, tokens: nat, features: nat)
    requires IsTensor3(h, batch, tokens, features) && IsTensor3(h', batch, tokens, features)
    requires IsMatrix(w, batch, tokens) && tokens >= 1
    requires forall i | 0 <= i < batch :: w[i][0] == 0.0
    requires forall i, t | 0 <= i < batch && 1 <= t < tokens :: h[i][t] == h'[i][t]
    ensures WeightedTokenSum(h, w, batch, tokens, features) == WeightedTokenSum(h', w, batch, tokens, features)
  {
    forall i, d | 0 <= i < batch && 0 <= d < features
      ensures TokenTerms(w[i], h[i], d) == TokenTerms(w[i], h'[i], d)
    {
      forall t | 0 <= t < tokens
        ensures TokenTerms(w[i], h[i], d)[t] == TokenTerms(w[i], h'[i], d)[t]
      {
        if t == 0 {
          assert w[i][t] == 0.0;
        }
      }
    }
    forall i | 0 <= i < batch
      ensures Combine(w[i], h[i], features) == Combine(w[i], h'[i], features)
    {
    }
  }

  /**
   * Line 94: the class token's hidden state never contributes: two hidden
   * stacks that differ only at token 0 give the same result.
   */
  lemma ClassTokenHiddenIgnored(hs: HiddenStates, hs': HiddenStates, att: Attentions, numLayers: int)
    requires hs.Conforms() && hs'.Conforms()
    requires |hs.layers| == |hs'.layers| && hs.batch == hs'.batch && hs.tokens == hs'.tokens && hs.features == hs'.features
    requires forall l, i, t | 0 <= l < |hs.layers| && 0 <= i < hs.batch && 1 <= t < hs.tokens ::
      hs.layers[l][i][t] == hs'.layers[l][i][t]
    ensures Reduce(hs, att, numLayers) == Reduce(hs', att, numLayers)
  {
    assert Precheck(hs, att, numLayers) == Precheck(hs', att, numLayers);
    if Precheck(hs, att, numLayers) == None && Weights(att, numLayers as nat).Ok? {
      var k := numLayers as nat;
      WeightsDistribution(att, k);
      var w := Weights(att, k).value;
      var h, h' := HiddenSum(hs, k), HiddenSum(hs', k);
      forall i, t | 0 <= i < hs.batch && 1 <= t < hs.tokens
        ensures h[i][t] == h'[i][t]
      {
        HiddenSumAgrees(hs, hs', k, i, t);
      }
      WeightedSumIgnoresClassToken(h, h', w, hs.batch, hs.tokens, hs.features);
    }
  }

  /**
   * A worked example: one image, one layer, one head,
   * a class token and two patch tokens of four features. Every query gives
   * the keys 0.5, 0.3 and 0.2; clearing the class token and normalising
   * leaves 0.6 and 0.4.
   */
  const ExampleImage: Matrix := [[1.0, 1.0, 1.0, 1.0], [2.0, 0.0, 0.0, 0.0], [0.0, 2.0, 0.0, 0.0]]
  const ExampleHidden := HiddenStates([[ExampleImage]], 1, 3, 4)
  const ExampleAttention := Attentions([[[[[0.5, 0.3, 0.2], [0.5, 0.3, 0.2], [0.5, 0.3, 0.2]]]]], 1, 1, 3)

  lemma ExampleWeights()
    ensures ExampleAttention.Conforms()
    ensures Weights(ExampleAttention, 1) == Ok([[0.0, 0.6, 0.4]])
  {
    var att := ExampleAttention;
    assert att.Conforms();
    MeanOfConstantAttention(att, 1, 0, 0, 0.5);
    MeanOfConstantAttention(att, 1, 0, 1, 0.3);
    MeanOfConstantAttention(att, 1, 0, 2, 0.2);
    var z := ClassTokenZeroed(Reduced(att, 1));
    assert z[0] == [0.0, 0.3, 0.2];
    assert Sum([0.2]) == 0.2;
    assert [0.0, 0.3, 0.2][1..] == [0.3, 0.2] && [0.3, 0.2][1..] == [0.2];
    assert Sum(z[0]) == 0.5;
    assert Normalize(z[0]) == [0.0, 0.6, 0.4];
    assert |z| == 1;
    assert NormalizeRows(z).Ok?;
    assert NormalizeRows(z).value[0] == Normalize(z[0]);
    assert NormalizeRows(z).value == [[0.0, 0.6, 0.4]];
  }

  lemma ExampleHiddenSum()
    ensures ExampleHidden.Conforms()
    ensures HiddenSum(ExampleHidden, 1) == [ExampleImage]
  {
    var hs := ExampleHidden;
    assert hs.Conforms();
    HiddenSumOfEqualLayers(hs, 1, hs.layers[0]);
    var h := HiddenSum(hs, 1);
    forall t | 0 <= t < 3
      ensures h[0][t] == ExampleImage[t]
    {
    }
    assert h[0] == ExampleImage;
    assert h == [h[0]];
  }

  lemma ExampleCombine()
    ensures Combine([0.0, 0.6, 0.4], ExampleImage, 4) == [1.2, 0.8, 0.0, 0.0]
  {
    var e := Combine([0.0, 0.6, 0.4], ExampleImage, 4);
    forall d | 0 <= d < 4
      ensures e[d] == [1.2, 0.8, 0.0, 0.0][d]
    {
      var terms := TokenTerms([0.0, 0.6, 0.4], ExampleImage, d);
      assert terms[1..][1..] == [terms[2]];
      assert Sum([terms[2]]) == terms[2];
      assert Sum(terms) == terms[0] + terms[1] + terms[2];
    }
  }

  lemma WorkedExample()
    ensures Reduce(ExampleHidden, ExampleAttention, 1) == Ok([[1.2, 0.8, 0.0, 0.0]])
  {
    ExampleWeights();
    ExampleHiddenSum();
    ExampleCombine();
    var e := WeightedTokenSum([ExampleImage], [[0.0, 0.6, 0.4]], 1, 3, 4);
    assert e[0] == Combine([0.0, 0.6, 0.4], ExampleImage, 4);
    assert e == [e[0]];
  }
}
