/**
 * The attention-weighted reducer (`create_embeddings`): the hidden states of
 * the last `numLayers` encoder layers are summed, the attention each key token
 * receives is averaged over those layers, all heads and all query tokens, the
 * class token's weight is set to zero, each image's weights are divided by
 * their sum, and each image's embedding is the weighted sum of its token
 * vectors.
 *
 * The encoder's forward pass is not modelled: its two outputs are the inputs
 * here, each a stack of per-layer tensors together with the shape it declares.
 * Where the original raises an exception or produces NaN, the model returns
 * a `ReduceError`.
 */
module Reducer {
  import opened Wrappers
  import opened Tensors

  /** Hidden states: one (batch, tokens, features) tensor per encoder layer. */
  datatype HiddenStates = HiddenStates(layers: seq<Tensor3>, batch: nat, tokens: nat, features: nat)
  {
    predicate Conforms() {
      forall l | 0 <= l < |layers| :: IsTensor3(layers[l], batch, tokens, features)
    }
  }

  /** Attentions: one (batch, heads, query token, key token) tensor per encoder layer. */
  datatype Attentions = Attentions(layers: seq<Tensor4>, batch: nat, heads: nat, tokens: nat)
  {
    predicate Conforms() {
      forall l | 0 <= l < |layers| :: IsTensor4(layers[l], batch, heads, tokens, tokens)
    }
  }

  datatype ReduceError =
    | ShapeMismatch          // the two stacks disagree on the batch or token axis
    | LayerWindowOutOfRange  // numLayers < 1 (nothing to stack) or deeper than a stack
    | NoClassToken           // the token axis is empty, so there is no index 0 to clear
    | NoHeads                // the head axis is empty, so the mean is undefined
    | DegenerateWeights      // an image's patch-token weights sum to zero

  /** The last `k` layers of a stack: Python's indices -k .. -1. */
  function Window<X>(layers: seq<X>, k: nat): (w: seq<X>)
    requires k <= |layers|
    ensures |w| == k
    ensures forall j | 0 <= j < k :: w[j] == layers[|layers| - k + j]
  {
    layers[|layers| - k..]
  }

  /**
   * The checks that come before any arithmetic can go wrong, in the order the
   * original meets them:
   * - the hidden-state window is indexed and stacked (line 83), then the
   *   attention window (line 86);
   * - index 0 is cleared (line 94);
   * - the weights are broadcast against the hidden states (line 99);
   * - the mean is taken over the head axis (line 90, NaN in the original when
   *   that axis is empty).
   * A stack passes its shape check when every one of its layers, not only
   * those in the window, has the declared shape.
   */
  function Precheck(hs: HiddenStates, att: Attentions, numLayers: int): (r: Option<ReduceError>)
    ensures r.None? <==>
      && hs.Conforms() && att.Conforms()
      && 1 <= numLayers <= |hs.layers| && numLayers <= |att.layers|
      && hs.batch == att.batch && hs.tokens == att.tokens
      && att.tokens >= 1 && att.heads >= 1
    ensures numLayers < 1 || numLayers > |hs.layers| ==> r == Some(LayerWindowOutOfRange)
    ensures hs.Conforms() && 1 <= numLayers <= |hs.layers| && numLayers > |att.layers| ==> r == Some(LayerWindowOutOfRange)
    ensures r == Some(LayerWindowOutOfRange) ==> numLayers < 1 || numLayers > |hs.layers| || numLayers > |att.layers|
    ensures r == Some(NoClassToken) ==> att.tokens == 0
    ensures r == Some(NoHeads) ==> att.heads == 0 && att.tokens >= 1 && hs.tokens == att.tokens
    ensures r != Some(DegenerateWeights)
  {
    if numLayers < 1 || numLayers > |hs.layers| then Some(LayerWindowOutOfRange)
    else if !hs.Conforms() then Some(ShapeMismatch)
    else if numLayers > |att.layers| then Some(LayerWindowOutOfRange)
    else if !att.Conforms() then Some(ShapeMismatch)
    else if att.tokens == 0 then Some(NoClassToken)
    else if hs.batch != att.batch || hs.tokens != att.tokens then Some(ShapeMismatch)
    else if att.heads == 0 then Some(NoHeads)
    else None
  }

  /** The entry (i, t, d) of every layer of a window, in layer order. */
  function AcrossLayers(w: seq<Tensor3>, batch: nat, tokens: nat, features: nat, i: nat, t: nat, d: nat): (r: Vector)
    requires forall l | 0 <= l < |w| :: IsTensor3(w[l], batch, tokens, features)
    requires i < batch && t < tokens && d < features
    ensures |r| == |w|
  {
    seq(|w|, l requires 0 <= l < |w| =>
      assert IsTensor3(w[l], batch, tokens, features); w[l][i][t][d])
  }

  /** Lines 82-84: the element-wise sum of the hidden states of a window of layers. */
  function LayerSum(w: seq<Tensor3>, batch: nat, tokens: nat, features: nat): (r: Tensor3)
    requires forall l | 0 <= l < |w| :: IsTensor3(w[l], batch, tokens, features)
    ensures IsTensor3(r, batch, tokens, features)
  {
    seq(batch, i requires 0 <= i < batch =>
      seq(tokens, t requires 0 <= t < tokens =>
        seq(features, d requires 0 <= d < features =>
          Sum(AcrossLayers(w, batch, tokens, features, i, t, d)))))
  }

  /** The attention one layer's heads give key token `t`, summed over heads and query tokens. */
  function ReceivedMass(a: Tensor3, heads: nat, tokens: nat, t: nat): real
    requires IsTensor3(a, heads, tokens, tokens) && t < tokens
  {
    Sum(seq(heads, h requires 0 <= h < heads =>
      Sum(seq(tokens, q requires 0 <= q < tokens => a[h][q][t]))))
  }

  /** The attention key token `t` of image `i` receives in every layer of a window, in layer order. */
  function LayerMasses(w: seq<Tensor4>, batch: nat, heads: nat, tokens: nat, i: nat, t: nat): (r: Vector)
    requires forall l | 0 <= l < |w| :: IsTensor4(w[l], batch, heads, tokens, tokens)
    requires i < batch && t < tokens
    ensures |r| == |w|
  {
    seq(|w|, l requires 0 <= l < |w| =>
      assert IsTensor4(w[l], batch, heads, tokens, tokens); ReceivedMass(w[l][i], heads, tokens, t))
  }

  /**
   * Lines 86-90: after moving the batch axis first, the mean over layers, heads
   * and query tokens, one weight per (image, key token).
   */
  function MeanAttention(w: seq<Tensor4>, batch: nat, heads: nat, tokens: nat): (r: Matrix)
    requires |w| >= 1 && heads >= 1 && tokens >= 1
    requires forall l | 0 <= l < |w| :: IsTensor4(w[l], batch, heads, tokens, tokens)
    ensures IsMatrix(r, batch, tokens)
  {
    var n := (|w| * heads * tokens) as real;
    assert n > 0.0 by { assert |w| * heads >= 1; }
    seq(batch, i requires 0 <= i < batch =>
      seq(tokens, t requires 0 <= t < tokens =>
        Sum(LayerMasses(w, batch, heads, tokens, i, t)) / n))
  }

  /** Line 94 as a value: every row with its class-token entry (index 0) set to zero. */
  function ClassTokenZeroed(m: Matrix): (r: Matrix)
    requires forall i | 0 <= i < |m| :: |m[i]| >= 1
    ensures |r| == |m|
    ensures forall i | 0 <= i < |m| ::
      && |r[i]| == |m[i]| && r[i][0] == 0.0
      && forall t | 1 <= t < |m[i]| :: r[i][t] == m[i][t]
  {
    seq(|m|, i requires 0 <= i < |m| => m[i][0 := 0.0])
  }

  /** A weight vector divided by its own sum. */
  function Normalize(v: Vector): (r: Vector)
    requires Sum(v) != 0.0
    ensures |r| == |v|
    ensures forall t | 0 <= t < |v| :: r[t] * Sum(v) == v[t]
    ensures Sum(r) == 1.0
  {
    var r := seq(|v|, t requires 0 <= t < |v| => v[t] / Sum(v));
    SumScale(v, r, 1.0 / Sum(v));
    r
  }

  /** Lines 95-97: each row divided by its sum; a zero sum (NaN in the original) is an error. */
  function NormalizeRows(m: Matrix): (r: Result<Matrix, ReduceError>)
    ensures r.Err? <==> exists i | 0 <= i < |m| :: Sum(m[i]) == 0.0
    ensures r.Err? ==> r.error == DegenerateWeights
    ensures r.Ok? ==> |r.value| == |m|
    ensures r.Ok? ==> forall i | 0 <= i < |m| ::
      && |r.value[i]| == |m[i]| && Sum(r.value[i]) == 1.0
      && forall t | 0 <= t < |m[i]| :: r.value[i][t] * Sum(m[i]) == m[i][t]
  {
    if exists i | 0 <= i < |m| :: Sum(m[i]) == 0.0 then Err(DegenerateWeights)
    else Ok(seq(|m|, i requires 0 <= i < |m| => Normalize(m[i])))
  }

  /** Feature `d` of every token's hidden vector, scaled by that token's weight. */
  function TokenTerms(w: Vector, h: Matrix, d: nat): (r: Vector)
    requires |h| == |w| && forall t | 0 <= t < |h| :: d < |h[t]|
    ensures |r| == |w|
  {
    seq(|w|, t requires 0 <= t < |w| => w[t] * h[t][d])
  }

  /** Lines 99-100 for one image: the sum over tokens of weight times hidden vector. */
  function Combine(w: Vector, h: Matrix, features: nat): (r: Vector)
    requires IsMatrix(h, |w|, features)
    ensures |r| == features
  {
    seq(features, d requires 0 <= d < features => Sum(TokenTerms(w, h, d)))
  }

  /** Lines 99-100: the weighted token sum for every image of the batch. */
  function WeightedTokenSum(h: Tensor3, w: Matrix, batch: nat, tokens: nat, features: nat): (r: Matrix)
    requires IsTensor3(h, batch, tokens, features) && IsMatrix(w, batch, tokens)
    ensures IsMatrix(r, batch, features)
  {
    seq(batch, i requires 0 <= i < batch => Combine(w[i], h[i], features))
  }

  /** The mean attention of the window, before the class token is cleared. */
  function Reduced(att: Attentions, k: nat): (r: Matrix)
    requires att.Conforms() && 1 <= k <= |att.layers| && att.heads >= 1 && att.tokens >= 1
    ensures IsMatrix(r, att.batch, att.tokens)
  {
    MeanAttention(Window(att.layers, k), att.batch, att.heads, att.tokens)
  }

  /** Lines 86-97: the per-token weights of every image. */
  function Weights(att: Attentions, k: nat): (r: Result<Matrix, ReduceError>)
    requires att.Conforms() && 1 <= k <= |att.layers| && att.heads >= 1 && att.tokens >= 1
    ensures r.Err? ==> r.error == DegenerateWeights
    ensures r.Ok? ==> IsMatrix(r.value, att.batch, att.tokens)
    ensures r.Ok? ==> forall i | 0 <= i < att.batch :: r.value[i][0] == 0.0 && Sum(r.value[i]) == 1.0
  {
    NormalizeRows(ClassTokenZeroed(Reduced(att, k)))
  }

  /** Lines 82-84: the summed hidden states of the window. */
  function HiddenSum(hs: HiddenStates, k: nat): (r: Tensor3)
    requires hs.Conforms() && k <= |hs.layers|
    ensures IsTensor3(r, hs.batch, hs.tokens, hs.features)
  {
    LayerSum(Window(hs.layers, k), hs.batch, hs.tokens, hs.features)
  }

  /**
   * Lines 82-100: the embeddings of a batch, one row of `features` reals per
   * image, or the error the original would raise or the NaN it would produce.
   */
  function Reduce(hs: HiddenStates, att: Attentions, numLayers: int): (r: Result<Matrix, ReduceError>)
    ensures r.Ok? ==> IsMatrix(r.value, hs.batch, hs.features)
    ensures r.Ok? ==> Precheck(hs, att, numLayers) == None
  {
    match Precheck(hs, att, numLayers)
    case Some(e) => Err(e)
    case None =>
      var k := numLayers as nat;
      match Weights(att, k)
      case Err(e) => Err(e)
      case Ok(w) =>
        assert IsMatrix(w, hs.batch, hs.tokens);
        Ok(WeightedTokenSum(HiddenSum(hs, k), w, hs.batch, hs.tokens, hs.features))
  }

  /** The contents of a two-dimensional array, row by row. */
  function Rows(a: array2<real>): (m: Matrix)
    reads a
    ensures IsMatrix(m, a.Length0, a.Length1)
  {
    seq(a.Length0, i requires 0 <= i < a.Length0 reads a =>
      seq(a.Length1, t requires 0 <= t < a.Length1 reads a => a[i, t]))
  }

  /** Line 94: `attentions_reweighted[:, 0] = 0.0`, in place. */
  method ZeroClassToken(a: array2<real>)
    requires a.Length1 >= 1
    modifies a
    ensures Rows(a) == ClassTokenZeroed(old(Rows(a)))
  {
    var i := 0;
    while i < a.Length0
      invariant 0 <= i <= a.Length0
      invariant forall p, t | 0 <= p < a.Length0 && 0 <= t < a.Length1 ::
        a[p, t] == if t == 0 && p < i then 0.0 else old(a[p, t])
    {
      a[i, 0] := 0.0;
      i := i + 1;
    }
    ghost var before := old(Rows(a));
    forall p | 0 <= p < a.Length0
      ensures Rows(a)[p] == ClassTokenZeroed(before)[p]
    {
    }
  }

  /**
   * `create_embeddings` after the forward pass: the reduction of lines 82-100,
   * with the class-token weights cleared in place in the tensor that the mean
   * produced (lines 90-94: `attentions_reweighted` aliases `attentions_reduced`).
   */
  method CreateEmbeddings(hs: HiddenStates, att: Attentions, numLayers: int)
    returns (r: Result<Matrix, ReduceError>)
    ensures r == Reduce(hs, att, numLayers)
  {
    var e := Precheck(hs, att, numLayers);
    if e.Some? {
      return Err(e.value);
    }
    var k := numLayers as nat;
    var hidden := HiddenSum(hs, k);
    var reduced := Reduced(att, k);
    assert IsMatrix(reduced, att.batch, att.tokens);
    var attentions := new real[att.batch, att.tokens]((i, t) =>
      if 0 <= i < |reduced| && 0 <= t < |reduced[i]| then reduced[i][t] else 0.0);
    forall i | 0 <= i < att.batch
      ensures Rows(attentions)[i] == reduced[i]
    {
    }
    assert Rows(attentions) == reduced;
    ZeroClassToken(attentions);
    var weights := NormalizeRows(Rows(attentions));
    if weights.Err? {
      return Err(weights.error);
    }
    r := Ok(WeightedTokenSum(hidden, weights.value, hs.batch, hs.tokens, hs.features));
  }
}
