/** What the network operations promise, stated over the pure specification. */
module NetworkProperties {
  import opened Errors
  import opened LayerConfigs
  import opened LayerSpec
  import opened NetworkSpec

  /** The network function reads only the biases and weights of the layers it passes. */
  lemma {:induction false} FeedParams(cs: seq<LayerConfig>, ss: seq<LayerState>, ss2: seq<LayerState>, j: nat, k: nat, x: seq<real>)
    requires Fits(cs, ss) && Fits(cs, ss2) && j <= k <= |ss|
    requires forall l :: j <= l < k ==> ss[l].bias == ss2[l].bias && ss[l].weights == ss2[l].weights
    ensures Feed(cs, ss, j, k, x) == Feed(cs, ss2, j, k, x)
    decreases k - j
  {
    if j < k && !(cs[j].numberOfNeurons > 0 && |x| != cs[j].numberOfNeuronsPreviousLayer) {
      assert LayerOutput(cs[j], ss[j], x) == LayerOutput(cs[j], ss2[j], x);
      FeedParams(cs, ss, ss2, j + 1, k, LayerOutput(cs[j], ss[j], x));
    }
  }

  /** The `Predict` loop from layer `j` computes the network function of layers `j..`,
      and on success every neuron of every layer `k >= j` has cached exactly what layers
      `j..k-1` made of `x`: each layer is given its predecessor's output, in order. */
  lemma {:induction false} ForwardIsFeed(cs: seq<LayerConfig>, ss: seq<LayerState>, j: nat, x: seq<real>)
    requires Fits(cs, ss) && j <= |ss|
    ensures Forward(cs, ss, j, x).1 == Feed(cs, ss, j, |ss|, x)
    ensures Forward(cs, ss, j, x).1.Success? ==>
      forall k :: j <= k < |ss| ==>
        && Feed(cs, ss, j, k, x).Success?
        && forall i :: 0 <= i < cs[k].numberOfNeurons ==> Forward(cs, ss, j, x).0[k].inputs[i] == Feed(cs, ss, j, k, x).value
    decreases |ss| - j
  {
    if j < |ss| {
      var step := Compute(cs[j], ss[j], x);
      if step.1.Success? {
        var ss', y := ss[j := step.0], step.1.value;
        assert y == LayerOutput(cs[j], ss[j], x);
        ForwardIsFeed(cs, ss', j + 1, y);
        forall k {:trigger Feed(cs, ss, j + 1, k, y)} | j + 1 <= k <= |ss| ensures Feed(cs, ss', j + 1, k, y) == Feed(cs, ss, j + 1, k, y) {
          FeedParams(cs, ss', ss, j + 1, k, y);
        }
      }
    }
  }

  /** `Predict` is the network function of all layers, and leaves layer `k` holding the
      output of layers `0..k-1` (layer 0 holding the input itself). */
  lemma PredictIsFeed(cs: seq<LayerConfig>, ss: seq<LayerState>, x: seq<real>)
    requires Fits(cs, ss) && |ss| > 0
    ensures Predict(cs, ss, x).1 == Feed(cs, ss, 0, |ss|, x)
    ensures Predict(cs, ss, x).1.Success? ==>
      && (forall i :: 0 <= i < cs[0].numberOfNeurons ==> Predict(cs, ss, x).0[0].inputs[i] == x)
      && forall k :: 1 <= k < |ss| ==>
           && Feed(cs, ss, 0, k, x).Success?
           && forall i :: 0 <= i < cs[k].numberOfNeurons ==> Predict(cs, ss, x).0[k].inputs[i] == Feed(cs, ss, 0, k, x).value
  {
    ForwardIsFeed(cs, ss, 0, x);
  }

  /** The hidden passes from layer `j` down change only the biases, weights and momentum
      of layers under `j`, and fail only on a too-short gradient vector. */
  lemma {:induction false} HiddenFromFrame(cs: seq<LayerConfig>, ss: seq<LayerState>, j: nat, g: seq<real>)
    requires AllPrimed(cs, ss) && j <= |ss|
    ensures forall k :: 0 <= k < |ss| ==> SameCaches(HiddenFrom(cs, ss, j, g).0[k], ss[k])
    ensures forall k :: j <= k < |ss| ==> HiddenFrom(cs, ss, j, g).0[k] == ss[k]
    ensures HiddenFrom(cs, ss, j, g).1.Failure? ==> HiddenFrom(cs, ss, j, g).1.error == IndexOutOfRange
    decreases j
  {
    if j > 0 {
      var (s', h) := HiddenBackward(cs[j - 1], ss[j - 1], g);
      if h.Success? {
        HiddenFromFrame(cs, ss[j - 1 := s'], j - 1, h.value);
      }
    }
  }

  /** The backward half of a sample keeps every cached input and derivative. */
  lemma BackwardKeepsCaches(cs: seq<LayerConfig>, ss: seq<LayerState>, e: seq<real>)
    requires AllPrimed(cs, ss) && |ss| > 0
    ensures forall k :: 0 <= k < |ss| ==> SameCaches(Backward(cs, ss, e).0[k], ss[k])
  {
    var top := |ss| - 1;
    var (s', g) := OutputBackward(cs[top], ss[top], e);
    if g.Success? {
      HiddenFromFrame(cs, ss[top := s'], top, g.value);
    }
  }

  /** The backward half of a sample starts at the output layer: the top layer ends in the
      state its output pass leaves, whatever the hidden passes below it do. */
  lemma BackwardOutputFirst(cs: seq<LayerConfig>, ss: seq<LayerState>, e: seq<real>)
    requires AllPrimed(cs, ss) && |ss| > 0
    ensures Backward(cs, ss, e).0[|ss| - 1] == OutputBackward(cs[|ss| - 1], ss[|ss| - 1], e).0
  {
    var top := |ss| - 1;
    var (s', g) := OutputBackward(cs[top], ss[top], e);
    if g.Success? {
      HiddenFromFrame(cs, ss[top := s'], top, g.value);
    }
  }

  /** The layer under the output layer runs its hidden pass on exactly the gradient sums
      the output pass returned, and the layers under it only after that. */
  lemma BackwardHandsDown(cs: seq<LayerConfig>, ss: seq<LayerState>, e: seq<real>)
    requires AllPrimed(cs, ss) && |ss| > 1
    requires OutputBackward(cs[|ss| - 1], ss[|ss| - 1], e).1.Success?
    ensures Backward(cs, ss, e).0[|ss| - 2] ==
      HiddenBackward(cs[|ss| - 2], ss[|ss| - 2], OutputBackward(cs[|ss| - 1], ss[|ss| - 1], e).1.value).0
  {
    var top := |ss| - 1;
    var (s', g) := OutputBackward(cs[top], ss[top], e);
    var ss1 := ss[top := s'];
    var (s2, h) := HiddenBackward(cs[top - 1], ss1[top - 1], g.value);
    if h.Success? {
      HiddenFromFrame(cs, ss1[top - 1 := s2], top - 1, h.value);
    }
  }

  /** Each sample's error overwrites its entry of the error vector, so from sample `i` on
      an epoch does not depend on the entries `i..` it starts with. */
  lemma {:induction false} EpochOverwrites(cs: seq<LayerConfig>, ss: seq<LayerState>, ts: seq<Sample>, i: nat, m1: seq<real>, m2: seq<real>)
    requires Fits(cs, ss) && i <= |ts| && |m1| == |ts| && |m2| == |ts|
    requires forall k :: 0 <= k < i ==> m1[k] == m2[k]
    ensures Epoch(cs, ss, ts, i, m1) == Epoch(cs, ss, ts, i, m2)
    decreases |ts| - i
  {
    if i == |ts| {
      assert m1 == m2;
    } else {
      var t := TrainSample(cs, ss, ts[i]);
      if t.1.Success? {
        var v := t.1.value;
        assert Epoch(cs, ss, ts, i, m1) == Epoch(cs, t.0, ts, i + 1, m1[i := v]);
        assert Epoch(cs, ss, ts, i, m2) == Epoch(cs, t.0, ts, i + 1, m2[i := v]);
        EpochOverwrites(cs, t.0, ts, i + 1, m1[i := v], m2[i := v]);
      }
    }
  }

  /** A whole epoch, and so the cost computed from it, depends only on the samples of
      this epoch and not on the error vector left by the previous one. */
  lemma EpochForgetsPrevious(cs: seq<LayerConfig>, ss: seq<LayerState>, ts: seq<Sample>, m1: seq<real>, m2: seq<real>)
    requires Fits(cs, ss) && |m1| == |ts| && |m2| == |ts|
    ensures Epoch(cs, ss, ts, 0, m1) == Epoch(cs, ss, ts, 0, m2)
  {
    EpochOverwrites(cs, ss, ts, 0, m1, m2);
  }

  /** So the error vector training starts from is irrelevant: the zero vector of
      `TrainBackProp` could be any vector of the right size. */
  lemma TrainIgnoresStartingErrors(cs: seq<LayerConfig>, ss: seq<LayerState>, ts: seq<Sample>, threshold: real,
                                   m1: seq<real>, m2: seq<real>, epoch: nat, fuel: nat)
    requires Fits(cs, ss) && |m1| == |ts| && |m2| == |ts| && fuel >= 1
    ensures TrainFrom(cs, ss, ts, threshold, m1, epoch, fuel) == TrainFrom(cs, ss, ts, threshold, m2, epoch, fuel)
  {
    EpochForgetsPrevious(cs, ss, ts, m1, m2);
  }
}
