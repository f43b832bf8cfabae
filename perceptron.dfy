/** The perceptron object: a fixed sequence of layer objects, each owning its own
    arrays, and the cost its last finished training ended with. */
module Perceptrons {
  import opened Errors
  import opened Vectors
  import opened LayerConfigs
  import opened LayerSpec
  import opened Layers
  import opened NetworkSpec

  class Perceptron {
    /** `layers`, never replaced after construction */
    const layers: seq<Layer>
    const outputLayerIndex: int
    /** `LastError`; `None` is a NaN cost */
    var lastError: Option<real>

    /** Every array of every layer. */
    ghost const repr: set<object>
    /** The states of the layers, in order. */
    ghost var states: seq<LayerState>

    /** Every layer is well formed, `states` holds their states, and no two layers
        share an array. */
    ghost predicate Valid()
      reads this`states, repr
    {
      Wired() && Tracked()
    }

    /** The layers and their arrays: each layer well formed, its arrays in `repr`, no
        array shared by two layers. None of this changes after construction. */
    ghost predicate Wired() {
      && outputLayerIndex == |layers| - 1
      && this !in repr
      && (forall k :: 0 <= k < |layers| ==> layers[k].Valid() && layers[k].Within(repr))
      && (forall k, l :: 0 <= k < |layers| && 0 <= l < |layers| && k != l ==> layers[k].Apart(layers[l]))
    }

    /** `states` holds the states of the layers, in order, and they fit the configurations. */
    ghost predicate Tracked()
      reads this`states, repr
      requires Wired()
    {
      && |states| == |layers|
      && (forall k {:trigger layers[k].State()} :: 0 <= k < |layers| ==> states[k] == layers[k].State())
      && Fits(Configs(), states)
    }

    function Configs(): (cs: seq<LayerConfig>)
      ensures |cs| == |layers| && forall k :: 0 <= k < |layers| ==> cs[k] == layers[k].config
    {
      seq(|layers|, k requires 0 <= k < |layers| => layers[k].config)
    }

    /** After a call that changed the arrays of layer `j` only, recording that layer's new
        state in `states` restores `Valid()`. */
    twostate lemma Revalidate(j: nat)
      requires old(Valid()) && j < |layers|
      requires forall k :: 0 <= k < |layers| && k != j ==> unchanged(layers[k].Repr())
      requires states == old(states)[j := layers[j].State()]
      ensures Valid()
    {
      forall k | 0 <= k < |layers| && k != j
        ensures layers[k].State() == old(layers[k].State())
      {
      }
    }

    /** `layers[j].Compute(x)`, seen from the network: only entry `j` of the states moves. */
    method ComputeAt(j: nat, x: seq<real>) returns (o: Result<seq<real>>)
      requires Valid() && j < |layers|
      modifies repr, this`states
      ensures Valid()
      ensures states == old(states)[j := LayerSpec.Compute(layers[j].config, old(states[j]), x).0]
      ensures o == LayerSpec.Compute(layers[j].config, old(states[j]), x).1
    {
      o := layers[j].Compute(x);
      states := states[j := layers[j].State()];
      Revalidate(j);
    }

    /** `layers[outputLayerIndex].ComputeOutputBackward(e)`, seen from the network: the
        output layer takes its pass, and what is left of the backward half is the hidden
        passes under it. */
    method OutputAt(e: seq<real>) returns (g: Result<seq<real>>)
      requires Valid() && |layers| > 0 && AllPrimed(Configs(), states)
      modifies repr, this`states
      ensures Valid() && AllPrimed(Configs(), states)
      ensures g.Failure? ==> (states, g) == Backward(Configs(), old(states), e)
      ensures g.Success? ==> HiddenFrom(Configs(), states, outputLayerIndex, g.value) == Backward(Configs(), old(states), e)
    {
      g := layers[outputLayerIndex].ComputeOutputBackward(e);
      states := states[outputLayerIndex := layers[outputLayerIndex].State()];
      Revalidate(outputLayerIndex);
    }

    /** `layers[j].ComputeHiddenBackward(gs)`, seen from the network: layer `j` takes
        its hidden pass, and what is left to do is the hidden passes under it. */
    method HiddenAt(j: nat, gs: seq<real>) returns (g: Result<seq<real>>)
      requires Valid() && j < |layers| && AllPrimed(Configs(), states)
      modifies repr, this`states
      ensures Valid() && AllPrimed(Configs(), states)
      ensures g.Failure? ==> (states, g) == HiddenFrom(Configs(), old(states), j + 1, gs)
      ensures g.Success? ==> HiddenFrom(Configs(), states, j, g.value) == HiddenFrom(Configs(), old(states), j + 1, gs)
    {
      HiddenFromStep(Configs(), states, j, gs);
      g := layers[j].ComputeHiddenBackward(gs);
      states := states[j := layers[j].State()];
      Revalidate(j);
    }

    /** `new Perceptron(configs)`: one layer per configuration, in order, each built from
        the initial rows the random generator would have drawn for it. */
    constructor (configs: seq<LayerConfig>, rows: seq<seq<seq<real>>>)
      requires |rows| == |configs| && forall k :: 0 <= k < |configs| ==> InitialRows(configs[k], rows[k])
      ensures Valid() && fresh(repr)
      ensures Configs() == configs && outputLayerIndex == |configs| - 1
      ensures |states| == |configs| && forall k :: 0 <= k < |configs| ==> states[k] == Initial(configs[k], rows[k])
      ensures lastError == Some(0.0)
    {
      var ls;
      ghost var r;
      ls, r := NewLayers(configs, rows);
      layers := ls;
      repr := r;
      outputLayerIndex := |configs| - 1;
      lastError := Some(0.0);
      states := seq(|configs|, k requires 0 <= k < |configs| => Initial(configs[k], rows[k]));
    }

    /** `Predict(I)` */
    method Predict(x: seq<real>) returns (r: Result<seq<real>>)
      requires Valid()
      modifies repr, this`states
      ensures Valid()
      ensures (states, r) == NetworkSpec.Predict(Configs(), old(states), x)
    {
      if |layers| == 0 {
        return Failure(IndexOutOfRange);
      }
      ghost var cs := Configs();
      ghost var target := Forward(cs, states, 0, x);
      var oj := ComputeAt(0, x);
      if oj.Failure? {
        return oj;
      }
      for j := 1 to |layers|
        invariant Valid() && oj.Success?
        invariant Forward(cs, states, j, oj.value) == target
      {
        oj := ComputeAt(j, oj.value);
        if oj.Failure? {
          return oj;
        }
      }
      r := oj;
    }

    /** The loop of hidden passes: layers `top-1`, ..., 0 in turn, each given the
        gradient sums the layer above it returned. */
    method HiddenPasses(top: nat, g0: seq<real>) returns (r: Result<seq<real>>)
      requires Valid() && top <= |layers|
      requires AllPrimed(Configs(), states)
      modifies repr, this`states
      ensures Valid()
      ensures (states, r) == HiddenFrom(Configs(), old(states), top, g0)
    {
      ghost var cs := Configs();
      ghost var target := HiddenFrom(cs, states, top, g0);
      r := Success(g0);
      var j: nat := top;
      while j > 0
        invariant j <= top && Valid() && r.Success?
        invariant AllPrimed(cs, states)
        invariant HiddenFrom(cs, states, j, r.value) == target
      {
        j := j - 1;
        r := HiddenAt(j, r.value);
        if r.Failure? {
          return;
        }
      }
      assert HiddenFrom(cs, states, 0, r.value) == (states, r);
    }

    /** The backward half of one sample (the body of the inner loop of `TrainBackProp`
        after the error vector is known): the output layer's pass on `e`, then the
        hidden passes from layer `outputLayerIndex - 1` down to 0. */
    method Backpropagate(e: seq<real>) returns (r: Result<seq<real>>)
      requires Valid() && |layers| > 0 && AllPrimed(Configs(), states)
      modifies repr, this`states
      ensures Valid()
      ensures (states, r) == Backward(Configs(), old(states), e)
    {
      var gsums := OutputAt(e);
      if gsums.Failure? {
        return gsums;
      }
      r := HiddenPasses(outputLayerIndex, gsums.value);
    }

    /** One pass of the sample loop of `TrainBackProp`: predict, take `Y - O`, its error,
        and propagate it back. */
    method TrainSample(t: Sample) returns (r: Result<real>)
      requires Valid()
      modifies repr, this`states
      ensures Valid()
      ensures (states, r) == NetworkSpec.TrainSample(Configs(), old(states), t)
    {
      var o := Predict(t.x);
      if o.Failure? {
        return Failure(o.error);
      }
      var e := Sub(t.y, o.value);
      if e.Failure? {
        return Failure(e.error);
      }
      var mse := GetMSE(e.value);
      var g := Backpropagate(e.value);
      if g.Failure? {
        return Failure(g.error);
      }
      r := Success(mse);
    }

    /** Sample `i` of an epoch: trained, and its error written to `mses[i]`; what is left
        of the epoch is the samples after it. */
    method TrainAt(trainset: seq<Sample>, i: nat, mses: array<real>) returns (r: Result<()>)
      requires Valid() && i < |trainset| && mses.Length == |trainset| && mses !in repr
      modifies repr, this`states, mses
      ensures Valid()
      ensures r.Failure? ==> (states, Failure(r.error)) == Epoch(Configs(), old(states), trainset, i, old(mses[..]))
      ensures r.Success? ==> Epoch(Configs(), states, trainset, i + 1, mses[..]) == Epoch(Configs(), old(states), trainset, i, old(mses[..]))
    {
      var m := TrainSample(trainset[i]);
      if m.Failure? {
        return Failure(m.error);
      }
      mses[i] := m.value;
      r := Success(());
    }

    /** The sample loop of one epoch of `TrainBackProp`: every sample in order is
        trained, and its error is written to its entry of `mses`. On success the result
        holds the errors of the epoch. */
    method TrainEpoch(trainset: seq<Sample>, mses: array<real>) returns (r: Result<seq<real>>)
      requires Valid() && mses.Length == |trainset| && mses !in repr
      modifies repr, this`states, mses
      ensures Valid()
      ensures (states, r) == Epoch(Configs(), old(states), trainset, 0, old(mses[..]))
      ensures r.Success? ==> r.value == mses[..]
    {
      ghost var cs := Configs();
      ghost var target := Epoch(cs, states, trainset, 0, mses[..]);
      for i := 0 to |trainset|
        invariant Valid()
        invariant Epoch(cs, states, trainset, i, mses[..]) == target
      {
        var m := TrainAt(trainset, i, mses);
        if m.Failure? {
          return Failure(m.error);
        }
      }
      r := Success(mses[..]);
    }

    /** The body of the do-while of `TrainBackProp`, for epoch number `epoch + 1` with
        `left` epochs of the budget `maxEpochs` left: an epoch, its cost, and the test
        `epochCost > threshold`. `again` says the loop goes on; otherwise `r` is how
        training ends. */
    method RunEpoch(trainset: seq<Sample>, threshold: real, mses: array<real>, epoch: nat, maxEpochs: nat, ghost left: nat)
      returns (r: Result<Training>, again: bool)
      requires Valid() && mses.Length == |trainset| && mses !in repr && left >= 1 && epoch + left == maxEpochs
      modifies repr, this`states, mses
      ensures Valid()
      ensures !again ==> (states, r) == TrainFrom(Configs(), old(states), trainset, threshold, old(mses[..]), epoch, left)
      ensures again ==> left > 1
      ensures again ==>
        TrainFrom(Configs(), old(states), trainset, threshold, old(mses[..]), epoch, left) ==
          TrainFrom(Configs(), states, trainset, threshold, mses[..], epoch + 1, left - 1)
    {
      var m := TrainEpoch(trainset, mses);
      if m.Failure? {
        return Failure(m.error), false;
      }
      var epochCost := GetCost(mses[..]);
      r := Success(if Above(epochCost, threshold) then Unfinished(epochCost, epoch + 1) else Finished(epochCost, epoch + 1));
      again := Above(epochCost, threshold) && epoch + 1 < maxEpochs;
    }

    /** The do-while of `TrainBackProp`: epochs until the cost is at or under the
        threshold, or `maxEpochs` epochs have run. */
    method TrainLoop(trainset: seq<Sample>, threshold: real, mses: array<real>, maxEpochs: nat) returns (r: Result<Training>)
      requires Valid() && mses.Length == |trainset| && mses !in repr && maxEpochs >= 1
      modifies repr, this`states, mses
      ensures Valid()
      ensures (states, r) == TrainFrom(Configs(), old(states), trainset, threshold, old(mses[..]), 0, maxEpochs)
    {
      ghost var cs := Configs();
      var epoch := 0;
      ghost var left := maxEpochs;
      ghost var target := TrainFrom(cs, states, trainset, threshold, mses[..], epoch, left);
      while true
        invariant Valid() && left >= 1 && epoch + left == maxEpochs
        invariant TrainFrom(cs, states, trainset, threshold, mses[..], epoch, left) == target
        decreases left
      {
        var again;
        r, again := RunEpoch(trainset, threshold, mses, epoch, maxEpochs, left);
        if !again {
          return;
        }
        epoch, left := epoch + 1, left - 1;
      }
    }

    /** `TrainBackProp(trainset, threshold)`, stopped after `maxEpochs` epochs if the
        cost has not come down by then. `LastError` is set when the loop is left with a
        cost at or under the threshold. */
    method TrainBackProp(trainset: seq<Sample>, threshold: real, maxEpochs: nat) returns (r: Result<Training>)
      requires Valid() && maxEpochs >= 1
      modifies repr, this`states, this`lastError
      ensures Valid()
      ensures (states, r) == Train(Configs(), old(states), trainset, threshold, maxEpochs)
      ensures lastError == if r.Success? && r.value.Finished? then r.value.cost else old(lastError)
    {
      var mses := ZeroArray(|trainset|);
      TrainStart(Configs(), states, trainset, threshold, mses[..], maxEpochs);
      r := TrainLoop(trainset, threshold, mses, maxEpochs);
      if r.Success? && r.value.Finished? {
        lastError := r.value.cost;
      }
    }
  }

  /** The layers of `new Perceptron(configs)`, built in order, each from its own fresh
      arrays; `r` collects those arrays. */
  method NewLayers(configs: seq<LayerConfig>, rows: seq<seq<seq<real>>>) returns (ls: seq<Layer>, ghost r: set<object>)
    requires |rows| == |configs| && forall k :: 0 <= k < |configs| ==> InitialRows(configs[k], rows[k])
    ensures |ls| == |configs| && fresh(r)
    ensures forall k :: 0 <= k < |ls| ==> ls[k].Valid() && ls[k].config == configs[k] && ls[k].Within(r)
    ensures forall k :: 0 <= k < |ls| ==> ls[k].State() == Initial(configs[k], rows[k])
    ensures forall k, l :: 0 <= k < |ls| && 0 <= l < |ls| && k != l ==> ls[k].Apart(ls[l])
  {
    ls, r := [], {};
    for i := 0 to |configs|
      invariant |ls| == i && fresh(r)
      invariant forall k :: 0 <= k < i ==> ls[k].Valid() && ls[k].config == configs[k] && ls[k].Within(r)
      invariant forall k :: 0 <= k < i ==> ls[k].State() == Initial(configs[k], rows[k])
      invariant forall k, l :: 0 <= k < i && 0 <= l < i && k != l ==> ls[k].Apart(ls[l])
    {
      var layer := new Layer(configs[i], rows[i]);
      ls := ls + [layer];
      r := r + layer.Repr();
    }
  }

  /** `Vector.GetZeroVector(n)`: a fresh vector of `n` zeros. */
  method ZeroArray(n: nat) returns (a: array<real>)
    ensures fresh(a) && a[..] == seq(n, _ => 0.0)
  {
    a := new real[n];
    forall i | 0 <= i < n {
      a[i] := 0.0;
    }
    assert a[..] == seq(n, _ => 0.0);
  }

}
