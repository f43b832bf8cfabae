/** The layer object: neuron parameters and the momentum matrix live in arrays that
    the backward passes update in place. Neuron `i` of the source is index `i` of
    `bias`, row `i` of `weights`, entry `i` of `inputs` and of `derivs`. */
module Layers {
  import opened Errors
  import opened Vectors
  import opened LayerConfigs
  import opened LayerSpec

  /** Row `i` of a matrix. */
  function RowOf(a: array2<real>, i: nat): (r: seq<real>)
    reads a
    requires i < a.Length0
    ensures |r| == a.Length1 && forall j :: 0 <= j < a.Length1 ==> r[j] == a[i, j]
  {
    seq(a.Length1, j requires 0 <= j < a.Length1 reads a => a[i, j])
  }

  /** A matrix as its sequence of rows. */
  ghost function Rows(a: array2<real>): (r: seq<seq<real>>)
    reads a
    ensures |r| == a.Length0 && forall i :: 0 <= i < a.Length0 ==> r[i] == RowOf(a, i)
  {
    seq(a.Length0, i requires 0 <= i < a.Length0 reads a => RowOf(a, i))
  }

  lemma RowsEqual(a: array2<real>, m: seq<seq<real>>)
    requires |m| == a.Length0
    requires forall i :: 0 <= i < |m| ==> |m[i]| == a.Length1
    requires forall i, j :: 0 <= i < a.Length0 && 0 <= j < a.Length1 ==> a[i, j] == m[i][j]
    ensures Rows(a) == m
  {
    forall i | 0 <= i < |m| ensures Rows(a)[i] == m[i] {
      assert forall j :: 0 <= j < a.Length1 ==> RowOf(a, i)[j] == m[i][j];
    }
  }

  class Layer {
    const config: LayerConfig
    /** `neurons[i].Bias` */
    const bias: array<real>
    /** `neurons[i].Weights[j]` at `[i, j]` */
    const weights: array2<real>
    /** `neurons[i].Inputs` */
    const inputs: array<seq<real>>
    /** `neurons[i].Derivative`, cached by the last forward pass */
    const derivs: array<real>
    /** `lastDeltaWeights[i][n]` at `[i, n]` */
    const lastDelta: array2<real>

    function Repr(): set<object> {
      {bias, weights, inputs, derivs, lastDelta}
    }

    predicate Valid() {
      var n, p := config.numberOfNeurons, config.numberOfNeuronsPreviousLayer;
      && bias.Length == n && inputs.Length == n && derivs.Length == n
      && weights.Length0 == n && weights.Length1 == p
      && lastDelta.Length0 == n && lastDelta.Length1 == p + 1
      && bias != derivs && weights != lastDelta
    }

    /** Every array of this layer belongs to `s`. */
    predicate Within(s: set<object>) {
      bias in s && weights in s && inputs in s && derivs in s && lastDelta in s
    }

    /** This layer and `other` share no array. */
    predicate Apart(other: Layer) {
      && bias != other.bias && bias != other.derivs && derivs != other.bias && derivs != other.derivs
      && weights != other.weights && weights != other.lastDelta
      && lastDelta != other.weights && lastDelta != other.lastDelta
      && inputs != other.inputs
    }

    /** The layer's whole state as a value. */
    ghost function State(): (s: LayerState)
      reads Repr()
      requires Valid()
      ensures Shaped(config, s)
    {
      LayerState(bias[..], Rows(weights), inputs[..], derivs[..], Rows(lastDelta))
    }

    /** `new Layer(config)`, with the rows `[bias, weights...]` the random generator
        would have drawn passed in. */
    constructor (c: LayerConfig, rows: seq<seq<real>>)
      requires InitialRows(c, rows)
      ensures config == c && Valid() && fresh(Repr())
      ensures State() == Initial(c, rows)
    {
      var n, p := c.numberOfNeurons, c.numberOfNeuronsPreviousLayer;
      config := c;
      bias := new real[n];
      weights := new real[n, p];
      inputs := new seq<real>[n](i => []);
      derivs := new real[n](i => 0.0);
      lastDelta := new real[n, p + 1];
      new;
      for i := 0 to n
        invariant forall k, l :: 0 <= k < i && 0 <= l <= p ==> lastDelta[k, l] == rows[k][l]
        invariant forall k :: 0 <= k < i ==> bias[k] == rows[k][0]
        invariant forall k, l :: 0 <= k < i && 0 <= l < p ==> weights[k, l] == rows[k][l + 1]
        invariant inputs[..] == seq(n, i => []) && derivs[..] == seq(n, i => 0.0)
      {
        for j := 0 to p + 1
          modifies lastDelta
          invariant forall k, l :: 0 <= k < i && 0 <= l <= p ==> lastDelta[k, l] == rows[k][l]
          invariant forall l :: 0 <= l < j ==> lastDelta[i, l] == rows[i][l]
        {
          lastDelta[i, j] := rows[i][j];
        }
        bias[i] := rows[i][0];
        for j := 0 to p
          modifies weights
          invariant forall k, l :: 0 <= k < i && 0 <= l < p ==> weights[k, l] == rows[k][l + 1]
          invariant forall l :: 0 <= l < j ==> weights[i, l] == rows[i][l + 1]
        {
          weights[i, j] := rows[i][j + 1];
        }
      }
      var s := Initial(c, rows);
      RowsEqual(lastDelta, rows);
      RowsEqual(weights, s.weights);
      assert bias[..] == s.bias;
    }

    /** `Compute(I)`: forward pass of every neuron. */
    method Compute(x: seq<real>) returns (r: Result<seq<real>>)
      requires Valid()
      modifies inputs, derivs
      ensures (State(), r) == LayerSpec.Compute(config, old(State()), x)
    {
      var n, p, f := config.numberOfNeurons, config.numberOfNeuronsPreviousLayer, config.activationFunction;
      ghost var s0 := State();
      var o := new real[n];
      for i := 0 to n
        invariant i > 0 ==> |x| == p
        invariant forall k :: 0 <= k < i ==> inputs[k] == x
        invariant forall k :: 0 <= k < i ==> derivs[k] == f.Derivate(Net(config, s0, k, x))
        invariant forall k :: 0 <= k < i ==> o[k] == f.Activate(Net(config, s0, k, x))
        invariant forall k :: i <= k < n ==> inputs[k] == s0.inputs[k] && derivs[k] == s0.derivs[k]
      {
        inputs[i] := x;
        if |x| != p {
          assert inputs[..] == s0.inputs[0 := x] && derivs[..] == s0.derivs;
          return Failure(DimensionMismatch);
        }
        var net := bias[i] + Dot(RowOf(weights, i), x);
        assert net == Net(config, s0, i, x);
        o[i] := f.Activate(net);
        derivs[i] := f.Derivate(net);
      }
      r := Success(o[..]);
      assert inputs[..] == seq(n, i => x);
      assert derivs[..] == seq(n, i requires 0 <= i < n => f.Derivate(Net(config, s0, i, x)));
      assert o[..] == seq(n, i requires 0 <= i < n => f.Activate(Net(config, s0, i, x)));
    }

    /** The gradient-sum loop shared by both backward passes: for each incoming
        connection `j` (0 = bias), the sum over the neurons of that coefficient times
        the neuron's signal. */
    method GradientSums(sig: seq<real>) returns (g: seq<real>)
      requires Valid() && |sig| >= config.numberOfNeurons
      ensures |g| == config.numberOfNeuronsPreviousLayer + 1
      ensures g == GradSums(config, State(), sig)
    {
      var n, p := config.numberOfNeurons, config.numberOfNeuronsPreviousLayer;
      ghost var a := Augmented(config, State());
      var sums := new real[p + 1];
      for j := 0 to p + 1
        invariant forall l :: 0 <= l < j ==> sums[l] == ColumnSum(a, sig, l, n)
      {
        var sum := 0.0;
        for k := 0 to n
          invariant sum == ColumnSum(a, sig, j, k)
        {
          if j == 0 {
            sum := sum + bias[k] * sig[k];
          } else {
            sum := sum + weights[k, j - 1] * sig[k];
          }
        }
        sums[j] := sum;
      }
      g := sums[..];
    }

    /** One pass of the update loop shared by both backward passes: neuron `i` with
        signal `sv` gets its new deltas and weights, and its bias delta is added to the
        bias of neuron `b` (`i` itself in the hidden pass, 0 in the output pass). */
    method UpdateNeuron(i: nat, sv: real, b: nat)
      requires Valid() && i < config.numberOfNeurons && b < config.numberOfNeurons
      requires |inputs[i]| >= config.numberOfNeuronsPreviousLayer
      modifies bias, weights, lastDelta
      ensures lastDelta[i, 0] == Delta(config, old(lastDelta[i, 0]), sv)
      ensures bias[..] == old(bias[..])[b := old(bias[b]) + lastDelta[i, 0]]
      ensures forall l :: 1 <= l <= config.numberOfNeuronsPreviousLayer ==>
        lastDelta[i, l] == Delta(config, old(lastDelta[i, l]), inputs[i][l - 1] * sv)
      ensures forall l :: 0 <= l < config.numberOfNeuronsPreviousLayer ==>
        weights[i, l] == old(weights[i, l]) + lastDelta[i, l + 1]
      ensures forall k, l :: 0 <= k < config.numberOfNeurons && k != i && 0 <= l <= config.numberOfNeuronsPreviousLayer ==>
        lastDelta[k, l] == old(lastDelta[k, l])
      ensures forall k, l :: 0 <= k < config.numberOfNeurons && k != i && 0 <= l < config.numberOfNeuronsPreviousLayer ==>
        weights[k, l] == old(weights[k, l])
    {
      var p := config.numberOfNeuronsPreviousLayer;
      var deltabias := Delta(config, lastDelta[i, 0], sv);
      lastDelta[i, 0] := deltabias;
      bias[b] := bias[b] + deltabias;
      for n := 1 to p + 1
        modifies weights, lastDelta
        invariant lastDelta[i, 0] == deltabias
        invariant forall l :: 1 <= l < n ==>
          lastDelta[i, l] == Delta(config, old(lastDelta[i, l]), inputs[i][l - 1] * sv)
        invariant forall l :: 0 <= l < n - 1 ==> weights[i, l] == old(weights[i, l]) + lastDelta[i, l + 1]
        invariant forall l :: n <= l <= p ==> lastDelta[i, l] == old(lastDelta[i, l])
        invariant forall l :: n - 1 <= l < p ==> weights[i, l] == old(weights[i, l])
        invariant forall k, l :: 0 <= k < config.numberOfNeurons && k != i && 0 <= l <= p ==>
          lastDelta[k, l] == old(lastDelta[k, l])
        invariant forall k, l :: 0 <= k < config.numberOfNeurons && k != i && 0 <= l < p ==>
          weights[k, l] == old(weights[k, l])
      {
        var deltaw := Delta(config, lastDelta[i, n], inputs[i][n - 1] * sv);
        lastDelta[i, n] := deltaw;
        weights[i, n - 1] := weights[i, n - 1] + deltaw;
      }
    }

    /** The arrays as an update loop leaves them: momentum matrix `d`, weights moved by
        `d`, biases `b`, everything else as in `s0`. */
    lemma StateAfterUpdate(s0: LayerState, d: seq<seq<real>>, b: seq<real>)
      requires Valid() && Shaped(config, s0) && IsWeightMatrix(config, d)
      requires inputs[..] == s0.inputs && derivs[..] == s0.derivs && |b| == config.numberOfNeurons
      requires forall k, l :: 0 <= k < config.numberOfNeurons && 0 <= l <= config.numberOfNeuronsPreviousLayer ==>
        lastDelta[k, l] == d[k][l]
      requires forall k, l :: 0 <= k < config.numberOfNeurons && 0 <= l < config.numberOfNeuronsPreviousLayer ==>
        weights[k, l] == s0.weights[k][l] + d[k][l + 1]
      requires forall k :: 0 <= k < config.numberOfNeurons ==> bias[k] == b[k]
      ensures State() == StepWeights(config, s0, d).(bias := b)
    {
      RowsEqual(lastDelta, d);
      RowsEqual(weights, StepWeights(config, s0, d).weights);
      assert bias[..] == b;
    }

    /** `ComputeHiddenBackward(G)`: gradient sums first, then the update loop. */
    method ComputeHiddenBackward(grSums: seq<real>) returns (r: Result<seq<real>>)
      requires Valid() && Primed(config, State())
      modifies bias, weights, lastDelta
      ensures (State(), r) == HiddenBackward(config, old(State()), grSums)
    {
      var n := config.numberOfNeurons;
      if |grSums| < n {
        return Failure(IndexOutOfRange);
      }
      var sig := seq(n, k requires 0 <= k < n reads derivs => derivs[k] * grSums[k]);
      assert forall k :: 0 <= k < n ==> sig[k] == HiddenSignal(config, State(), grSums)[k];
      assert sig == HiddenSignal(config, State(), grSums);
      var g := GradientSums(sig);
      UpdateHidden(sig);
      r := Success(g);
    }

    /** The update loop of `ComputeHiddenBackward`, neuron by neuron. */
    method UpdateHidden(sig: seq<real>)
      requires Valid() && Primed(config, State()) && |sig| >= config.numberOfNeurons
      modifies bias, weights, lastDelta
      ensures State() == HiddenStep(config, old(State()), sig)
    {
      var n, p := config.numberOfNeurons, config.numberOfNeuronsPreviousLayer;
      ghost var s0 := State();
      ghost var d := NewDeltas(config, s0, sig);
      for i := 0 to n
        invariant forall k, l :: 0 <= k < i && 0 <= l <= p ==> lastDelta[k, l] == NewDelta(config, s0, sig, k, l)
        invariant forall k, l :: i <= k < n && 0 <= l <= p ==> lastDelta[k, l] == s0.deltas[k][l]
        invariant forall k, l :: 0 <= k < i && 0 <= l < p ==> weights[k, l] == s0.weights[k][l] + NewDelta(config, s0, sig, k, l + 1)
        invariant forall k, l :: i <= k < n && 0 <= l < p ==> weights[k, l] == s0.weights[k][l]
        invariant forall k :: 0 <= k < i ==> bias[k] == s0.bias[k] + NewDelta(config, s0, sig, k, 0)
        invariant forall k :: i <= k < n ==> bias[k] == s0.bias[k]
      {
        ghost var prev := RowOf(lastDelta, i);
        UpdateNeuron(i, sig[i], i);
        forall l | 0 <= l <= p ensures lastDelta[i, l] == NewDelta(config, s0, sig, i, l) {
          assert prev[l] == s0.deltas[i][l];
        }
      }
      StateAfterUpdate(s0, d, seq(n, i requires 0 <= i < n => s0.bias[i] + d[i][0]));
    }

    /** `ComputeOutputBackward(E)`: the signal of neuron `k` is `E[k]` itself. */
    method ComputeOutputBackward(errors: seq<real>) returns (r: Result<seq<real>>)
      requires Valid() && Primed(config, State())
      modifies bias, weights, lastDelta
      ensures (State(), r) == OutputBackward(config, old(State()), errors)
    {
      if |errors| < config.numberOfNeurons {
        return Failure(IndexOutOfRange);
      }
      var g := GradientSums(errors);
      UpdateOutput(errors);
      r := Success(g);
    }

    /** The update loop of `ComputeOutputBackward`: every bias delta goes to neuron 0. */
    method UpdateOutput(errors: seq<real>)
      requires Valid() && Primed(config, State()) && |errors| >= config.numberOfNeurons
      modifies bias, weights, lastDelta
      ensures State() == OutputStep(config, old(State()), errors)
    {
      var n, p := config.numberOfNeurons, config.numberOfNeuronsPreviousLayer;
      ghost var s0 := State();
      ghost var d := NewDeltas(config, s0, errors);
      ghost var col := BiasColumn(d);
      for i := 0 to n
        invariant forall k, l :: 0 <= k < i && 0 <= l <= p ==> lastDelta[k, l] == NewDelta(config, s0, errors, k, l)
        invariant forall k, l :: i <= k < n && 0 <= l <= p ==> lastDelta[k, l] == s0.deltas[k][l]
        invariant forall k, l :: 0 <= k < i && 0 <= l < p ==> weights[k, l] == s0.weights[k][l] + NewDelta(config, s0, errors, k, l + 1)
        invariant forall k, l :: i <= k < n && 0 <= l < p ==> weights[k, l] == s0.weights[k][l]
        invariant n > 0 ==> bias[0] == s0.bias[0] + Total(col[..i])
        invariant forall k :: 1 <= k < n ==> bias[k] == s0.bias[k]
      {
        ghost var prev := RowOf(lastDelta, i);
        UpdateNeuron(i, errors[i], 0);
        forall l | 0 <= l <= p ensures lastDelta[i, l] == NewDelta(config, s0, errors, i, l) {
          assert prev[l] == s0.deltas[i][l];
        }
        assert col[..i + 1] == col[..i] + [col[i]];
        TotalSnoc(col[..i], col[i]);
      }
      assert col[..n] == col;
      StateAfterUpdate(s0, d, if n == 0 then s0.bias else s0.bias[0 := s0.bias[0] + Total(col)]);
    }

    /** `SetWeights(m)` */
    method SetWeights(m: seq<seq<real>>) returns (r: Result<()>)
      requires Valid()
      modifies bias, weights
      ensures (State(), r) == LayerSpec.SetWeights(config, old(State()), m)
    {
      var n, p := config.numberOfNeurons, config.numberOfNeuronsPreviousLayer;
      for i := 0 to n
        invariant SetRows(config, State(), m, i) == SetRows(config, old(State()), m, 0)
      {
        if i >= |m| || |m[i]| == 0 {
          return Failure(IndexOutOfRange);
        }
        ghost var si := State();
        bias[i] := m[i][0];
        ghost var s1 := si.(bias := si.bias[i := m[i][0]]);
        assert bias[..] == s1.bias;
        if |m[i]| < p + 1 {
          assert State() == s1;
          return Failure(IndexOutOfRange);
        }
        for j := 0 to p
          modifies weights
          invariant forall k, l :: 0 <= k < n && k != i && 0 <= l < p ==> weights[k, l] == si.weights[k][l]
          invariant forall l :: 0 <= l < j ==> weights[i, l] == m[i][l + 1]
        {
          weights[i, j] := m[i][j + 1];
        }
        RowsEqual(weights, s1.weights[i := m[i][1..p + 1]]);
        assert State() == s1.(weights := s1.weights[i := m[i][1..p + 1]]);
      }
      r := Success(());
    }

    /** `GetWeights()`: row `i` is neuron `i`'s bias followed by its weights. */
    method GetWeights() returns (m: seq<seq<real>>)
      requires Valid()
      ensures |m| == config.numberOfNeurons
      ensures forall i :: 0 <= i < |m| ==>
        |m[i]| == config.numberOfNeuronsPreviousLayer + 1 && m[i][0] == bias[i] &&
        forall j :: 1 <= j < |m[i]| ==> m[i][j] == weights[i, j - 1]
      ensures m == Augmented(config, State())
    {
      var n, p := config.numberOfNeurons, config.numberOfNeuronsPreviousLayer;
      m := [];
      for i := 0 to n
        invariant |m| == i
        invariant forall k :: 0 <= k < i ==> m[k] == [bias[k]] + RowOf(weights, k)
      {
        var row := new real[p + 1];
        row[0] := bias[i];
        for j := 1 to p + 1
          invariant row[0] == bias[i]
          invariant forall l :: 1 <= l < j ==> row[l] == weights[i, l - 1]
        {
          row[j] := weights[i, j - 1];
        }
        assert row[..] == [bias[i]] + RowOf(weights, i);
        m := m + [row[..]];
      }
    }
  }
}
