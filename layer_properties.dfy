/** What the layer operations promise, stated over the pure specification. */
module LayerProperties {
  import opened Errors
  import opened Vectors
  import opened LayerConfigs
  import opened LayerSpec

  /** After `ComputeHiddenBackward(G)`, neuron `i`'s bias delta is `momentum * last +
      rate * d_i * G[i]` and its bias has grown by exactly that delta; the delta of its
      weight `k-1` is `momentum * last + rate * input_i[k-1] * d_i * G[i]` and that
      weight has grown by exactly that delta. */
  lemma HiddenUpdate(c: LayerConfig, s: LayerState, g: seq<real>)
    requires Primed(c, s) && |g| >= c.numberOfNeurons
    ensures var (s', r) := HiddenBackward(c, s, g);
      var m, lr := c.momentum, c.learningRate;
      && r.Success?
      && (forall i :: 0 <= i < c.numberOfNeurons ==>
            && s'.deltas[i][0] == m * s.deltas[i][0] + lr * (s.derivs[i] * g[i])
            && s'.bias[i] == s.bias[i] + s'.deltas[i][0])
      && (forall i, k :: 0 <= i < c.numberOfNeurons && 1 <= k <= c.numberOfNeuronsPreviousLayer ==>
            && s'.deltas[i][k] == m * s.deltas[i][k] + lr * (s.inputs[i][k - 1] * (s.derivs[i] * g[i]))
            && s'.weights[i][k - 1] == s.weights[i][k - 1] + s'.deltas[i][k])
  {
    var (s', r) := HiddenBackward(c, s, g);
    var sig := HiddenSignal(c, s, g);
    forall i, k | 0 <= i < c.numberOfNeurons && 1 <= k <= c.numberOfNeuronsPreviousLayer
      ensures s'.deltas[i][k] == Delta(c, s.deltas[i][k], s.inputs[i][k - 1] * (s.derivs[i] * g[i]))
    {
      assert sig[i] == s.derivs[i] * g[i];
    }
  }

  /** After `ComputeOutputBackward(E)`, row `i` of the momentum matrix holds neuron `i`'s
      own deltas and neuron `i`'s weights grow by them, but only neuron 0's bias moves:
      it grows by the bias deltas of all N neurons. */
  lemma OutputUpdate(c: LayerConfig, s: LayerState, e: seq<real>)
    requires Primed(c, s) && |e| >= c.numberOfNeurons
    ensures var (s', r) := OutputBackward(c, s, e);
      var m, lr := c.momentum, c.learningRate;
      && r.Success?
      && (forall i :: 0 <= i < c.numberOfNeurons ==>
            s'.deltas[i][0] == m * s.deltas[i][0] + lr * e[i])
      && (forall i, k :: 0 <= i < c.numberOfNeurons && 1 <= k <= c.numberOfNeuronsPreviousLayer ==>
            && s'.deltas[i][k] == m * s.deltas[i][k] + lr * (s.inputs[i][k - 1] * e[i])
            && s'.weights[i][k - 1] == s.weights[i][k - 1] + s'.deltas[i][k])
      && (c.numberOfNeurons > 0 ==> s'.bias[0] == s.bias[0] + Total(BiasColumn(s'.deltas)))
      && (forall i :: 1 <= i < c.numberOfNeurons ==> s'.bias[i] == s.bias[i])
  {
    var (s', r) := OutputBackward(c, s, e);
    forall i, k | 0 <= i < c.numberOfNeurons && 1 <= k <= c.numberOfNeuronsPreviousLayer
      ensures s'.deltas[i][k] == Delta(c, s.deltas[i][k], s.inputs[i][k - 1] * e[i])
    {
    }
  }

  /** With momentum 0 the new deltas are the current gradient terms alone: they do not
      depend on the previous deltas at all. */
  lemma MomentumFreeDeltas(c: LayerConfig, s: LayerState, last: seq<seq<real>>, sig: seq<real>)
    requires Primed(c, s) && IsWeightMatrix(c, last) && |sig| >= c.numberOfNeurons
    requires c.momentum == 0.0
    ensures NewDeltas(c, s, sig) == NewDeltas(c, s.(deltas := last), sig)
    ensures forall i :: 0 <= i < c.numberOfNeurons ==> NewDeltas(c, s, sig)[i][0] == c.learningRate * sig[i]
  {
    var d1, d2 := NewDeltas(c, s, sig), NewDeltas(c, s.(deltas := last), sig);
    forall i | 0 <= i < c.numberOfNeurons ensures d1[i] == d2[i] {
      forall k | 0 <= k <= c.numberOfNeuronsPreviousLayer ensures d1[i][k] == d2[i][k] {
        if k == 0 {
          DeltaWithoutMomentum(c, s.deltas[i][0], sig[i]);
          DeltaWithoutMomentum(c, last[i][0], sig[i]);
        } else {
          DeltaWithoutMomentum(c, s.deltas[i][k], s.inputs[i][k - 1] * sig[i]);
          DeltaWithoutMomentum(c, last[i][k], s.inputs[i][k - 1] * sig[i]);
        }
      }
    }
    forall i | 0 <= i < c.numberOfNeurons ensures d1[i][0] == c.learningRate * sig[i] {
      DeltaWithoutMomentum(c, s.deltas[i][0], sig[i]);
    }
  }

  /** Without momentum a step is the scaled gradient alone. */
  lemma DeltaWithoutMomentum(c: LayerConfig, last: real, grad: real)
    requires c.momentum == 0.0
    ensures Delta(c, last, grad) == c.learningRate * grad
  {
    assert c.momentum * last == 0.0;
  }

  /** Column sums only look at the first `n` signals. */
  lemma {:induction false} ColumnSumAgree(a: seq<seq<real>>, sig1: seq<real>, sig2: seq<real>, j: nat, n: nat)
    requires n <= |a| && n <= |sig1| && n <= |sig2|
    requires forall k :: 0 <= k < n ==> j < |a[k]|
    requires forall k :: 0 <= k < n ==> sig1[k] == sig2[k]
    ensures ColumnSum(a, sig1, j, n) == ColumnSum(a, sig2, j, n)
  {
    if n > 0 {
      ColumnSumAgree(a, sig1, sig2, j, n - 1);
    }
  }

  /** A column sum of zero signals is zero. */
  lemma {:induction false} ColumnSumZero(a: seq<seq<real>>, sig: seq<real>, j: nat, n: nat)
    requires n <= |a| && n <= |sig|
    requires forall k :: 0 <= k < n ==> j < |a[k]|
    requires forall k :: 0 <= k < n ==> sig[k] == 0.0
    ensures ColumnSum(a, sig, j, n) == 0.0
  {
    if n > 0 {
      ColumnSumZero(a, sig, j, n - 1);
    }
  }

  /** The gradient sum of the hidden pass as its loop accumulates it, over neurons
      `0..n-1`: `bias_k * d_k * G[k]` for entry 0, `W_k[j-1] * d_k * G[k]` for entry `j`. */
  function HiddenSum(s: LayerState, g: seq<real>, j: nat, n: nat): real
    requires n <= |s.bias| && n <= |s.weights| && n <= |s.derivs| && n <= |g|
    requires forall k :: 0 <= k < n ==> j <= |s.weights[k]|
  {
    if n == 0 then 0.0
    else
      var k := n - 1;
      HiddenSum(s, g, j, k)
        + (if j == 0 then s.bias[k] * s.derivs[k] * g[k] else s.weights[k][j - 1] * s.derivs[k] * g[k])
  }

  /** The gradient sum of the output pass as its loop accumulates it: `bias_k * E[k]`
      for entry 0, `W_k[j-1] * E[k]` for entry `j`. */
  function OutputSum(s: LayerState, e: seq<real>, j: nat, n: nat): real
    requires n <= |s.bias| && n <= |s.weights| && n <= |e|
    requires forall k :: 0 <= k < n ==> j <= |s.weights[k]|
  {
    if n == 0 then 0.0
    else
      var k := n - 1;
      OutputSum(s, e, j, k) + (if j == 0 then s.bias[k] * e[k] else s.weights[k][j - 1] * e[k])
  }

  lemma {:induction false} HiddenSumIsColumnSum(c: LayerConfig, s: LayerState, g: seq<real>, j: nat, n: nat)
    requires Shaped(c, s) && |g| >= c.numberOfNeurons
    requires n <= c.numberOfNeurons && j <= c.numberOfNeuronsPreviousLayer
    ensures HiddenSum(s, g, j, n) == ColumnSum(Augmented(c, s), HiddenSignal(c, s, g), j, n)
  {
    if n > 0 {
      HiddenSumIsColumnSum(c, s, g, j, n - 1);
      var k := n - 1;
      assert Augmented(c, s)[k] == [s.bias[k]] + s.weights[k];
    }
  }

  lemma {:induction false} OutputSumIsColumnSum(c: LayerConfig, s: LayerState, e: seq<real>, j: nat, n: nat)
    requires Shaped(c, s) && |e| >= c.numberOfNeurons
    requires n <= c.numberOfNeurons && j <= c.numberOfNeuronsPreviousLayer
    ensures OutputSum(s, e, j, n) == ColumnSum(Augmented(c, s), e, j, n)
  {
    if n > 0 {
      OutputSumIsColumnSum(c, s, e, j, n - 1);
      var k := n - 1;
      assert Augmented(c, s)[k] == [s.bias[k]] + s.weights[k];
    }
  }

  /** The hidden pass returns the gradient sums of the biases and weights it was called
      with, before its update loop moves them: entry `j` is `HiddenSum` over all N
      neurons of the state on entry. */
  lemma HiddenSums(c: LayerConfig, s: LayerState, g: seq<real>)
    requires Primed(c, s) && |g| >= c.numberOfNeurons
    ensures var r := HiddenBackward(c, s, g).1;
      && r.Success?
      && forall j :: 0 <= j <= c.numberOfNeuronsPreviousLayer ==> r.value[j] == HiddenSum(s, g, j, c.numberOfNeurons)
  {
    forall j | 0 <= j <= c.numberOfNeuronsPreviousLayer
      ensures HiddenBackward(c, s, g).1.value[j] == HiddenSum(s, g, j, c.numberOfNeurons)
    {
      HiddenSumIsColumnSum(c, s, g, j, c.numberOfNeurons);
    }
  }

  /** The output pass likewise returns the sums of the biases and weights on entry,
      each weighted by the error of its neuron. */
  lemma OutputSums(c: LayerConfig, s: LayerState, e: seq<real>)
    requires Primed(c, s) && |e| >= c.numberOfNeurons
    ensures var r := OutputBackward(c, s, e).1;
      && r.Success?
      && forall j :: 0 <= j <= c.numberOfNeuronsPreviousLayer ==> r.value[j] == OutputSum(s, e, j, c.numberOfNeurons)
  {
    forall j | 0 <= j <= c.numberOfNeuronsPreviousLayer
      ensures OutputBackward(c, s, e).1.value[j] == OutputSum(s, e, j, c.numberOfNeurons)
    {
      OutputSumIsColumnSum(c, s, e, j, c.numberOfNeurons);
    }
  }

  /** Gradient sums and new deltas depend on the signal of neurons 0..N-1 only. */
  lemma SignalsAgree(c: LayerConfig, s: LayerState, sig1: seq<real>, sig2: seq<real>)
    requires Primed(c, s) && |sig1| >= c.numberOfNeurons && |sig2| >= c.numberOfNeurons
    requires forall k :: 0 <= k < c.numberOfNeurons ==> sig1[k] == sig2[k]
    ensures GradSums(c, s, sig1) == GradSums(c, s, sig2)
    ensures NewDeltas(c, s, sig1) == NewDeltas(c, s, sig2)
  {
    var n, p := c.numberOfNeurons, c.numberOfNeuronsPreviousLayer;
    forall j | 0 <= j <= p ensures GradSums(c, s, sig1)[j] == GradSums(c, s, sig2)[j] {
      ColumnSumAgree(Augmented(c, s), sig1, sig2, j, n);
    }
    var d1, d2 := NewDeltas(c, s, sig1), NewDeltas(c, s, sig2);
    forall i | 0 <= i < n ensures d1[i] == d2[i] {
      assert forall k :: 0 <= k <= p ==> d1[i][k] == d2[i][k];
    }
  }

  /** `ComputeHiddenBackward` reads `G[k]` only for neurons `k < N`, pairing neuron `k`
      with entry `k`: whatever lies beyond makes no difference. */
  lemma HiddenReadsFirstN(c: LayerConfig, s: LayerState, g1: seq<real>, g2: seq<real>)
    requires Primed(c, s) && |g1| >= c.numberOfNeurons && |g2| >= c.numberOfNeurons
    requires g1[..c.numberOfNeurons] == g2[..c.numberOfNeurons]
    ensures HiddenBackward(c, s, g1) == HiddenBackward(c, s, g2)
  {
    var n := c.numberOfNeurons;
    forall k | 0 <= k < n ensures HiddenSignal(c, s, g1)[k] == HiddenSignal(c, s, g2)[k] {
      assert g1[k] == g1[..n][k] && g2[k] == g2[..n][k];
    }
    assert HiddenSignal(c, s, g1) == HiddenSignal(c, s, g2);
  }

  /** Given the next layer's (N+1)-long gradient sums, the hidden pass drives neuron 0
      with entry 0 (the next layer's bias sum) and never reads the last entry. */
  lemma HiddenIgnoresLastEntry(c: LayerConfig, s: LayerState, g: seq<real>, v: real)
    requires Primed(c, s) && |g| == c.numberOfNeurons + 1
    ensures HiddenBackward(c, s, g) == HiddenBackward(c, s, g[c.numberOfNeurons := v])
    ensures c.numberOfNeurons > 0 ==> HiddenSignal(c, s, g)[0] == s.derivs[0] * g[0]
  {
    var n := c.numberOfNeurons;
    assert g[..n] == g[n := v][..n];
    HiddenReadsFirstN(c, s, g, g[n := v]);
  }

  /** The output pass is the hidden pass with every cached derivative equal to 1, except
      for where bias deltas land: same gradient sums, momentum matrix and weights; the
      output pass gives all bias deltas to neuron 0, so the two bias vectors differ but
      have the same sum. */
  lemma OutputIsHiddenWithUnitDerivatives(c: LayerConfig, s: LayerState, e: seq<real>)
    requires Primed(c, s) && |e| >= c.numberOfNeurons
    requires forall k :: 0 <= k < c.numberOfNeurons ==> s.derivs[k] == 1.0
    ensures var (h, hr) := HiddenBackward(c, s, e);
      var (o, or) := OutputBackward(c, s, e);
      && hr == or
      && h.weights == o.weights && h.deltas == o.deltas
      && Total(h.bias) == Total(o.bias)
  {
    var n := c.numberOfNeurons;
    SignalsAgree(c, s, HiddenSignal(c, s, e), e);
    HiddenBiasTotal(c, s, e);
    OutputBiasTotal(c, s, e);
  }

  /** Sum of a coordinate-wise sum. */
  lemma {:induction false} TotalPlus(a: seq<real>, b: seq<real>, ab: seq<real>)
    requires |a| == |b| == |ab|
    requires forall i :: 0 <= i < |a| ==> ab[i] == a[i] + b[i]
    ensures Total(ab) == Total(a) + Total(b)
  {
    if |a| > 0 {
      TotalPlus(a[1..], b[1..], ab[1..]);
    }
  }

  /** Both passes grow the sum of all biases by the sum of the new bias deltas. */
  lemma HiddenBiasTotal(c: LayerConfig, s: LayerState, g: seq<real>)
    requires Primed(c, s) && |g| >= c.numberOfNeurons
    ensures var (s', _) := HiddenBackward(c, s, g);
      Total(s'.bias) == Total(s.bias) + Total(BiasColumn(s'.deltas))
  {
    var (s', _) := HiddenBackward(c, s, g);
    TotalPlus(s.bias, BiasColumn(s'.deltas), s'.bias);
  }

  lemma OutputBiasTotal(c: LayerConfig, s: LayerState, e: seq<real>)
    requires Primed(c, s) && |e| >= c.numberOfNeurons
    ensures var (s', _) := OutputBackward(c, s, e);
      Total(s'.bias) == Total(s.bias) + Total(BiasColumn(s'.deltas))
  {
    var (s', _) := OutputBackward(c, s, e);
    if c.numberOfNeurons > 0 {
      assert s'.bias[1..] == s.bias[1..];
    }
  }

  /** With momentum 0, a sample the output layer already fits exactly (all errors zero)
      changes no bias or weight, zeroes the momentum matrix and sends back zero gradient
      sums. */
  lemma OutputAtRest(c: LayerConfig, s: LayerState, e: seq<real>)
    requires Primed(c, s) && |e| >= c.numberOfNeurons
    requires c.momentum == 0.0
    requires forall k :: 0 <= k < c.numberOfNeurons ==> e[k] == 0.0
    ensures var (s', r) := OutputBackward(c, s, e);
      && r == Success(seq(c.numberOfNeuronsPreviousLayer + 1, j => 0.0))
      && s'.bias == s.bias && s'.weights == s.weights
      && forall i, k :: 0 <= i < c.numberOfNeurons && 0 <= k <= c.numberOfNeuronsPreviousLayer ==>
           s'.deltas[i][k] == 0.0
  {
    var n, p := c.numberOfNeurons, c.numberOfNeuronsPreviousLayer;
    var (s', r) := OutputBackward(c, s, e);
    forall j | 0 <= j <= p ensures GradSums(c, s, e)[j] == 0.0 {
      ColumnSumZero(Augmented(c, s), e, j, n);
    }
    assert GradSums(c, s, e) == seq(p + 1, j => 0.0);
    if n > 0 {
      forall i | 0 <= i < n ensures BiasColumn(s'.deltas)[i] == 0.0 {
        assert BiasColumn(s'.deltas)[i] == c.momentum * s.deltas[i][0] + c.learningRate * e[i];
      }
      TotalZero(BiasColumn(s'.deltas));
      assert s'.bias == s.bias;
    }
    forall i | 0 <= i < n ensures s'.weights[i] == s.weights[i] {
      assert forall k :: 0 <= k < p ==> s'.weights[i][k] == s.weights[i][k];
    }
  }

  lemma {:induction false} TotalZero(xs: seq<real>)
    requires forall i :: 0 <= i < |xs| ==> xs[i] == 0.0
    ensures Total(xs) == 0.0
  {
    if |xs| > 0 {
      TotalZero(xs[1..]);
    }
  }

  /** `SetWeights(m)` followed by `GetWeights()` gives back `m` when `m` is an N x (P+1)
      matrix, and leaves the momentum matrix and the cached inputs alone. */
  lemma SetThenGet(c: LayerConfig, s: LayerState, m: seq<seq<real>>)
    requires Shaped(c, s) && IsWeightMatrix(c, m)
    ensures var (s', r) := SetWeights(c, s, m);
      && r.Success?
      && Augmented(c, s') == m
      && s'.deltas == s.deltas && s'.inputs == s.inputs && s'.derivs == s.derivs
  {
    var (s', r) := SetWeights(c, s, m);
    SetRowsWrites(c, s, m, 0);
    forall i | 0 <= i < |m| ensures Augmented(c, s')[i] == m[i] {
      assert [m[i][0]] + m[i][1..] == m[i];
    }
  }

  /** Exporting the weights and importing them again changes nothing. */
  lemma GetThenSet(c: LayerConfig, s: LayerState)
    requires Shaped(c, s)
    ensures SetWeights(c, s, Augmented(c, s)).1.Success?
    ensures SetWeights(c, s, Augmented(c, s)).0 == s
  {
    var n, p := c.numberOfNeurons, c.numberOfNeuronsPreviousLayer;
    var a := Augmented(c, s);
    var (s', r) := SetWeights(c, s, a);
    SetRowsWrites(c, s, a, 0);
    forall i | 0 <= i < n ensures s'.weights[i] == s.weights[i] {
      assert a[i][1..p + 1] == s.weights[i];
    }
    assert s'.bias == s.bias;
    assert s'.weights == s.weights;
    assert s' == s;
  }
}
