/** The state of one layer as a value, and each layer operation as a function from
    the old state to the new state and the returned vector. The imperative `Layer`
    class is proved to implement these functions. */
module LayerSpec {
  import opened Errors
  import opened Vectors
  import opened LayerConfigs

  /** Neuron `i` of a layer is entry `i` of each of the first four fields: its bias,
      its weight vector, the input vector it was last given and the derivative of its
      activation cached by the last forward pass. `deltas` is the momentum matrix
      `lastDeltaWeights`: row `i` holds the last change of neuron `i`'s bias (entry 0)
      and of its weights (entries 1..P). */
  datatype LayerState = LayerState(
    bias: seq<real>,
    weights: seq<seq<real>>,
    inputs: seq<seq<real>>,
    derivs: seq<real>,
    deltas: seq<seq<real>>)

  /** `s` has the shape its configuration gives it: N neurons with P weights each and
      an N x (P+1) momentum matrix. */
  predicate Shaped(c: LayerConfig, s: LayerState) {
    var n, p := c.numberOfNeurons, c.numberOfNeuronsPreviousLayer;
    && |s.bias| == n && |s.weights| == n && |s.inputs| == n
    && |s.derivs| == n && |s.deltas| == n
    && (forall i :: 0 <= i < n ==> |s.weights[i]| == p)
    && (forall i :: 0 <= i < n ==> |s.deltas[i]| == p + 1)
  }

  /** Every neuron holds an input vector with at least P coordinates, as it does after a
      forward pass; the backward passes read coordinates 0..P-1 of it. */
  predicate Primed(c: LayerConfig, s: LayerState) {
    && Shaped(c, s)
    && forall i :: 0 <= i < c.numberOfNeurons ==> |s.inputs[i]| >= c.numberOfNeuronsPreviousLayer
  }

  /** An N x (P+1) matrix of augmented rows (bias first, then the P weights). */
  predicate IsWeightMatrix(c: LayerConfig, m: seq<seq<real>>) {
    && |m| == c.numberOfNeurons
    && forall i :: 0 <= i < |m| ==> |m[i]| == c.numberOfNeuronsPreviousLayer + 1
  }

  /** Initial augmented rows as the random generator draws them: every entry lies in
      [-0.25 / (N + P), 0.25 / (N + P)]. */
  predicate InitialRows(c: LayerConfig, rows: seq<seq<real>>) {
    var n, p := c.numberOfNeurons, c.numberOfNeuronsPreviousLayer;
    && IsWeightMatrix(c, rows)
    && forall i, j :: 0 <= i < n && 0 <= j <= p ==>
         -0.25 / ((n + p) as real) <= rows[i][j] <= 0.25 / ((n + p) as real)
  }

  /** The augmented rows `[bias_i, w_i0, ..., w_i(P-1)]`, the layout `GetWeights` exports. */
  function Augmented(c: LayerConfig, s: LayerState): (m: seq<seq<real>>)
    requires Shaped(c, s)
    ensures IsWeightMatrix(c, m)
  {
    seq(c.numberOfNeurons, i requires 0 <= i < c.numberOfNeurons => [s.bias[i]] + s.weights[i])
  }

  /** A freshly built layer: neuron `i` takes its bias from entry 0 of row `i` and its
      weights from entries 1..P, and the momentum matrix starts as the very same rows.
      No neuron has been given an input yet. */
  function Initial(c: LayerConfig, rows: seq<seq<real>>): (s: LayerState)
    requires InitialRows(c, rows)
    ensures Shaped(c, s)
    ensures Augmented(c, s) == rows && s.deltas == rows
  {
    var n := c.numberOfNeurons;
    var s := LayerState(
      seq(n, i requires 0 <= i < n => rows[i][0]),
      seq(n, i requires 0 <= i < n => rows[i][1..]),
      seq(n, i => []),
      seq(n, i => 0.0),
      rows);
    assert forall i :: 0 <= i < n ==> [rows[i][0]] + rows[i][1..] == rows[i];
    s
  }

  /** Weighted input of neuron `i` for input `x`: its bias plus its weights times `x`. */
  function Net(c: LayerConfig, s: LayerState, i: nat, x: seq<real>): real
    requires Shaped(c, s) && i < c.numberOfNeurons && |x| == c.numberOfNeuronsPreviousLayer
  {
    s.bias[i] + Dot(s.weights[i], x)
  }

  /** The weighted input is the dot product of the neuron's augmented row
      `[bias, w_0, ..., w_(P-1)]` with the input preceded by a constant 1: the bias is
      weight 0 of an augmented input, the layout the initial rows are drawn in. */
  lemma NetIsAugmentedDot(c: LayerConfig, s: LayerState, i: nat, x: seq<real>)
    requires Shaped(c, s) && i < c.numberOfNeurons && |x| == c.numberOfNeuronsPreviousLayer
    ensures Net(c, s, i, x) == Dot(Augmented(c, s)[i], [1.0] + x)
  {
    var row := Augmented(c, s)[i];
    assert row[1..] == s.weights[i];
    assert ([1.0] + x)[1..] == x;
  }

  /** Forward pass `Compute(x)`: every neuron caches `x` and the derivative of its
      activation at its weighted input, and the result is the vector of activations.
      A neuron's dot product fails on an input of the wrong size; by then neuron 0
      has already stored the input, and nothing else has changed. */
  function Compute(c: LayerConfig, s: LayerState, x: seq<real>): (r: (LayerState, Result<seq<real>>))
    requires Shaped(c, s)
    ensures Shaped(c, r.0)
    ensures r.0.bias == s.bias && r.0.weights == s.weights && r.0.deltas == s.deltas
    ensures r.1.Success? <==> c.numberOfNeurons == 0 || |x| == c.numberOfNeuronsPreviousLayer
    ensures r.1.Failure? ==> r.1.error == DimensionMismatch
    ensures r.1.Success? ==> |r.1.value| == c.numberOfNeurons && Primed(c, r.0)
    ensures r.1.Success? ==> forall i :: 0 <= i < c.numberOfNeurons ==>
      && r.0.inputs[i] == x
      && r.0.derivs[i] == c.activationFunction.Derivate(Net(c, s, i, x))
      && r.1.value[i] == c.activationFunction.Activate(Net(c, s, i, x))
    ensures r.1.Failure? ==> r.0.inputs == s.inputs[0 := x] && r.0.derivs == s.derivs
  {
    var n, f := c.numberOfNeurons, c.activationFunction;
    if n > 0 && |x| != c.numberOfNeuronsPreviousLayer then
      (s.(inputs := s.inputs[0 := x]), Failure(DimensionMismatch))
    else
      var s' := s.(inputs := seq(n, i => x),
                   derivs := seq(n, i requires 0 <= i < n => f.Derivate(Net(c, s, i, x))));
      (s', Success(seq(n, i requires 0 <= i < n => f.Activate(Net(c, s, i, x)))))
  }

  /** `sum_{k < n} A[k][j] * sig[k]`, accumulated in increasing `k`. */
  function ColumnSum(a: seq<seq<real>>, sig: seq<real>, j: nat, n: nat): real
    requires n <= |a| && n <= |sig|
    requires forall k :: 0 <= k < n ==> j < |a[k]|
  {
    if n == 0 then 0.0 else ColumnSum(a, sig, j, n - 1) + a[n - 1][j] * sig[n - 1]
  }

  /** The gradient-sum vector handed to the previous layer: entry 0 sums every neuron's
      bias times its signal, entry `j` sums every neuron's weight `j-1` times its signal. */
  function GradSums(c: LayerConfig, s: LayerState, sig: seq<real>): (g: seq<real>)
    requires Shaped(c, s) && |sig| >= c.numberOfNeurons
    ensures |g| == c.numberOfNeuronsPreviousLayer + 1
  {
    var n, p, a := c.numberOfNeurons, c.numberOfNeuronsPreviousLayer, Augmented(c, s);
    seq(p + 1, j requires 0 <= j <= p => ColumnSum(a, sig, j, n))
  }

  /** The hidden pass's signal for neuron `k`: its cached derivative times entry `k`
      of the incoming gradient sums. */
  function HiddenSignal(c: LayerConfig, s: LayerState, g: seq<real>): (sig: seq<real>)
    requires Shaped(c, s) && |g| >= c.numberOfNeurons
    ensures |sig| == c.numberOfNeurons
  {
    seq(c.numberOfNeurons, k requires 0 <= k < c.numberOfNeurons => s.derivs[k] * g[k])
  }

  /** The new momentum matrix for per-neuron signals `sig`: the bias delta of neuron `i` is
      `momentum * last + rate * sig[i]`, the delta of its weight `n-1` is
      `momentum * last + rate * input[n-1] * sig[i]`. */
  function NewDeltas(c: LayerConfig, s: LayerState, sig: seq<real>): (d: seq<seq<real>>)
    requires Primed(c, s) && |sig| >= c.numberOfNeurons
    ensures IsWeightMatrix(c, d)
  {
    var n, p := c.numberOfNeurons, c.numberOfNeuronsPreviousLayer;
    seq(n, i requires 0 <= i < n => seq(p + 1, k requires 0 <= k <= p => NewDelta(c, s, sig, i, k)))
  }

  /** Entry `k` of row `i` of `NewDeltas`. */
  function NewDelta(c: LayerConfig, s: LayerState, sig: seq<real>, i: nat, k: nat): real
    requires Primed(c, s) && |sig| >= c.numberOfNeurons
    requires i < c.numberOfNeurons && k <= c.numberOfNeuronsPreviousLayer
  {
    if k == 0 then Delta(c, s.deltas[i][0], sig[i])
    else Delta(c, s.deltas[i][k], s.inputs[i][k - 1] * sig[i])
  }

  /** One momentum step: `momentum * last + rate * grad`. */
  function Delta(c: LayerConfig, last: real, grad: real): real {
    c.momentum * last + c.learningRate * grad
  }

  /** Column 0 of a momentum matrix: the bias deltas. */
  function BiasColumn(d: seq<seq<real>>): (col: seq<real>)
    requires forall i :: 0 <= i < |d| ==> |d[i]| > 0
    ensures |col| == |d|
  {
    seq(|d|, i requires 0 <= i < |d| => d[i][0])
  }

  /** Stores momentum matrix `d` and adds each weight's delta to that weight. */
  function StepWeights(c: LayerConfig, s: LayerState, d: seq<seq<real>>): (s': LayerState)
    requires Shaped(c, s) && IsWeightMatrix(c, d)
    ensures Shaped(c, s')
  {
    var n, p := c.numberOfNeurons, c.numberOfNeuronsPreviousLayer;
    s.(weights := seq(n, i requires 0 <= i < n =>
                    seq(p, k requires 0 <= k < p => s.weights[i][k] + d[i][k + 1])),
       deltas := d)
  }

  /** `ComputeHiddenBackward(G)`: gradient sums from the weights as they were on entry,
      then every neuron's bias and weights move by their new deltas. Reading `G[k]` for
      a neuron `k` past the end of `G` throws before anything has changed. */
  function HiddenBackward(c: LayerConfig, s: LayerState, g: seq<real>): (r: (LayerState, Result<seq<real>>))
    requires Primed(c, s)
    ensures Primed(c, r.0) && r.0.inputs == s.inputs && r.0.derivs == s.derivs
    ensures r.1.Success? <==> |g| >= c.numberOfNeurons
    ensures r.1.Failure? ==> r.0 == s && r.1.error == IndexOutOfRange
    ensures r.1.Success? ==> |r.1.value| == c.numberOfNeuronsPreviousLayer + 1
  {
    if |g| < c.numberOfNeurons then (s, Failure(IndexOutOfRange))
    else
      var sig := HiddenSignal(c, s, g);
      (HiddenStep(c, s, sig), Success(GradSums(c, s, sig)))
  }

  /** The update loop of the hidden pass for signals `sig`: each neuron's bias and
      weights move by its own new deltas. */
  function HiddenStep(c: LayerConfig, s: LayerState, sig: seq<real>): (s': LayerState)
    requires Primed(c, s) && |sig| >= c.numberOfNeurons
    ensures Primed(c, s') && s'.inputs == s.inputs && s'.derivs == s.derivs
  {
    var n, d := c.numberOfNeurons, NewDeltas(c, s, sig);
    StepWeights(c, s, d).(bias := seq(n, i requires 0 <= i < n => s.bias[i] + d[i][0]))
  }

  /** `ComputeOutputBackward(E)`: as the hidden pass with the errors themselves as the
      signal, except that every neuron's bias delta is added to the bias of neuron 0. */
  function OutputBackward(c: LayerConfig, s: LayerState, e: seq<real>): (r: (LayerState, Result<seq<real>>))
    requires Primed(c, s)
    ensures Primed(c, r.0) && r.0.inputs == s.inputs && r.0.derivs == s.derivs
    ensures r.1.Success? <==> |e| >= c.numberOfNeurons
    ensures r.1.Failure? ==> r.0 == s && r.1.error == IndexOutOfRange
    ensures r.1.Success? ==> |r.1.value| == c.numberOfNeuronsPreviousLayer + 1
  {
    if |e| < c.numberOfNeurons then (s, Failure(IndexOutOfRange))
    else (OutputStep(c, s, e), Success(GradSums(c, s, e)))
  }

  /** The update loop of the output pass: weights move by their own deltas, and the
      bias of neuron 0 by the sum of all bias deltas. */
  function OutputStep(c: LayerConfig, s: LayerState, e: seq<real>): (s': LayerState)
    requires Primed(c, s) && |e| >= c.numberOfNeurons
    ensures Primed(c, s') && s'.inputs == s.inputs && s'.derivs == s.derivs
  {
    var n, d := c.numberOfNeurons, NewDeltas(c, s, e);
    var b := if n == 0 then s.bias else s.bias[0 := s.bias[0] + Total(BiasColumn(d))];
    StepWeights(c, s, d).(bias := b)
  }

  /** `SetWeights(m)` from row `i` on: row `i`'s entry 0 becomes the bias of neuron `i`
      and entries 1..P its weights. A missing row or entry throws, leaving the rows
      already written (and a bias written just before the throw) in place. */
  function SetRows(c: LayerConfig, s: LayerState, m: seq<seq<real>>, i: nat): (r: (LayerState, Result<()>))
    requires Shaped(c, s) && i <= c.numberOfNeurons
    ensures Shaped(c, r.0)
    ensures r.0.inputs == s.inputs && r.0.derivs == s.derivs && r.0.deltas == s.deltas
    ensures r.1.Success? <==> RowsFit(c, m, i)
    decreases c.numberOfNeurons - i
  {
    var n, p := c.numberOfNeurons, c.numberOfNeuronsPreviousLayer;
    if i == n then (s, Success(()))
    else if i >= |m| || |m[i]| == 0 then
      assert !RowsFit(c, m, i);
      (s, Failure(IndexOutOfRange))
    else
      var s1 := s.(bias := s.bias[i := m[i][0]]);
      if |m[i]| < p + 1 then
        assert !RowsFit(c, m, i);
        (s1, Failure(IndexOutOfRange))
      else
        RowsFitStep(c, m, i);
        SetRows(c, s1.(weights := s1.weights[i := m[i][1..p + 1]]), m, i + 1)
  }

  /** Rows `i..N-1` of `m` exist and each holds at least P+1 entries. */
  predicate RowsFit(c: LayerConfig, m: seq<seq<real>>, i: nat) {
    && (i < c.numberOfNeurons ==> c.numberOfNeurons <= |m|)
    && forall k :: i <= k < c.numberOfNeurons ==> |m[k]| >= c.numberOfNeuronsPreviousLayer + 1
  }

  lemma RowsFitStep(c: LayerConfig, m: seq<seq<real>>, i: nat)
    requires i < c.numberOfNeurons && i < |m| && |m[i]| >= c.numberOfNeuronsPreviousLayer + 1
    ensures RowsFit(c, m, i) <==> RowsFit(c, m, i + 1)
  {
    var n, p := c.numberOfNeurons, c.numberOfNeuronsPreviousLayer;
    if RowsFit(c, m, i + 1) {
      forall k | i <= k < n ensures |m[k]| >= p + 1 {
        if k != i {
          assert i + 1 <= k < n;
        }
      }
    }
  }

  /** `SetRows` from row `i` on, when every remaining row fits: rows before `i` keep their
      values and every row from `i` on takes its bias from entry 0 and its weights from
      entries 1..P of the matrix row. */
  lemma {:induction false} SetRowsWrites(c: LayerConfig, s: LayerState, m: seq<seq<real>>, i: nat)
    requires Shaped(c, s) && i <= c.numberOfNeurons && RowsFit(c, m, i)
    ensures var (s', r) := SetRows(c, s, m, i);
      var p := c.numberOfNeuronsPreviousLayer;
      && r.Success?
      && (forall k :: 0 <= k < i ==> s'.bias[k] == s.bias[k] && s'.weights[k] == s.weights[k])
      && (forall k :: i <= k < c.numberOfNeurons ==>
            k < |m| && |m[k]| > p && s'.bias[k] == m[k][0] && s'.weights[k] == m[k][1..p + 1])
    decreases c.numberOfNeurons - i
  {
    var n, p := c.numberOfNeurons, c.numberOfNeuronsPreviousLayer;
    if i < n {
      assert i < |m| && |m[i]| >= p + 1;
      RowsFitStep(c, m, i);
      var s1 := s.(bias := s.bias[i := m[i][0]]);
      var s2 := s1.(weights := s1.weights[i := m[i][1..p + 1]]);
      assert SetRows(c, s, m, i) == SetRows(c, s2, m, i + 1);
      SetRowsWrites(c, s2, m, i + 1);
      var (s', _) := SetRows(c, s2, m, i + 1);
      assert s'.bias[i] == m[i][0] && s'.weights[i] == m[i][1..p + 1];
    }
  }

  /** `SetWeights(m)`: it succeeds exactly when `m` has a row of at least P+1 entries
      for every neuron, and then neuron `i` takes its bias from `m[i][0]` and its
      weights from `m[i][1..P]`. The momentum matrix and the caches are never touched. */
  function SetWeights(c: LayerConfig, s: LayerState, m: seq<seq<real>>): (r: (LayerState, Result<()>))
    requires Shaped(c, s)
    ensures Shaped(c, r.0)
    ensures r.1.Success? <==>
      c.numberOfNeurons <= |m| && forall i :: 0 <= i < c.numberOfNeurons ==> |m[i]| > c.numberOfNeuronsPreviousLayer
    ensures r.0.deltas == s.deltas && r.0.inputs == s.inputs && r.0.derivs == s.derivs
    ensures r.1.Success? ==> forall i :: 0 <= i < c.numberOfNeurons ==>
      r.0.bias[i] == m[i][0] && r.0.weights[i] == m[i][1..c.numberOfNeuronsPreviousLayer + 1]
  {
    if RowsFit(c, m, 0) then
      SetRowsWrites(c, s, m, 0);
      SetRows(c, s, m, 0)
    else
      SetRows(c, s, m, 0)
  }
}
