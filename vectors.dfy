/** The few operations of the linear-algebra collaborator that the core relies on,
    over vectors of reals. */
module Vectors {
  import opened Errors

  /** Dot product `u * v`. */
  function Dot(u: seq<real>, v: seq<real>): real
    requires |u| == |v|
  {
    if |u| == 0 then 0.0 else u[0] * v[0] + Dot(u[1..], v[1..])
  }

  /** Sum of the coordinates. */
  function Total(xs: seq<real>): real {
    if |xs| == 0 then 0.0 else xs[0] + Total(xs[1..])
  }

  /** `Vector.GetVectorOfOnes(n)`. */
  function Ones(n: nat): (r: seq<real>)
    ensures |r| == n && forall i :: 0 <= i < n ==> r[i] == 1.0
  {
    seq(n, _ => 1.0)
  }

  /** Coordinate-wise difference `y - o`, which fails on vectors of different sizes. */
  function Sub(y: seq<real>, o: seq<real>): (r: Result<seq<real>>)
    ensures r.Success? <==> |y| == |o|
    ensures r.Success? ==> |r.value| == |y| && forall i :: 0 <= i < |y| ==> r.value[i] + o[i] == y[i]
  {
    if |y| != |o| then Failure(DimensionMismatch) else Success(seq(|y|, i requires 0 <= i < |y| => y[i] - o[i]))
  }

  /** A dot product is the sum of the coordinate-wise products. */
  lemma {:induction false} DotIsSumOfProducts(u: seq<real>, v: seq<real>)
    requires |u| == |v|
    ensures Dot(u, v) == Total(seq(|u|, i requires 0 <= i < |u| => u[i] * v[i]))
  {
    if |u| > 0 {
      DotIsSumOfProducts(u[1..], v[1..]);
      var p := seq(|u|, i requires 0 <= i < |u| => u[i] * v[i]);
      var q := seq(|u| - 1, i requires 0 <= i < |u| - 1 => u[1..][i] * v[1..][i]);
      assert forall j :: 0 <= j < |q| ==> p[1..][j] == q[j];
      assert p[1..] == q;
    }
  }

  /** A dot product with the all-ones vector is the sum of the coordinates. */
  lemma {:induction false} DotOnes(xs: seq<real>)
    ensures Dot(xs, Ones(|xs|)) == Total(xs)
  {
    if |xs| > 0 {
      assert Ones(|xs|)[1..] == Ones(|xs| - 1);
      DotOnes(xs[1..]);
    }
  }

  /** `e * e` is never negative, and is zero exactly when every coordinate is zero. */
  lemma {:induction false} DotSelf(e: seq<real>)
    ensures Dot(e, e) >= 0.0
    ensures Dot(e, e) == 0.0 <==> forall i :: 0 <= i < |e| ==> e[i] == 0.0
  {
    if |e| > 0 {
      DotSelf(e[1..]);
      SquarePlus(e[0], Dot(e[1..], e[1..]));
      if Dot(e, e) == 0.0 {
        forall i | 0 <= i < |e| ensures e[i] == 0.0 {
          if i > 0 { assert e[i] == e[1..][i - 1]; }
        }
      }
    }
  }

  lemma SquarePlus(a: real, r: real)
    requires r >= 0.0
    ensures a * a + r >= 0.0
    ensures a * a + r == 0.0 ==> a == 0.0 && r == 0.0
  {
    assert a * a >= 0.0;
    if a * a + r == 0.0 {
      assert a * a == 0.0;
      MulZero(a, a);
    }
  }

  lemma MulZero(a: real, b: real)
    requires a * b == 0.0
    ensures a == 0.0 || b == 0.0
  {
    if a != 0.0 && b != 0.0 {
      MulNonZero(a, b);
    }
  }

  lemma MulNonZero(a: real, b: real)
    requires a != 0.0 && b != 0.0
    ensures a * b != 0.0
  {
    if a > 0.0 && b > 0.0 {
      assert a * b > 0.0;
    } else if a < 0.0 && b < 0.0 {
      assert (-a) * (-b) > 0.0;
    } else if a > 0.0 {
      assert a * (-b) > 0.0;
    } else {
      assert (-a) * b > 0.0;
    }
  }

  /** A sum of non-negative reals is non-negative. */
  lemma {:induction false} TotalNonNegative(xs: seq<real>)
    ensures (forall i :: 0 <= i < |xs| ==> xs[i] >= 0.0) ==> Total(xs) >= 0.0
  {
    if |xs| > 0 && forall i :: 0 <= i < |xs| ==> xs[i] >= 0.0 {
      assert forall i :: 0 <= i < |xs| - 1 ==> xs[1..][i] == xs[i + 1];
      TotalNonNegative(xs[1..]);
    }
  }

  /** Appending one coordinate adds it to the sum: `Total` agrees with a left-to-right accumulator. */
  lemma {:induction false} TotalSnoc(xs: seq<real>, x: real)
    ensures Total(xs + [x]) == Total(xs) + x
  {
    if |xs| > 0 {
      assert (xs + [x])[1..] == xs[1..] + [x];
      TotalSnoc(xs[1..], x);
    }
  }
}
