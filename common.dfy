/**
  Arithmetic and buffer primitives shared by both versions of the engine:
  the weighted sum a neuron accumulates, the scaling of a random draw into the
  initial-weight interval, zero-filled buffers and `memcpy`.
  All quantities are mathematical reals, not IEEE single-precision floats.
 */
module Common {

  /** The weighted sum of the first |w| inputs, accumulated left to right as the
      neuron's loop does: ((w[0]*x[0]) + w[1]*x[1]) + ... */
  function Dot(w: seq<real>, x: seq<real>): real
    requires |w| <= |x|
    decreases |w|
  {
    if |w| == 0 then 0.0 else Dot(w[..|w| - 1], x) + w[|w| - 1] * x[|w| - 1]
  }

  /** The net value of a neuron whose weight vector is w: the first |w|-1
      weights multiply the inputs and the last one is the bias. */
  function Net(w: seq<real>, x: seq<real>): real
    requires 1 <= |w| <= |x| + 1
  {
    Dot(w[..|w| - 1], x) + w[|w| - 1]
  }

  /** The textbook dot product, summed head first; a reference definition that
      does not follow the loop's order of accumulation. */
  function Sum(w: seq<real>, x: seq<real>): real
    requires |w| <= |x|
    decreases |w|
  {
    if |w| == 0 then 0.0 else w[0] * x[0] + Sum(w[1..], x[1..])
  }

  lemma {:induction false} SumLast(w: seq<real>, x: seq<real>)
    requires 1 <= |w| <= |x|
    ensures Sum(w, x) == Sum(w[..|w| - 1], x) + w[|w| - 1] * x[|w| - 1]
    decreases |w|
  {
    if |w| > 1 {
      SumLast(w[1..], x[1..]);
      assert w[1..][..|w| - 2] == w[..|w| - 1][1..];
    }
  }

  /** Over the reals the loop's left-to-right accumulation equals the dot product. */
  lemma {:induction false} DotIsSum(w: seq<real>, x: seq<real>)
    requires |w| <= |x|
    ensures Dot(w, x) == Sum(w, x)
    decreases |w|
  {
    if |w| > 0 {
      DotIsSum(w[..|w| - 1], x);
      SumLast(w, x);
    }
  }

  /** Only the first |w| inputs take part in the weighted sum. */
  lemma {:induction false} DotPrefix(w: seq<real>, x: seq<real>, y: seq<real>)
    requires |w| <= |x| && |w| <= |y|
    requires x[..|w|] == y[..|w|]
    ensures Dot(w, x) == Dot(w, y)
    decreases |w|
  {
    if |w| > 0 {
      var n := |w| - 1;
      assert x[n] == x[..|w|][n] && y[n] == y[..|w|][n];
      assert x[..n] == x[..|w|][..n] && y[..n] == y[..|w|][..n];
      DotPrefix(w[..n], x, y);
    }
  }

  /** A neuron with n weights reads only its first n-1 inputs: evaluating it on
      any input that agrees on that prefix (for instance the copy the forward
      pass keeps in last_input) gives the same net. */
  lemma NetPrefix(w: seq<real>, x: seq<real>, y: seq<real>)
    requires 1 <= |w| <= |x| + 1 && |w| <= |y| + 1
    requires x[..|w| - 1] == y[..|w| - 1]
    ensures Net(w, x) == Net(w, y)
  {
    var n := |w| - 1;
    assert w[..n][..n] == w[..n];
    DotPrefix(w[..n], x, y);
  }

  /** With an all-zero input the net is the bias alone. */
  lemma {:induction false} DotZero(w: seq<real>, x: seq<real>)
    requires |w| <= |x|
    requires forall i :: 0 <= i < |w| ==> x[i] == 0.0
    ensures Dot(w, x) == 0.0
    decreases |w|
  {
    if |w| > 0 {
      DotZero(w[..|w| - 1], x);
    }
  }

  /** The weight initialisation formula ((draw / drawMax) * (hi - lo)) + lo:
      a draw in [0, drawMax] lands between lo and hi, the ends of the draw
      range mapping to lo and hi. */
  function Scale(draw: nat, drawMax: nat, lo: real, hi: real): (r: real)
    requires 0 < drawMax && draw <= drawMax
    ensures lo <= hi ==> lo <= r <= hi
    ensures hi <= lo ==> hi <= r <= lo
    ensures draw == 0 ==> r == lo
    ensures draw == drawMax ==> r == hi
  {
    var t := draw as real / drawMax as real;
    assert 0.0 <= t <= 1.0 by {
      assert t * (drawMax as real) == draw as real;
    }
    var d := hi - lo;
    assert d - t * d == (1.0 - t) * d;
    assert 0.0 <= d ==> 0.0 <= t * d <= d by {
      if 0.0 <= d {
        assert 0.0 <= t * d;
        assert 0.0 <= (1.0 - t) * d;
      }
    }
    assert d <= 0.0 ==> d <= t * d <= 0.0 by {
      if d <= 0.0 {
        assert t * d <= 0.0;
        assert (1.0 - t) * d <= 0.0;
      }
    }
    t * d + lo
  }

  /** Every draw fits the range [0, drawMax]. */
  predicate DrawsUpTo(draws: seq<nat>, drawMax: nat) {
    forall i :: 0 <= i < |draws| ==> draws[i] <= drawMax
  }

  /** The input width of layer k of a network with layer sizes `sizes`: the
      network's input width for the first layer, the previous layer's size
      for the others. */
  function InputWidth(sizes: seq<nat>, inputSize: nat, k: nat): nat
    requires k < |sizes|
  {
    if k == 0 then inputSize else sizes[k - 1]
  }

  /** A buffer of n zeros, as malloc followed by memset(0) leaves it. */
  function Zeros(n: nat): (z: seq<real>)
    ensures |z| == n
  {
    seq(n, _ => 0.0)
  }

  /** A fresh buffer of n zeros, as malloc followed by memset(0) leaves it. */
  method NewZeros(n: nat) returns (a: array<real>)
    ensures fresh(a) && a.Length == n && a[..] == Zeros(n)
  {
    a := new real[n](_ => 0.0);
  }

  /** Every entry of the matrix is zero. */
  ghost predicate ZeroMatrix(a: array2<real>)
    reads a
  {
    forall i, j :: 0 <= i < a.Length0 && 0 <= j < a.Length1 ==> a[i, j] == 0.0
  }

  /** A fresh n-by-m matrix of zeros. */
  method NewZeros2(n: nat, m: nat) returns (a: array2<real>)
    ensures fresh(a) && a.Length0 == n && a.Length1 == m && ZeroMatrix(a)
  {
    a := new real[n, m]((_, _) => 0.0);
  }

  /** A sequence that agrees with b on b's indices and ends in d is b + [d]. */
  lemma SnocEqual<T>(a: seq<T>, b: seq<T>, d: T)
    requires |a| == |b| + 1 && a[|b|] == d
    requires forall k :: 0 <= k < |b| ==> a[k] == b[k]
    ensures a == b + [d]
  {
  }

  /** Objects and a set of objects allocated since the earlier state form a fresh set. */
  twostate lemma FreshUnion(new x: object, new y: object, new z: object, new s: set<object>)
    requires fresh(x) && fresh(y) && fresh(z) && fresh(s)
    ensures fresh({x, y, z} + s)
  {
  }

  /** memcpy of the first n elements of src into dst; the regions must not
      overlap, as C requires of memcpy. */
  method Memcpy(dst: array<real>, src: array<real>, n: nat)
    requires n <= dst.Length && n <= src.Length
    requires dst != src
    modifies dst
    ensures dst[..n] == src[..n]
    ensures dst[n..] == old(dst[n..])
  {
    var i := 0;
    while i < n
      invariant 0 <= i <= n
      invariant dst[..i] == src[..i]
      invariant dst[i..] == old(dst[i..])
    {
      dst[i] := src[i];
      i := i + 1;
      assert dst[..i] == dst[..i - 1] + [dst[i - 1]];
    }
  }
}
