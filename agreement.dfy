/**
  The two versions of the engine compute the same forward pass: a current
  network read with derivative flag 0 is an older network whose activations
  are the current ones at flag 0.
 */
module Agreement {
  import opened Common
  import Codin
  import Legacy

  /** The older activations are the current ones evaluated as functions
      (derivative flag 0). */
  lemma ActivationsAgree(net: real)
    ensures Legacy.Relu(net) == Codin.Relu(net, false)
    ensures Legacy.Step(net) == Codin.Step(net, false)
    ensures Legacy.Linear(net) == Codin.Linear(net, false)
  {
  }

  /** A current neuron as an older one: same weights, activation at flag 0. */
  function UnitToLegacy(u: Codin.Unit): (v: Legacy.Unit)
    ensures v.weights == u.weights
    ensures forall net :: v.actv(net) == u.activation(net, false)
  {
    Legacy.Unit(u.weights, net => u.activation(net, false))
  }

  /** A current layer as an older one. */
  function DenseToLegacy(d: Codin.Dense): (e: Legacy.Dense)
    ensures e.inSize == d.inputSize && |e.units| == |d.units|
    ensures forall i :: 0 <= i < |d.units| ==> e.units[i] == UnitToLegacy(d.units[i])
    ensures d.Shaped() ==> e.Shaped()
  {
    Legacy.Dense(d.inputSize, seq(|d.units|, i requires 0 <= i < |d.units| => UnitToLegacy(d.units[i])))
  }

  /** A current network as an older one, layer by layer. */
  function ToLegacy(ds: seq<Codin.Dense>): (es: seq<Legacy.Dense>)
    ensures |es| == |ds|
    ensures forall k :: 0 <= k < |ds| ==> es[k] == DenseToLegacy(ds[k])
    ensures Codin.Chained(ds) ==> Legacy.Chained(es)
  {
    seq(|ds|, k requires 0 <= k < |ds| => DenseToLegacy(ds[k]))
  }

  /** Both versions of layer_forward give the same output vector. */
  lemma LayerOutAgrees(d: Codin.Dense, x: seq<real>)
    requires d.Shaped() && d.inputSize <= |x|
    ensures Codin.LayerOut(d, x) == Legacy.LayerOut(DenseToLegacy(d), x)
  {
    var e := DenseToLegacy(d);
    forall i | 0 <= i < |d.units|
      ensures Codin.LayerOut(d, x)[i] == Legacy.LayerOut(e, x)[i]
    {
      assert e.units[i] == UnitToLegacy(d.units[i]);
    }
  }

  /** Both versions of network_forward compute the same fold. */
  lemma {:induction false} FoldAgrees(ds: seq<Codin.Dense>, x: seq<real>)
    requires Codin.Chained(ds) && (|ds| > 0 ==> ds[0].inputSize <= |x|)
    ensures Codin.Fold(ds, x) == Legacy.Fold(ToLegacy(ds), x)
    decreases |ds|
  {
    if |ds| > 0 {
      var n := |ds| - 1;
      assert Codin.Chained(ds[..n]);
      FoldAgrees(ds[..n], x);
      assert ToLegacy(ds)[..n] == ToLegacy(ds[..n]);
      LayerOutAgrees(ds[n], Codin.Fold(ds[..n], x));
    }
  }
}
