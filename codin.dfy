/**
  The current version of the forward-evaluation engine (src/neuralnetwork.c):
  neurons, layers and networks that keep the state of their last forward pass
  (last_input, last_net, last_output) next to zeroed gradient buffers.

  The objects are classes whose retained-state fields the forward methods
  overwrite; each method is specified against the pure functions NeuronOut,
  LayerOut and Fold over value snapshots (Unit, Dense) of the weights.
 */
module Codin {
  import opened Common

  /** An activation function: net and a derivative flag to a value. */
  type Activation = (real, bool) -> real

  const INIT_RAND_MIN: real := -2.5
  const INIT_RAND_MAX: real := 2.5
  /** The C library's RAND_MAX, the largest value rand() returns (glibc's value). */
  const RAND_MAX: nat := 2147483647

  // ---------------------------------------------------------------------------
  // Activation functions

  /** relu(net, d): max(0, net), or its derivative (1 on net >= 0, else 0).
      In both modes it is linear(net, d) gated by step(net, 0). */
  function Relu(net: real, derivative: bool): (r: real)
    ensures r == Linear(net, derivative) * Step(net, false)
    ensures !derivative ==> r >= 0.0 && r >= net && (r == 0.0 || r == net)
    ensures derivative ==> r == Step(net, false)
  {
    if net >= 0.0 then (if derivative then 1.0 else net) else 0.0
  }

  /** step(net, d): the Heaviside step; its derivative is taken as 0 everywhere. */
  function Step(net: real, derivative: bool): (r: real)
    ensures r == 0.0 || r == 1.0
    ensures derivative ==> r == 0.0
    ensures !derivative ==> (r == 1.0 <==> net >= 0.0)
  {
    if net >= 0.0 && !derivative then 1.0 else 0.0
  }

  /** linear(net, d): the identity, whose derivative is 1. */
  function Linear(net: real, derivative: bool): (r: real)
    ensures derivative ==> r == 1.0
    ensures !derivative ==> r == net
  {
    if derivative then 1.0 else net
  }

  // ---------------------------------------------------------------------------
  // Value snapshots and the pure specification of forward evaluation

  /** A neuron's weights (the bias last) and its activation. */
  datatype Unit = Unit(weights: seq<real>, activation: Activation)

  /** A layer: the width of its input and its neurons. */
  datatype Dense = Dense(inputSize: nat, units: seq<Unit>) {
    /** Every neuron has one weight per input plus the bias. */
    predicate Shaped() {
      forall i :: 0 <= i < |units| ==> |units[i].weights| == inputSize + 1
    }
  }

  /** The output of one neuron on input x: activation(net, 0). */
  function NeuronOut(u: Unit, x: seq<real>): real
    requires 1 <= |u.weights| <= |x| + 1
  {
    u.activation(Net(u.weights, x), false)
  }

  /** The output vector of a layer: neuron i's output at index i. */
  function LayerOut(d: Dense, x: seq<real>): (y: seq<real>)
    requires d.Shaped() && d.inputSize <= |x|
    ensures |y| == |d.units|
  {
    seq(|d.units|, i requires 0 <= i < |d.units| => NeuronOut(d.units[i], x))
  }

  /** Layers whose input widths chain: layer k reads what layer k-1 produces. */
  predicate Chained(ds: seq<Dense>) {
    && (forall k :: 0 <= k < |ds| ==> ds[k].Shaped())
    && (forall k :: 1 <= k < |ds| ==> ds[k].inputSize == |ds[k - 1].units|)
  }

  /** Forward evaluation through the layers in order: the left fold of LayerOut
      (written from the last layer back, so that each prefix is a fold too). */
  function Fold(ds: seq<Dense>, x: seq<real>): (y: seq<real>)
    requires Chained(ds) && (|ds| > 0 ==> ds[0].inputSize <= |x|)
    ensures |ds| == 0 ==> y == x
    ensures |ds| > 0 ==> |y| == |ds[|ds| - 1].units|
    decreases |ds|
  {
    if |ds| == 0 then x
    else
      var n := |ds| - 1;
      assert Chained(ds[..n]);
      LayerOut(ds[n], Fold(ds[..n], x))
  }

  /** Fold is the left fold: the first layer consumes the external input and the
      remaining layers consume its output. */
  lemma {:induction false} FoldFirst(ds: seq<Dense>, x: seq<real>)
    requires Chained(ds) && |ds| > 0 && ds[0].inputSize <= |x|
    ensures Chained(ds[1..])
    ensures Fold(ds, x) == Fold(ds[1..], LayerOut(ds[0], x))
    decreases |ds|
  {
    var n := |ds| - 1;
    ChainedSlices(ds);
    if n > 0 {
      var p, q, y := ds[..n], ds[1..][..n - 1], LayerOut(ds[0], x);
      FoldFirst(p, x);
      var z := Fold(q, y);
      assert Fold(ds[1..], y) == LayerOut(ds[n], z);
      assert Fold(ds, x) == LayerOut(ds[n], Fold(p, x));
    }
  }

  /** The slices FoldFirst's induction goes through are chained too. */
  lemma ChainedSlices(ds: seq<Dense>)
    requires Chained(ds) && |ds| > 0
    ensures Chained(ds[1..]) && Chained(ds[..|ds| - 1])
    ensures |ds| == 1 ==> ds[..0] == [] && ds[1..] == []
    ensures |ds| > 1 ==> ds[..|ds| - 1][0] == ds[0] && ds[1..][|ds| - 2] == ds[|ds| - 1]
    ensures |ds| > 1 ==> ds[..|ds| - 1][1..] == ds[1..][..|ds| - 2] && Chained(ds[1..][..|ds| - 2])
  {
  }

  /** Fold over one more layer: the output of the first i + 1 layers is layer i
      applied to the output of the first i. */
  lemma FoldStep(ds: seq<Dense>, x: seq<real>, i: nat)
    requires Chained(ds) && i < |ds| && ds[0].inputSize <= |x|
    ensures Chained(ds[..i]) && Chained(ds[..i + 1])
    ensures ds[i].inputSize <= |Fold(ds[..i], x)|
    ensures Fold(ds[..i + 1], x) == LayerOut(ds[i], Fold(ds[..i], x))
  {
    assert Chained(ds[..i]) && Chained(ds[..i + 1]);
    assert ds[..i + 1][..i] == ds[..i];
  }

  /** The vectors a forward pass produces: entry k is the input of layer k (the
      output of the first k layers), the last entry the network's output. */
  ghost function Stages(ds: seq<Dense>, x: seq<real>): (s: seq<seq<real>>)
    requires Chained(ds) && (|ds| > 0 ==> ds[0].inputSize <= |x|)
    ensures |s| == |ds| + 1
  {
    assert forall k :: 0 <= k <= |ds| ==> Chained(ds[..k]);
    seq(|ds| + 1, k requires 0 <= k <= |ds| => Fold(ds[..k], x))
  }

  /** The stages start at the input and end at the fold of all the layers. */
  lemma StagesEnds(ds: seq<Dense>, x: seq<real>)
    requires Chained(ds) && (|ds| > 0 ==> ds[0].inputSize <= |x|)
    ensures Stages(ds, x)[0] == x
    ensures Stages(ds, x)[|ds|] == Fold(ds, x)
  {
    assert ds[..|ds|] == ds;
    assert ds[..0] == [];
  }

  /** Each stage is the one before it passed through one layer. */
  lemma StagesNext(ds: seq<Dense>, x: seq<real>, k: nat)
    requires Chained(ds) && k < |ds| && ds[0].inputSize <= |x|
    ensures ds[k].inputSize <= |Stages(ds, x)[k]|
    ensures Stages(ds, x)[k + 1] == LayerOut(ds[k], Stages(ds, x)[k])
  {
    FoldStep(ds, x, k);
  }

  /** A layer of linear neurons computes the affine map of its weights. */
  lemma LinearLayerIsAffine(d: Dense, x: seq<real>)
    requires d.Shaped() && d.inputSize <= |x|
    requires forall i :: 0 <= i < |d.units| ==> d.units[i].activation == Linear
    ensures forall i :: 0 <= i < |d.units| ==> LayerOut(d, x)[i] == Net(d.units[i].weights, x)
  {
  }

  /** The network value with weight k of neuron j of layer l set to v, as the
      assignment layers[l]->neurons[j]->weights[k] = v leaves it. */
  function WithWeight(ds: seq<Dense>, l: nat, j: nat, k: nat, v: real): (es: seq<Dense>)
    requires l < |ds| && j < |ds[l].units| && k < |ds[l].units[j].weights|
    ensures |es| == |ds| && (Chained(ds) ==> Chained(es))
    ensures forall m :: 0 <= m < |ds| && m != l ==> es[m] == ds[m]
    ensures es[l].inputSize == ds[l].inputSize && |es[l].units| == |ds[l].units|
    ensures forall i :: 0 <= i < |ds[l].units| && i != j ==> es[l].units[i] == ds[l].units[i]
    ensures es[l].units[j].activation == ds[l].units[j].activation
    ensures es[l].units[j].weights == ds[l].units[j].weights[k := v]
  {
    var u := ds[l].units[j];
    ds[l := ds[l].(units := ds[l].units[j := u.(weights := u.weights[k := v])])]
  }

  /** Stores to two different weights of one neuron commute: the order in
      which a chained assignment performs them does not matter. */
  lemma WithWeightCommutes(ds: seq<Dense>, l: nat, j: nat, k1: nat, a: real, k2: nat, b: real)
    requires l < |ds| && j < |ds[l].units|
    requires k1 < |ds[l].units[j].weights| && k2 < |ds[l].units[j].weights| && k1 != k2
    ensures WithWeight(WithWeight(ds, l, j, k1, a), l, j, k2, b)
         == WithWeight(WithWeight(ds, l, j, k2, b), l, j, k1, a)
  {
    var p := WithWeight(WithWeight(ds, l, j, k1, a), l, j, k2, b);
    var q := WithWeight(WithWeight(ds, l, j, k2, b), l, j, k1, a);
    assert p[l].units[j].weights == q[l].units[j].weights;
    assert p[l].units == q[l].units;
  }

  /** The initial weights drawn for a neuron: draw i scaled into
      [INIT_RAND_MIN, INIT_RAND_MAX]. */
  function InitWeights(draws: seq<nat>, n: nat): (w: seq<real>)
    requires n <= |draws| && DrawsUpTo(draws, RAND_MAX)
    ensures |w| == n
    ensures forall i :: 0 <= i < n ==> INIT_RAND_MIN <= w[i] <= INIT_RAND_MAX
  {
    seq(n, i requires 0 <= i < n => Scale(draws[i], RAND_MAX, INIT_RAND_MIN, INIT_RAND_MAX))
  }

  /** Enough draws, each within [0, RAND_MAX], for nNeurons neurons of nWeights weights. */
  predicate LayerDraws(draws: seq<seq<nat>>, nNeurons: nat, nWeights: nat) {
    nNeurons <= |draws| &&
    forall i :: 0 <= i < nNeurons ==> nWeights <= |draws[i]| && DrawsUpTo(draws[i], RAND_MAX)
  }

  /** Enough draws for every layer new_network builds. */
  predicate NetworkDraws(draws: seq<seq<seq<nat>>>, nLayers: nat, sizes: seq<nat>, inputSize: nat)
    requires nLayers <= |sizes|
  {
    nLayers <= |draws| &&
    forall i :: 0 <= i < nLayers ==> LayerDraws(draws[i], sizes[i], InputWidth(sizes, inputSize, i) + 1)
  }

  /** The layer new_layer builds, as a value: nNeurons neurons of inputSize + 1
      initial weights each, all with the given activation. */
  function InitDense(nNeurons: nat, inputSize: nat, activation: Activation, draws: seq<seq<nat>>): (d: Dense)
    requires LayerDraws(draws, nNeurons, inputSize + 1)
    ensures d.Shaped() && d.inputSize == inputSize && |d.units| == nNeurons
    ensures forall i :: 0 <= i < nNeurons ==> d.units[i].activation == activation
  {
    Dense(inputSize, seq(nNeurons, i requires 0 <= i < nNeurons => Unit(InitWeights(draws[i], inputSize + 1), activation)))
  }

  /** The layers new_network builds, as values: layer k has sizes[k] neurons
      and activations[k]; the widths chain. */
  function InitModel(nLayers: nat, sizes: seq<nat>, activations: seq<Activation>, inputSize: nat,
                     draws: seq<seq<seq<nat>>>): (ds: seq<Dense>)
    requires nLayers <= |sizes| && nLayers <= |activations|
    requires NetworkDraws(draws, nLayers, sizes, inputSize)
    ensures |ds| == nLayers && Chained(ds)
    ensures forall k :: 0 <= k < nLayers ==>
      ds[k].inputSize == InputWidth(sizes, inputSize, k) && |ds[k].units| == sizes[k]
  {
    seq(nLayers, k requires 0 <= k < nLayers =>
      InitDense(sizes[k], InputWidth(sizes, inputSize, k), activations[k], draws[k]))
  }

  /** The first n + 1 layers new_network builds are the first n and then layer n. */
  lemma InitModelSnoc(n: nat, sizes: seq<nat>, activations: seq<Activation>, inputSize: nat,
                      draws: seq<seq<seq<nat>>>)
    requires n < |sizes| && n < |activations|
    requires NetworkDraws(draws, n + 1, sizes, inputSize)
    ensures NetworkDraws(draws, n, sizes, inputSize)
    ensures InitModel(n + 1, sizes, activations, inputSize, draws) ==
      InitModel(n, sizes, activations, inputSize, draws)
      + [InitDense(sizes[n], InputWidth(sizes, inputSize, n), activations[n], draws[n])]
  {
    var a := InitModel(n + 1, sizes, activations, inputSize, draws);
    var b := InitModel(n, sizes, activations, inputSize, draws);
    var d := InitDense(sizes[n], InputWidth(sizes, inputSize, n), activations[n], draws[n]);
    forall k | 0 <= k < n
      ensures a[k] == b[k]
    {
      assert a[k] == InitDense(sizes[k], InputWidth(sizes, inputSize, k), activations[k], draws[k]);
    }
    assert a[n] == d;
    SnocEqual(a, b, d);
  }

  /** random_vector(size, min, max): size draws scaled into [min, max]. */
  method RandomVector(size: nat, min: real, max: real, draws: seq<nat>) returns (vector: array<real>)
    requires size <= |draws| && DrawsUpTo(draws, RAND_MAX)
    ensures fresh(vector) && vector.Length == size
    ensures forall i :: 0 <= i < size ==> vector[i] == Scale(draws[i], RAND_MAX, min, max)
  {
    vector := new real[size];
    var i := 0;
    while i < size
      invariant 0 <= i <= size
      invariant forall k :: 0 <= k < i ==> vector[k] == Scale(draws[k], RAND_MAX, min, max)
    {
      vector[i] := Scale(draws[i], RAND_MAX, min, max);
      i := i + 1;
    }
  }

  // ---------------------------------------------------------------------------
  // Neuron

  class Neuron {
    const nWeights: nat
    const weights: array<real>
    const activation: Activation
    const lastInput: array<real>
    const lastGradient: array<real>
    const gradientPropagation: array<real>
    var lastNet: real
    var lastOutput: real
    /** The objects the neuron owns. */
    ghost const Repr: set<object>

    ghost predicate Valid() {
      && 1 <= nWeights
      && weights.Length == nWeights
      && lastInput.Length == nWeights - 1
      && lastGradient.Length == nWeights
      && gradientPropagation.Length == nWeights
      && weights != lastGradient && weights != gradientPropagation
      && lastGradient != gradientPropagation
      && Repr == {this, weights, lastInput, lastGradient, gradientPropagation}
    }

    /** What a forward pass overwrites: last_net, last_output and last_input. */
    ghost function Scratch(): set<object> {
      {this, lastInput}
    }

    ghost function Value(): Unit
      reads weights
    {
      Unit(weights[..], activation)
    }

    /** The state new_neuron leaves behind, besides the weights. */
    ghost predicate Zeroed()
      reads this, lastInput, lastGradient, gradientPropagation
    {
      && lastNet == 0.0 && lastOutput == 0.0
      && lastInput[..] == Zeros(lastInput.Length)
      && lastGradient[..] == Zeros(lastGradient.Length)
      && gradientPropagation[..] == Zeros(gradientPropagation.Length)
    }

    /** The state neuron_forward leaves after evaluating input x. */
    ghost predicate Evaluated(x: seq<real>)
      requires Valid() && nWeights - 1 <= |x|
      reads this, weights, lastInput
    {
      && lastNet == Net(weights[..], x)
      && lastOutput == activation(lastNet, false) == NeuronOut(Value(), x)
      && lastInput[..] == x[..nWeights - 1]
    }

    /** new_neuron(n_weights, activation) */
    constructor (nWeights: nat, activation: Activation, draws: seq<nat>)
      requires 1 <= nWeights <= |draws| && DrawsUpTo(draws, RAND_MAX)
      ensures Valid() && fresh(Repr)
      ensures this.nWeights == nWeights && this.activation == activation
      ensures weights[..] == InitWeights(draws, nWeights)
      ensures lastInput.Length == nWeights - 1 && Zeroed()
    {
      this.nWeights := nWeights;
      this.activation := activation;
      var w := RandomVector(nWeights, INIT_RAND_MIN, INIT_RAND_MAX, draws);
      weights := w;
      var inBuf := NewZeros(nWeights - 1);
      var gBuf := NewZeros(nWeights);
      var pBuf := NewZeros(nWeights);
      lastInput, lastGradient, gradientPropagation := inBuf, gBuf, pBuf;
      lastNet, lastOutput := 0.0, 0.0;
      Repr := {this, w, inBuf, gBuf, pBuf};
      new;
      assert weights[..] == InitWeights(draws, nWeights);
    }

    /** neuron_forward: net is the weighted sum of the inputs plus the bias, the
        output is activation(net, 0); both are kept, with a copy of the input. */
    method Forward(input: array<real>) returns (output: real)
      requires Valid()
      requires nWeights - 1 <= input.Length
      requires input != lastInput
      modifies Scratch()
      ensures lastNet == Net(weights[..], input[..])
      ensures lastOutput == activation(lastNet, false)
      ensures output == lastOutput == NeuronOut(Value(), input[..])
      ensures lastInput[..] == input[..nWeights - 1]
      ensures Evaluated(input[..])
    {
      var net := 0.0;
      var nMults := nWeights - 1;
      var i := 0;
      while i < nMults
        invariant 0 <= i <= nMults
        invariant net == Dot(weights[..i], input[..])
      {
        assert weights[..i + 1][..i] == weights[..i];
        net := net + weights[i] * input[i];
        i := i + 1;
      }
      net := net + weights[nWeights - 1];
      Memcpy(lastInput, input, nMults);
      lastNet := net;
      lastOutput := activation(net, false);
      output := lastOutput;
    }
  }

  /** The input a neuron keeps replays its last evaluation: its weights on
      last_input give last_net and last_output again. */
  lemma Replay(n: Neuron, x: seq<real>)
    requires n.Valid() && n.nWeights - 1 <= |x| && n.Evaluated(x)
    ensures n.lastNet == Net(n.weights[..], n.lastInput[..])
    ensures n.lastOutput == NeuronOut(n.Value(), n.lastInput[..])
  {
    var y := n.lastInput[..];
    assert y[..n.nWeights - 1] == y;
    NetPrefix(n.weights[..], x, y);
  }

  /** A neuron as new_neuron leaves it: on its zeroed last_input the net is the
      bias alone. */
  lemma ZeroedNet(n: Neuron)
    requires n.Valid() && n.Zeroed()
    ensures Net(n.weights[..], n.lastInput[..]) == n.weights[n.nWeights - 1]
  {
    var w := n.weights[..];
    DotZero(w[..n.nWeights - 1], n.lastInput[..]);
  }

  /** Neurons ns, valued us, each as new_neuron left it with nWeights weights,
      owning pairwise disjoint parts of owned; their forward state lies in
      scratch and their weights and gradient buffers in kept. Stated neuron by
      neuron from the last one back. */
  ghost predicate NeuronsBuilt(ns: seq<Neuron>, us: seq<Unit>, nWeights: nat, owned: set<object>,
                               scratch: set<object>, kept: set<object>)
    reads owned
    decreases |ns|
  {
    && |ns| == |us|
    && (|ns| > 0 ==>
      var n := |ns| - 1;
      && NeuronsBuilt(ns[..n], us[..n], nWeights, owned, scratch, kept)
      && ns[n].Valid() && ns[n].nWeights == nWeights && ns[n].Repr <= owned
      && ns[n] in scratch && ns[n].lastInput in scratch
      && ns[n].weights in kept && ns[n].lastGradient in kept && ns[n].gradientPropagation in kept
      && ns[n].Value() == us[n] && ns[n].Zeroed()
      && (forall k :: 0 <= k < n ==> ns[k].Repr !! ns[n].Repr))
  }

  /** NeuronsBuilt, spelled out for every neuron and every pair of neurons. */
  lemma {:induction false} NeuronsBuiltIff(ns: seq<Neuron>, us: seq<Unit>, nWeights: nat,
                                           owned: set<object>, scratch: set<object>, kept: set<object>)
    ensures NeuronsBuilt(ns, us, nWeights, owned, scratch, kept) <==>
      && |ns| == |us|
      && (forall k :: 0 <= k < |ns| ==>
        && ns[k].Valid() && ns[k].nWeights == nWeights && ns[k].Repr <= owned
        && ns[k] in scratch && ns[k].lastInput in scratch
        && ns[k].weights in kept && ns[k].lastGradient in kept && ns[k].gradientPropagation in kept
        && ns[k].Value() == us[k] && ns[k].Zeroed())
      && (forall k, l :: 0 <= k < l < |ns| ==> ns[k].Repr !! ns[l].Repr)
    decreases |ns|
  {
    if |ns| > 0 && |ns| == |us| {
      var n := |ns| - 1;
      NeuronsBuiltIff(ns[..n], us[..n], nWeights, owned, scratch, kept);
      assert forall k :: 0 <= k < n ==> ns[..n][k] == ns[k] && us[..n][k] == us[k];
    }
  }

  /** The loop of new_layer that builds nNeurons neurons of inputSize + 1
      weights each, all sharing one activation. owned is what they own,
      scratch what their forward passes overwrite and kept the rest. */
  method NewNeurons(nNeurons: nat, inputSize: nat, activation: Activation, draws: seq<seq<nat>>)
    returns (ns: seq<Neuron>, ghost owned: set<object>, ghost scratch: set<object>, ghost kept: set<object>)
    requires LayerDraws(draws, nNeurons, inputSize + 1)
    ensures |ns| == nNeurons && fresh(owned)
    ensures scratch <= owned && kept <= owned && scratch !! kept
    ensures NeuronsBuilt(ns, InitDense(nNeurons, inputSize, activation, draws).units, inputSize + 1,
                         owned, scratch, kept)
  {
    ghost var us := InitDense(nNeurons, inputSize, activation, draws).units;
    ns, owned, scratch, kept := [], {}, {}, {};
    var i := 0;
    while i < nNeurons
      invariant 0 <= i <= nNeurons && |ns| == i
      invariant fresh(owned) && scratch <= owned && kept <= owned && scratch !! kept
      invariant forall k :: 0 <= k < i ==>
        && ns[k].Valid() && ns[k].nWeights == inputSize + 1 && ns[k].Repr <= owned
        && ns[k] in scratch && ns[k].lastInput in scratch
        && ns[k].weights in kept && ns[k].lastGradient in kept && ns[k].gradientPropagation in kept
        && ns[k].Value() == us[k] && ns[k].Zeroed()
      invariant forall k, l :: 0 <= k < l < i ==> ns[k].Repr !! ns[l].Repr
      invariant forall o :: o in owned ==> allocated(o)
    {
      var n := new Neuron(inputSize + 1, activation, draws[i]);
      ns := ns + [n];
      owned := owned + n.Repr;
      scratch := scratch + {n, n.lastInput};
      kept := kept + {n.weights, n.lastGradient, n.gradientPropagation};
      i := i + 1;
    }
    NeuronsBuiltIff(ns, us, inputSize + 1, owned, scratch, kept);
  }

  // ---------------------------------------------------------------------------
  // Layer

  /** The buffers new_layer allocates and zeroes: the two gradient matrices,
      one row per neuron, and the last_input, last_net and last_output vectors. */
  method NewLayerBuffers(nNeurons: nat, inputSize: nat)
    returns (gp: array2<real>, lg: array2<real>, inBuf: array<real>, netBuf: array<real>, outBuf: array<real>)
    ensures fresh(gp) && fresh(lg) && fresh(inBuf) && fresh(netBuf) && fresh(outBuf)
    ensures gp != lg && inBuf != netBuf && inBuf != outBuf && netBuf != outBuf
    ensures gp.Length0 == nNeurons && gp.Length1 == inputSize + 1 && ZeroMatrix(gp)
    ensures lg.Length0 == nNeurons && lg.Length1 == inputSize + 1 && ZeroMatrix(lg)
    ensures inBuf[..] == Zeros(inputSize)
    ensures netBuf[..] == Zeros(nNeurons) && outBuf[..] == Zeros(nNeurons)
  {
    gp := NewZeros2(nNeurons, inputSize + 1);
    lg := NewZeros2(nNeurons, inputSize + 1);
    inBuf := NewZeros(inputSize);
    netBuf := NewZeros(nNeurons);
    outBuf := NewZeros(nNeurons);
  }

  class Layer {
    const nNeurons: nat
    const inputSize: nat
    const neurons: seq<Neuron>
    const gradientPropagation: array2<real>
    const lastGradient: array2<real>
    const lastInput: array<real>
    const lastNet: array<real>
    const lastOutput: array<real>
    /** The objects the layer owns. */
    ghost const Repr: set<object>
    /** What a forward pass overwrites: the layer's mirrors of the last input,
        nets and outputs, and each neuron's retained state. */
    ghost const Scratch: set<object>
    /** What a forward pass leaves as it is: the layer itself, the weight
        arrays and the gradient buffers. */
    ghost const Kept: set<object>
    /** The layer as a value: its input width and its neurons' weights. */
    ghost var model: Dense

    ghost predicate Valid() {
      && |neurons| == nNeurons
      && lastInput.Length == inputSize
      && lastNet.Length == nNeurons && lastOutput.Length == nNeurons
      && lastInput != lastNet && lastInput != lastOutput && lastNet != lastOutput
      && gradientPropagation.Length0 == nNeurons && gradientPropagation.Length1 == inputSize + 1
      && lastGradient.Length0 == nNeurons && lastGradient.Length1 == inputSize + 1
      && gradientPropagation != lastGradient
      && Scratch <= Repr && Kept <= Repr && Scratch !! Kept
      && lastInput in Scratch && lastNet in Scratch && lastOutput in Scratch
      && this in Kept && gradientPropagation in Kept && lastGradient in Kept
      && (forall i :: 0 <= i < |neurons| ==> Owns(neurons[i]))
      && (forall i, j :: 0 <= i < j < |neurons| ==> neurons[i].Repr !! neurons[j].Repr)
    }

    /** n is a valid neuron of this layer's input width, owned by the layer
        and disjoint from the layer's own buffers; its forward state is
        scratch and its weights and gradients are kept. */
    ghost predicate Owns(n: Neuron) {
      && n.Valid() && n.nWeights == inputSize + 1
      && n.Repr <= Repr
      && this !in n.Repr
      && lastInput !in n.Repr && lastNet !in n.Repr && lastOutput !in n.Repr
      && n in Scratch && n.lastInput in Scratch
      && n.weights in Kept && n.lastGradient in Kept && n.gradientPropagation in Kept
    }

    /** model is the value of the layer's current weights. */
    ghost predicate Modeled()
      requires Valid()
      reads Kept
    {
      && model.inputSize == inputSize && |model.units| == nNeurons && model.Shaped()
      && forall i :: 0 <= i < nNeurons ==> model.units[i] == neurons[i].Value()
    }

    /** The state new_layer leaves behind, besides the weights. */
    ghost predicate Zeroed()
      requires Valid()
      reads Repr - {this}
    {
      && lastInput[..] == Zeros(inputSize)
      && lastNet[..] == Zeros(nNeurons) && lastOutput[..] == Zeros(nNeurons)
      && ZeroMatrix(gradientPropagation) && ZeroMatrix(lastGradient)
      && (forall i :: 0 <= i < nNeurons ==> neurons[i].Zeroed())
    }

    /** The layer is as new_layer builds it from d: valid, zeroed, modelled by d. */
    ghost predicate Initial(d: Dense)
      reads this, Repr
    {
      Valid() && Modeled() && Zeroed() && model == d
    }

    /** The state layer_forward leaves after evaluating input x: the copy of the
        input, each neuron's net and output mirrored, and the neurons' own state. */
    ghost predicate Evaluated(x: seq<real>)
      requires Valid() && inputSize <= |x|
      reads Repr
    {
      && lastInput[..] == x[..inputSize]
      && (forall i :: 0 <= i < nNeurons ==>
            && lastNet[i] == neurons[i].lastNet && lastOutput[i] == neurons[i].lastOutput
            && neurons[i].Evaluated(x))
    }

    /** new_layer(n_neurons, input_size, activation) */
    constructor (nNeurons: nat, inputSize: nat, activation: Activation, draws: seq<seq<nat>>)
      requires LayerDraws(draws, nNeurons, inputSize + 1)
      ensures fresh(Repr) && Initial(InitDense(nNeurons, inputSize, activation, draws))
      ensures this.nNeurons == nNeurons && this.inputSize == inputSize
    {
      this.nNeurons := nNeurons;
      this.inputSize := inputSize;
      model := InitDense(nNeurons, inputSize, activation, draws);
      var ns, owned, scratch, kept := NewNeurons(nNeurons, inputSize, activation, draws);
      neurons := ns;
      var gp, lg, inBuf, netBuf, outBuf := NewLayerBuffers(nNeurons, inputSize);
      gradientPropagation, lastGradient := gp, lg;
      lastInput, lastNet, lastOutput := inBuf, netBuf, outBuf;
      Repr := {this, gp, lg} + ({inBuf, netBuf, outBuf} + owned);
      Scratch := {inBuf, netBuf, outBuf} + scratch;
      Kept := {this, gp, lg} + kept;
      new;
      FreshUnion(inBuf, netBuf, outBuf, owned);
      FreshUnion(this, gp, lg, {inBuf, netBuf, outBuf} + owned);
      assert fresh(Repr);
      Assemble(owned, scratch, kept);
    }

    /** The facts new_layer establishes piece by piece make a valid, zeroed
        layer modelled by its neurons' values. */
    lemma Assemble(owned: set<object>, scratch: set<object>, kept: set<object>)
      requires |neurons| == nNeurons == |model.units| && model.inputSize == inputSize && model.Shaped()
      requires lastInput.Length == inputSize && lastNet.Length == nNeurons && lastOutput.Length == nNeurons
      requires lastInput != lastNet && lastInput != lastOutput && lastNet != lastOutput
      requires gradientPropagation.Length0 == nNeurons && gradientPropagation.Length1 == inputSize + 1
      requires lastGradient.Length0 == nNeurons && lastGradient.Length1 == inputSize + 1
      requires gradientPropagation != lastGradient
      requires {lastInput, lastNet, lastOutput} !! {this, gradientPropagation, lastGradient}
      requires lastInput[..] == Zeros(inputSize)
      requires lastNet[..] == Zeros(nNeurons) && lastOutput[..] == Zeros(nNeurons)
      requires ZeroMatrix(gradientPropagation) && ZeroMatrix(lastGradient)
      requires this !in owned && gradientPropagation !in owned && lastGradient !in owned
      requires lastInput !in owned && lastNet !in owned && lastOutput !in owned
      requires scratch <= owned && kept <= owned && scratch !! kept
      requires Repr == {this, gradientPropagation, lastGradient} + ({lastInput, lastNet, lastOutput} + owned)
      requires Scratch == {lastInput, lastNet, lastOutput} + scratch
      requires Kept == {this, gradientPropagation, lastGradient} + kept
      requires NeuronsBuilt(neurons, model.units, inputSize + 1, owned, scratch, kept)
      ensures Initial(model)
    {
      NeuronsBuiltIff(neurons, model.units, inputSize + 1, owned, scratch, kept);
      assert Valid();
    }

    /** layer_forward: every neuron reads the same input; output i is neuron i's
        output, and the layer mirrors the input and each neuron's net and output. */
    method Forward(input: array<real>) returns (output: array<real>)
      requires Valid() && Modeled()
      requires inputSize <= input.Length
      requires input !in Scratch
      modifies Scratch
      ensures Modeled()
      ensures fresh(output) && output.Length == nNeurons
      ensures output[..] == lastOutput[..] == LayerOut(model, input[..])
      ensures Evaluated(input[..])
    {
      output := ForwardNeurons(input);
      Memcpy(lastInput, input, inputSize);
      assert lastInput[..] == lastInput[..inputSize];
      Mirror();
      assert output[..] == lastOutput[..];
    }

    /** Two distinct neurons of a valid layer share no state. */
    lemma Apart(k: nat, i: nat)
      requires Valid() && k < i < |neurons|
      ensures neurons[k] != neurons[i] && neurons[k].lastInput != neurons[i].lastInput
      ensures neurons[k].weights != neurons[i].lastInput && neurons[i].weights != neurons[k].lastInput
    {
      assert neurons[k] in neurons[k].Repr && neurons[k].lastInput in neurons[k].Repr;
    }

    /** The first loop of layer_forward: output[i] = neuron_forward(neurons[i], input). */
    method ForwardNeurons(input: array<real>) returns (output: array<real>)
      requires Valid() && Modeled()
      requires inputSize <= input.Length
      requires input !in Scratch
      modifies Scratch
      ensures Modeled()
      ensures lastInput[..] == old(lastInput[..])
      ensures lastNet[..] == old(lastNet[..]) && lastOutput[..] == old(lastOutput[..])
      ensures fresh(output) && output.Length == nNeurons
      ensures output[..] == LayerOut(model, input[..])
      ensures forall i :: 0 <= i < nNeurons ==>
        neurons[i].Evaluated(input[..]) && output[i] == neurons[i].lastOutput
    {
      ghost var x := input[..];
      output := new real[nNeurons];
      var i := 0;
      while i < nNeurons
        invariant 0 <= i <= nNeurons
        invariant input[..] == x && Modeled() && lastInput[..] == old(lastInput[..])
        invariant lastNet[..] == old(lastNet[..]) && lastOutput[..] == old(lastOutput[..])
        invariant forall k :: 0 <= k < i ==> neurons[k].Evaluated(x) && output[k] == neurons[k].lastOutput
      {
        ForwardOne(i, input, output);
        i := i + 1;
      }
      assert forall k :: 0 <= k < nNeurons ==> output[k] == LayerOut(model, x)[k];
    }

    /** One iteration of that loop: neuron i is evaluated and its output stored;
        the other neurons are left as they were. */
    method ForwardOne(i: nat, input: array<real>, output: array<real>)
      requires Valid() && i < nNeurons
      requires inputSize <= input.Length && output.Length == nNeurons
      requires input !in Scratch && output !in Repr && output != input
      requires forall k :: 0 <= k < i ==> neurons[k].Evaluated(input[..]) && output[k] == neurons[k].lastOutput
      modifies neurons[i], neurons[i].lastInput, output
      ensures forall k :: 0 <= k <= i ==> neurons[k].Evaluated(input[..]) && output[k] == neurons[k].lastOutput
      ensures forall k :: i < k < nNeurons ==> output[k] == old(output[k])
    {
      forall k | 0 <= k < nNeurons && k != i
        ensures neurons[k] != neurons[i] && neurons[k].lastInput != neurons[i].lastInput
        ensures neurons[k].weights != neurons[i].lastInput
      {
        if k < i { Apart(k, i); } else { Apart(i, k); }
      }
      assert neurons[i].weights in neurons[i].Repr;
      output[i] := neurons[i].Forward(input);
    }

    /** The second loop of layer_forward: copy each neuron's net and output into
        the layer's mirrors. */
    method Mirror()
      requires Valid()
      modifies lastNet, lastOutput
      ensures forall i :: 0 <= i < nNeurons ==>
        lastNet[i] == neurons[i].lastNet && lastOutput[i] == neurons[i].lastOutput
    {
      var i := 0;
      while i < nNeurons
        invariant 0 <= i <= nNeurons
        invariant forall k :: 0 <= k < i ==>
          lastNet[k] == neurons[k].lastNet && lastOutput[k] == neurons[k].lastOutput
      {
        lastNet[i] := neurons[i].lastNet;
        lastOutput[i] := neurons[i].lastOutput;
        i := i + 1;
      }
    }

    /** The assignment neurons[j]->weights[k] = v: one weight changes and the
        model follows it. */
    method SetWeight(j: nat, k: nat, v: real)
      requires Valid() && Modeled() && j < nNeurons && k <= inputSize
      modifies neurons[j].weights, this
      ensures Modeled() && model == WithWeight([old(model)], 0, j, k, v)[0]
      ensures old(Zeroed()) ==> Zeroed()
    {
      forall i | 0 <= i < nNeurons && i != j
        ensures neurons[i].weights != neurons[j].weights
      {
        assert neurons[i].weights in neurons[i].Repr && neurons[j].weights in neurons[j].Repr;
      }
      neurons[j].weights[k] := v;
      model := WithWeight([model], 0, j, k, v)[0];
      assert forall i :: 0 <= i < nNeurons ==> model.units[i] == neurons[i].Value();
      if old(Zeroed()) {
        forall i | 0 <= i < nNeurons
          ensures neurons[i].Zeroed()
        {
          assert old(neurons[i].Zeroed());
          assert neurons[j].weights in neurons[j].Repr;
        }
      }
    }
  }

  /** A layer whose kept objects (weights and model) did not change is still
      modelled by the same value. */
  twostate lemma KeepsModel(l: Layer)
    requires l.Valid() && old(l.Modeled()) && unchanged(l.Kept)
    ensures l.Modeled() && l.model == old(l.model)
  {
  }

  /** Layers ls, valued ds, each as new_layer left it, owning pairwise disjoint
      parts of owned and splitting their state between scratch and kept.
      Stated layer by layer from the last one back. */
  ghost predicate Built(ls: seq<Layer>, ds: seq<Dense>, owned: set<object>, scratch: set<object>,
                        kept: set<object>)
    reads owned
    decreases |ls|
  {
    && |ls| == |ds|
    && (|ls| > 0 ==>
      var n := |ls| - 1;
      && Built(ls[..n], ds[..n], owned, scratch, kept)
      && ls[n].Valid() && ls[n].Repr <= owned && ls[n].Scratch <= scratch && ls[n].Kept <= kept
      && ls[n].Initial(ds[n])
      && (forall k :: 0 <= k < n ==> ls[k].Repr !! ls[n].Repr))
  }

  /** What Built states, layer by layer and for every pair of layers. */
  lemma {:induction false} BuiltEach(ls: seq<Layer>, ds: seq<Dense>, owned: set<object>,
                                     scratch: set<object>, kept: set<object>)
    requires Built(ls, ds, owned, scratch, kept)
    ensures |ls| == |ds|
    ensures forall k :: 0 <= k < |ls| ==>
      && ls[k].Valid() && ls[k].Repr <= owned && ls[k].Scratch <= scratch && ls[k].Kept <= kept
      && ls[k].Initial(ds[k])
    ensures forall k, l :: 0 <= k < l < |ls| ==> ls[k].Repr !! ls[l].Repr
    decreases |ls|
  {
    if |ls| > 0 {
      var n := |ls| - 1;
      BuiltEach(ls[..n], ds[..n], owned, scratch, kept);
      assert forall k :: 0 <= k < n ==> ls[..n][k] == ls[k] && ds[..n][k] == ds[k];
    }
  }

  /** Built layers stay built inside larger sets. */
  lemma {:induction false} BuiltWiden(ls: seq<Layer>, ds: seq<Dense>, owned: set<object>,
                                      scratch: set<object>, kept: set<object>,
                                      owned': set<object>, scratch': set<object>, kept': set<object>)
    requires Built(ls, ds, owned, scratch, kept)
    requires owned <= owned' && scratch <= scratch' && kept <= kept'
    ensures Built(ls, ds, owned', scratch', kept')
    decreases |ls|
  {
    if |ls| > 0 {
      var n := |ls| - 1;
      BuiltWiden(ls[..n], ds[..n], owned, scratch, kept, owned', scratch', kept');
    }
  }

  /** One more layer, apart from everything built so far, extends the built layers. */
  lemma BuiltSnoc(ls: seq<Layer>, ds: seq<Dense>, owned: set<object>, scratch: set<object>,
                  kept: set<object>, l: Layer, d: Dense)
    requires Built(ls, ds, owned, scratch, kept)
    requires scratch <= owned && kept <= owned && scratch !! kept
    requires l.Initial(d) && l.Repr !! owned
    ensures Built(ls + [l], ds + [d], owned + l.Repr, scratch + l.Scratch, kept + l.Kept)
    ensures scratch + l.Scratch <= owned + l.Repr && kept + l.Kept <= owned + l.Repr
    ensures scratch + l.Scratch !! kept + l.Kept
  {
    BuiltEach(ls, ds, owned, scratch, kept);
    BuiltWiden(ls, ds, owned, scratch, kept, owned + l.Repr, scratch + l.Scratch, kept + l.Kept);
    assert (ls + [l])[..|ls|] == ls && (ds + [d])[..|ls|] == ds;
  }

  /** The loop of new_network that builds the layers: layer i has sizes[i]
      neurons reading sizes[i - 1] inputs (inputSize for the first). */
  method NewLayers(nLayers: nat, sizes: seq<nat>, activations: seq<Activation>, inputSize: nat,
                   draws: seq<seq<seq<nat>>>)
    returns (ls: seq<Layer>, ghost owned: set<object>, ghost scratch: set<object>, ghost kept: set<object>)
    requires nLayers <= |sizes| && nLayers <= |activations|
    requires NetworkDraws(draws, nLayers, sizes, inputSize)
    ensures |ls| == nLayers && fresh(owned)
    ensures scratch <= owned && kept <= owned && scratch !! kept
    ensures Built(ls, InitModel(nLayers, sizes, activations, inputSize, draws), owned, scratch, kept)
  {
    ghost var ds: seq<Dense> := [];
    ls, owned, scratch, kept := [], {}, {}, {};
    var i := 0;
    while i < nLayers
      invariant 0 <= i <= nLayers && |ls| == i
      invariant fresh(owned) && scratch <= owned && kept <= owned && scratch !! kept
      invariant NetworkDraws(draws, i, sizes, inputSize)
      invariant ds == InitModel(i, sizes, activations, inputSize, draws)
      invariant Built(ls, ds, owned, scratch, kept)
      invariant forall o :: o in owned ==> allocated(o)
    {
      var l := new Layer(sizes[i], InputWidth(sizes, inputSize, i), activations[i], draws[i]);
      ghost var d := InitDense(sizes[i], InputWidth(sizes, inputSize, i), activations[i], draws[i]);
      BuiltSnoc(ls, ds, owned, scratch, kept, l, d);
      InitModelSnoc(i, sizes, activations, inputSize, draws);
      ls, ds := ls + [l], ds + [d];
      owned, scratch, kept := owned + l.Repr, scratch + l.Scratch, kept + l.Kept;
      i := i + 1;
    }
  }

  // ---------------------------------------------------------------------------
  // Network

  class Network {
    const nLayers: nat
    const inputSize: nat
    const layers: seq<Layer>
    const lastInput: array<real>
    const lastOutput: array<real>
    /** The objects the network owns. */
    ghost const Repr: set<object>
    /** What a forward pass overwrites: the state every layer keeps. */
    ghost const Scratch: set<object>
    /** What a forward pass leaves as it is: the network, its own last_input
        and last_output, and what every layer keeps. */
    ghost const Kept: set<object>
    /** The network as a value: its layers, in order. */
    ghost var model: seq<Dense>

    ghost predicate Valid() {
      && 1 <= nLayers == |layers|
      && lastInput.Length == inputSize
      && lastOutput.Length == layers[nLayers - 1].nNeurons
      && lastInput != lastOutput
      && Scratch <= Repr && Kept <= Repr && Scratch !! Kept
      && this in Kept && lastInput in Kept && lastOutput in Kept
      && layers[0].inputSize == inputSize
      && (forall i :: 1 <= i < nLayers ==> layers[i].inputSize == layers[i - 1].nNeurons)
      && (forall i :: 0 <= i < nLayers ==> Owns(layers[i]))
      && (forall i, j :: 0 <= i < j < nLayers ==> layers[i].Repr !! layers[j].Repr)
    }

    /** l is a valid layer owned by the network and apart from its own buffers. */
    ghost predicate Owns(l: Layer) {
      && l.Valid() && l.Repr <= Repr
      && this !in l.Repr && lastInput !in l.Repr && lastOutput !in l.Repr
      && l.Scratch <= Scratch && l.Kept <= Kept
    }

    /** model is the sequence of the layers' values. */
    ghost predicate Modeled()
      requires Valid()
      reads Kept
    {
      && |model| == nLayers && Chained(model) && model[0].inputSize == inputSize
      && forall k :: 0 <= k < nLayers ==> layers[k].Modeled() && layers[k].model == model[k]
    }

    /** The state new_network leaves behind, besides the weights. */
    ghost predicate Zeroed()
      requires Valid()
      reads Repr - {this}
    {
      && lastInput[..] == Zeros(inputSize)
      && lastOutput[..] == Zeros(lastOutput.Length)
      && (forall i :: 0 <= i < nLayers ==> layers[i].Zeroed())
    }

    /** new_network(n_layers, layers_sizes, layers_activations, input_size) */
    constructor (nLayers: nat, sizes: seq<nat>, activations: seq<Activation>, inputSize: nat,
                 draws: seq<seq<seq<nat>>>)
      requires 1 <= nLayers <= |sizes| && nLayers <= |activations|
      requires NetworkDraws(draws, nLayers, sizes, inputSize)
      ensures Valid() && fresh(Repr) && Zeroed() && Modeled()
      ensures model == InitModel(nLayers, sizes, activations, inputSize, draws)
      ensures this.nLayers == nLayers && this.inputSize == inputSize
      ensures lastOutput.Length == sizes[nLayers - 1]
    {
      this.nLayers := nLayers;
      this.inputSize := inputSize;
      model := InitModel(nLayers, sizes, activations, inputSize, draws);
      var inBuf := NewZeros(inputSize);
      var outBuf := NewZeros(sizes[nLayers - 1]);
      var ls, owned, scratch, kept := NewLayers(nLayers, sizes, activations, inputSize, draws);
      layers := ls;
      lastInput, lastOutput := inBuf, outBuf;
      Repr := {this, inBuf, outBuf} + owned;
      Scratch := scratch;
      Kept := {this, inBuf, outBuf} + kept;
      new;
      FreshUnion(this, inBuf, outBuf, owned);
      assert fresh(Repr);
      Assemble(owned, scratch, kept);
    }

    /** The facts new_network establishes piece by piece make a valid, zeroed
        network modelled by the layers' values. */
    lemma Assemble(owned: set<object>, scratch: set<object>, kept: set<object>)
      requires 1 <= nLayers == |layers| == |model|
      requires Chained(model) && model[0].inputSize == inputSize
      requires lastInput.Length == inputSize && lastOutput.Length == |model[nLayers - 1].units|
      requires lastInput != lastOutput
      requires lastInput[..] == Zeros(inputSize) && lastOutput[..] == Zeros(lastOutput.Length)
      requires this !in owned && lastInput !in owned && lastOutput !in owned
      requires scratch <= owned && kept <= owned && scratch !! kept
      requires Repr == {this, lastInput, lastOutput} + owned && Scratch == scratch
      requires Kept == {this, lastInput, lastOutput} + kept
      requires Built(layers, model, owned, scratch, kept)
      ensures Valid() && Zeroed() && Modeled()
    {
      BuiltEach(layers, model, owned, scratch, kept);
      forall i | 0 <= i < nLayers
        ensures Owns(layers[i])
      {
        assert layers[i].Initial(model[i]);
      }
      assert Valid();
    }

    /** Layers 0 .. i-1 hold the state of having consumed stages s[0 .. i-1]:
        each is evaluated on the vector it read (its copy of that vector, its
        mirrors of the nets and outputs, and every neuron's retained state)
        and keeps the vector it produced. */
    ghost predicate EvaluatedUpTo(i: nat, s: seq<seq<real>>)
      requires Valid()
      reads Repr
    {
      forall k :: 0 <= k < i && k < nLayers && k + 1 < |s| ==>
        && layers[k].inputSize <= |s[k]|
        && layers[k].Evaluated(s[k])
        && layers[k].lastOutput[..] == s[k + 1]
    }

    /** The state network_forward leaves in the layers after evaluating input x. */
    ghost predicate Evaluated(x: seq<real>)
      requires Valid() && Modeled() && inputSize <= |x|
      reads Repr
    {
      EvaluatedUpTo(nLayers, Stages(model, x))
    }

    /** network_forward: each layer consumes the previous layer's output; the
        result is the last layer's output, except that a one-layer network
        yields null. The network's own last_input and last_output are left
        untouched. */
    method Forward(input: array<real>) returns (r: array?<real>)
      requires Valid() && Modeled()
      requires inputSize <= input.Length
      requires input !in Scratch
      modifies Scratch
      ensures Modeled()
      ensures nLayers == 1 ==> r == null
      ensures nLayers > 1 ==> r != null && fresh(r) && r[..] == Fold(model, input[..])
      ensures lastInput[..] == old(lastInput[..]) && lastOutput[..] == old(lastOutput[..])
      ensures Evaluated(input[..]) && layers[0].Evaluated(input[..])
    {
      ghost var x := input[..];
      ghost var s := Stages(model, x);
      StagesEnds(model, x);
      var cur := ForwardFirst(input, x, s);
      var next: array?<real> := null;
      var i := 1;
      while i < nLayers
        invariant 1 <= i <= nLayers
        invariant fresh(cur) && cur[..] == s[i]
        invariant i == 1 ==> next == null
        invariant i > 1 ==> next == cur
        invariant model == old(model) && Modeled() && EvaluatedUpTo(i, s)
      {
        next := ForwardLayer(i, cur, x, s);
        cur := next;
        i := i + 1;
      }
      r := next;
    }

    /** What a forward pass of layer i overwrites belongs to no other layer. */
    lemma Separate(i: nat)
      requires Valid() && i < nLayers
      ensures forall k :: 0 <= k < nLayers && k != i ==> layers[k].Repr !! layers[i].Scratch
    {
      forall k | 0 <= k < nLayers && k != i
        ensures layers[k].Repr !! layers[i].Scratch
      {
        if k < i { } else { }
      }
    }

    /** The first step of network_forward: layer 0 consumes the external input. */
    method ForwardFirst(input: array<real>, ghost x: seq<real>, ghost s: seq<seq<real>>)
      returns (cur: array<real>)
      requires Valid() && Modeled()
      requires inputSize <= input.Length && input !in Scratch && input[..] == x
      requires s == Stages(model, x)
      modifies layers[0].Scratch
      ensures Modeled()
      ensures fresh(cur) && cur[..] == s[1]
      ensures EvaluatedUpTo(1, s)
    {
      StagesEnds(model, x);
      StagesNext(model, x, 0);
      cur := layers[0].Forward(input);
    }

    /** One iteration of network_forward's loop: layer i consumes the output of
        layer i - 1; the earlier layers keep their state and no weight changes. */
    method ForwardLayer(i: nat, cur: array<real>, ghost x: seq<real>, ghost s: seq<seq<real>>)
      returns (next: array<real>)
      requires Valid() && Modeled() && 1 <= i < nLayers && inputSize <= |x|
      requires s == Stages(model, x)
      requires cur !in Repr && cur[..] == s[i]
      requires EvaluatedUpTo(i, s)
      modifies layers[i].Scratch
      ensures Modeled()
      ensures fresh(next) && next[..] == s[i + 1]
      ensures EvaluatedUpTo(i + 1, s)
    {
      StagesNext(model, x, i);
      Separate(i);
      next := layers[i].Forward(cur);
      forall k | 0 <= k < i && k + 1 < |s|
        ensures layers[k].inputSize <= |s[k]| && layers[k].Evaluated(s[k])
        ensures layers[k].lastOutput[..] == s[k + 1]
      {
        assert old(layers[k].Evaluated(s[k])) && layers[k].lastOutput in layers[k].Repr;
        assert unchanged(layers[k].Repr);
      }
    }

    /** The assignment layers[l]->neurons[j]->weights[k] = v: one weight of one
        layer changes and the model follows it; what new_network zeroed stays
        zeroed. */
    method SetWeight(l: nat, j: nat, k: nat, v: real)
      requires Valid() && Modeled() && l < nLayers && j < layers[l].nNeurons && k <= layers[l].inputSize
      modifies layers[l].neurons[j].weights, layers[l], this
      ensures Modeled() && model == WithWeight(old(model), l, j, k, v)
      ensures old(Zeroed()) ==> Zeroed()
    {
      ghost var w := layers[l].neurons[j].weights;
      assert layers[l].Owns(layers[l].neurons[j]) && w in layers[l].Kept;
      Apart(l, w);
      ghost var es := WithWeight(model, l, j, k, v);
      Store(l, j, k, v);
      label written:
      model := es;
      forall m | 0 <= m < nLayers
        ensures layers[m].Modeled() && layers[m].model == es[m]
      {
        if m == l {
          KeepsModel@written(layers[l]);
        } else {
          KeepsModel(layers[m]);
        }
      }
    }

    /** The store itself, made through layer l: that layer's model follows it,
        and no state that new_network zeroes changes. */
    method Store(l: nat, j: nat, k: nat, v: real)
      requires Valid() && Modeled() && l < nLayers && j < layers[l].nNeurons && k <= layers[l].inputSize
      modifies layers[l].neurons[j].weights, layers[l]
      ensures layers[l].Modeled() && layers[l].model == WithWeight([old(layers[l].model)], 0, j, k, v)[0]
      ensures old(Zeroed()) ==> Zeroed()
    {
      ghost var w := layers[l].neurons[j].weights;
      assert layers[l].Owns(layers[l].neurons[j]) && w in layers[l].Repr;
      assert layers[l] in layers[l].Repr;
      layers[l].SetWeight(j, k, v);
      if old(Zeroed()) {
        assert lastInput != w && lastOutput != w;
        forall m | 0 <= m < nLayers && m != l
          ensures layers[m].Zeroed()
        {
          assert old(layers[m].Zeroed());
          assert w !in layers[m].Repr && layers[l] !in layers[m].Repr;
          assert unchanged(layers[m].Repr);
        }
      }
    }

    /** What writing weight array w of layer l changes (w, layer l and the
        network's model) belongs to no other layer. */
    lemma Apart(l: nat, w: object)
      requires Valid() && l < nLayers && w in layers[l].Repr
      ensures forall m :: 0 <= m < nLayers && m != l ==>
        w !in layers[m].Kept && layers[l] !in layers[m].Kept && this !in layers[m].Kept
    {
      forall m | 0 <= m < nLayers && m != l
        ensures w !in layers[m].Kept && layers[l] !in layers[m].Kept && this !in layers[m].Kept
      {
        assert layers[l] in layers[l].Repr;
      }
    }
  }
}
