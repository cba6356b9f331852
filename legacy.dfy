/**
  The older version of the forward-evaluation engine (neuralnetwork.c at the
  repository root): one-argument activations, neurons that keep nothing but
  their weights, and a copy_network that duplicates a network's weights into
  a freshly built one.

  Forward evaluation changes no state, so the forward methods are specified
  directly against the pure functions NeuronOut, LayerOut and Fold over the
  value (Value()) of the weights they read.
 */
module Legacy {
  import opened Common

  /** An activation function of the older interface: net to a value. */
  type Actv = real -> real

  const INIT_MIN: real := -1.0
  const INIT_MAX: real := 1.0
  /** The largest unsigned long long, the top of the getrandom draw range. */
  const ULLONG_MAX: nat := 18446744073709551615

  // ---------------------------------------------------------------------------
  // Activation functions

  /** relu(net): max(0, net), the identity gated by the step. */
  function Relu(net: real): (r: real)
    ensures r == Linear(net) * Step(net)
    ensures r >= 0.0 && r >= net && (r == 0.0 || r == net)
  {
    if net >= 0.0 then net else 0.0
  }

  /** step(net): the Heaviside step. */
  function Step(net: real): (r: real)
    ensures r == 0.0 || r == 1.0
    ensures r == 1.0 <==> net >= 0.0
  {
    if net >= 0.0 then 1.0 else 0.0
  }

  /** linear(net): the identity. */
  function Linear(net: real): (r: real)
    ensures r == net
  {
    net
  }

  // ---------------------------------------------------------------------------
  // Value snapshots and the pure specification of forward evaluation

  /** A neuron's weights (the bias last) and its activation. */
  datatype Unit = Unit(weights: seq<real>, actv: Actv)

  /** A layer: the width of its input and its neurons. */
  datatype Dense = Dense(inSize: nat, units: seq<Unit>) {
    /** Every neuron has one weight per input plus the bias. */
    predicate Shaped() {
      forall i :: 0 <= i < |units| ==> |units[i].weights| == inSize + 1
    }
  }

  /** The output of one neuron on input x: actv(net). */
  function NeuronOut(u: Unit, x: seq<real>): real
    requires 1 <= |u.weights| <= |x| + 1
  {
    u.actv(Net(u.weights, x))
  }

  /** The output vector of a layer: neuron i's output at index i. */
  function LayerOut(d: Dense, x: seq<real>): (y: seq<real>)
    requires d.Shaped() && d.inSize <= |x|
    ensures |y| == |d.units|
  {
    seq(|d.units|, i requires 0 <= i < |d.units| => NeuronOut(d.units[i], x))
  }

  /** Layers whose input widths chain: layer k reads what layer k-1 produces. */
  predicate Chained(ds: seq<Dense>) {
    && (forall k :: 0 <= k < |ds| ==> ds[k].Shaped())
    && (forall k :: 1 <= k < |ds| ==> ds[k].inSize == |ds[k - 1].units|)
  }

  /** Forward evaluation through the layers in order (written from the last
      layer back, so that each prefix is a fold too). */
  function Fold(ds: seq<Dense>, x: seq<real>): (y: seq<real>)
    requires Chained(ds) && (|ds| > 0 ==> ds[0].inSize <= |x|)
    ensures |ds| == 0 ==> y == x
    ensures |ds| > 0 ==> |y| == |ds[|ds| - 1].units|
    decreases |ds|
  {
    if |ds| == 0 then x
    else
      var n := |ds| - 1;
      assert Chained(ds[..n]);
      LayerOut(ds[n], Fold(ds[..n], x))
  }

  /** Fold is the left fold: the first layer consumes the external input and
      the remaining layers consume its output. */
  lemma {:induction false} FoldFirst(ds: seq<Dense>, x: seq<real>)
    requires Chained(ds) && |ds| > 0 && ds[0].inSize <= |x|
    ensures Chained(ds[1..])
    ensures Fold(ds, x) == Fold(ds[1..], LayerOut(ds[0], x))
    decreases |ds|
  {
    var n := |ds| - 1;
    ChainedSlices(ds);
    if n > 0 {
      var p, q, y := ds[..n], ds[1..][..n - 1], LayerOut(ds[0], x);
      FoldFirst(p, x);
      var z := Fold(q, y);
      assert Fold(ds[1..], y) == LayerOut(ds[n], z);
      assert Fold(ds, x) == LayerOut(ds[n], Fold(p, x));
    }
  }

  /** The slices FoldFirst's induction goes through are chained too. */
  lemma ChainedSlices(ds: seq<Dense>)
    requires Chained(ds) && |ds| > 0
    ensures Chained(ds[1..]) && Chained(ds[..|ds| - 1])
    ensures |ds| == 1 ==> ds[..0] == [] && ds[1..] == []
    ensures |ds| > 1 ==> ds[..|ds| - 1][0] == ds[0] && ds[1..][|ds| - 2] == ds[|ds| - 1]
    ensures |ds| > 1 ==> ds[..|ds| - 1][1..] == ds[1..][..|ds| - 2] && Chained(ds[1..][..|ds| - 2])
  {
  }

  /** Fold over one more layer: the output of the first i + 1 layers is layer
      i applied to the output of the first i. */
  lemma FoldStep(ds: seq<Dense>, x: seq<real>, i: nat)
    requires Chained(ds) && i < |ds| && ds[0].inSize <= |x|
    ensures Chained(ds[..i]) && Chained(ds[..i + 1])
    ensures ds[i].inSize <= |Fold(ds[..i], x)|
    ensures Fold(ds[..i + 1], x) == LayerOut(ds[i], Fold(ds[..i], x))
  {
    assert Chained(ds[..i]) && Chained(ds[..i + 1]);
    assert ds[..i + 1][..i] == ds[..i];
  }

  /** The network value with weight k of neuron j of layer l set to v, as the
      assignment layers[l]->neurons[j]->weights[k] = v leaves it. */
  function WithWeight(ds: seq<Dense>, l: nat, j: nat, k: nat, v: real): (es: seq<Dense>)
    requires l < |ds| && j < |ds[l].units| && k < |ds[l].units[j].weights|
    ensures |es| == |ds| && (Chained(ds) ==> Chained(es))
    ensures forall m :: 0 <= m < |ds| && m != l ==> es[m] == ds[m]
    ensures es[l].inSize == ds[l].inSize && |es[l].units| == |ds[l].units|
    ensures forall i :: 0 <= i < |ds[l].units| && i != j ==> es[l].units[i] == ds[l].units[i]
    ensures es[l].units[j].actv == ds[l].units[j].actv
    ensures es[l].units[j].weights == ds[l].units[j].weights[k := v]
  {
    var u := ds[l].units[j];
    ds[l := ds[l].(units := ds[l].units[j := u.(weights := u.weights[k := v])])]
  }

  // ---------------------------------------------------------------------------
  // Initial weights

  /** The initial weights new_neuron draws: draw i scaled into [INIT_MIN, INIT_MAX]. */
  function InitWeights(draws: seq<nat>, n: nat): (w: seq<real>)
    requires n <= |draws| && DrawsUpTo(draws, ULLONG_MAX)
    ensures |w| == n
    ensures forall i :: 0 <= i < n ==> INIT_MIN <= w[i] <= INIT_MAX
  {
    seq(n, i requires 0 <= i < n => Scale(draws[i], ULLONG_MAX, INIT_MIN, INIT_MAX))
  }

  /** Enough draws, each within [0, ULLONG_MAX], for nNeurons neurons of nWeights weights. */
  predicate LayerDraws(draws: seq<seq<nat>>, nNeurons: nat, nWeights: nat) {
    nNeurons <= |draws| &&
    forall i :: 0 <= i < nNeurons ==> nWeights <= |draws[i]| && DrawsUpTo(draws[i], ULLONG_MAX)
  }

  /** Enough draws for every layer new_network builds. */
  predicate NetworkDraws(draws: seq<seq<seq<nat>>>, nLayers: nat, sizes: seq<nat>, inSize: nat)
    requires nLayers <= |sizes|
  {
    nLayers <= |draws| &&
    forall i :: 0 <= i < nLayers ==> LayerDraws(draws[i], sizes[i], InputWidth(sizes, inSize, i) + 1)
  }

  /** The layer new_layer builds, as a value: nNeurons neurons of inSize + 1
      initial weights each, all with activation actv. */
  function InitDense(nNeurons: nat, inSize: nat, actv: Actv, draws: seq<seq<nat>>): (d: Dense)
    requires LayerDraws(draws, nNeurons, inSize + 1)
    ensures d.Shaped() && d.inSize == inSize && |d.units| == nNeurons
    ensures forall i :: 0 <= i < nNeurons ==> d.units[i].actv == actv
  {
    Dense(inSize, seq(nNeurons, i requires 0 <= i < nNeurons => Unit(InitWeights(draws[i], inSize + 1), actv)))
  }

  /** The layers new_network builds, as values: layer k has sizes[k] neurons
      with activation actvs[k]; the widths chain. */
  function InitModel(nLayers: nat, sizes: seq<nat>, actvs: seq<Actv>, inSize: nat,
                     draws: seq<seq<seq<nat>>>): (ds: seq<Dense>)
    requires nLayers <= |sizes| && nLayers <= |actvs|
    requires NetworkDraws(draws, nLayers, sizes, inSize)
    ensures |ds| == nLayers && Chained(ds)
    ensures forall k :: 0 <= k < nLayers ==>
      ds[k].inSize == InputWidth(sizes, inSize, k) && |ds[k].units| == sizes[k]
  {
    seq(nLayers, k requires 0 <= k < nLayers =>
      InitDense(sizes[k], InputWidth(sizes, inSize, k), actvs[k], draws[k]))
  }

  /** The first n + 1 layers new_network builds are the first n and then layer n. */
  lemma InitModelSnoc(n: nat, sizes: seq<nat>, actvs: seq<Actv>, inSize: nat,
                      draws: seq<seq<seq<nat>>>)
    requires n < |sizes| && n < |actvs|
    requires NetworkDraws(draws, n + 1, sizes, inSize)
    ensures NetworkDraws(draws, n, sizes, inSize)
    ensures InitModel(n + 1, sizes, actvs, inSize, draws) ==
      InitModel(n, sizes, actvs, inSize, draws)
      + [InitDense(sizes[n], InputWidth(sizes, inSize, n), actvs[n], draws[n])]
  {
    var a := InitModel(n + 1, sizes, actvs, inSize, draws);
    var b := InitModel(n, sizes, actvs, inSize, draws);
    var d := InitDense(sizes[n], InputWidth(sizes, inSize, n), actvs[n], draws[n]);
    forall k | 0 <= k < n
      ensures a[k] == b[k]
    {
      assert a[k] == InitDense(sizes[k], InputWidth(sizes, inSize, k), actvs[k], draws[k]);
    }
    assert a[n] == d;
    SnocEqual(a, b, d);
  }

  // ---------------------------------------------------------------------------
  // Neuron

  class Neuron {
    const nDim: nat
    const weights: array<real>
    const actv: Actv

    ghost predicate Valid() {
      weights.Length == nDim + 1
    }

    ghost function Value(): Unit
      reads weights
    {
      Unit(weights[..], actv)
    }

    /** new_neuron(n_dim, actv): n_dim + 1 weights, each a draw in
        [0, ULLONG_MAX] scaled into [INIT_MIN, INIT_MAX]. */
    constructor (nDim: nat, actv: Actv, draws: seq<nat>)
      requires nDim + 1 <= |draws| && DrawsUpTo(draws, ULLONG_MAX)
      ensures Valid() && fresh(weights)
      ensures this.nDim == nDim && this.actv == actv
      ensures Value() == Unit(InitWeights(draws, nDim + 1), actv)
    {
      this.nDim := nDim;
      this.actv := actv;
      var w := new real[nDim + 1];
      var i := 0;
      while i < nDim + 1
        invariant 0 <= i <= nDim + 1
        invariant forall k :: 0 <= k < i ==> w[k] == Scale(draws[k], ULLONG_MAX, INIT_MIN, INIT_MAX)
      {
        w[i] := Scale(draws[i], ULLONG_MAX, INIT_MIN, INIT_MAX);
        i := i + 1;
      }
      weights := w;
      new;
      assert weights[..] == InitWeights(draws, nDim + 1);
    }

    /** neuron_forward: net is the weighted sum of the first n_dim inputs plus
        the bias; the result is actv(net). Nothing is modified. */
    method Forward(input: array<real>) returns (r: real)
      requires Valid() && nDim <= input.Length
      ensures r == actv(Net(weights[..], input[..])) == NeuronOut(Value(), input[..])
    {
      var net := 0.0;
      var i := 0;
      while i < nDim
        invariant 0 <= i <= nDim
        invariant net == Dot(weights[..i], input[..])
      {
        assert weights[..i + 1][..i] == weights[..i];
        net := net + weights[i] * input[i];
        i := i + 1;
      }
      net := net + weights[nDim];
      r := actv(net);
    }
  }

  /** The loop of new_layer: nNeurons neurons of inSize inputs, all with
      activation actv, each holding its own fresh weight array. */
  method NewNeurons(nNeurons: nat, inSize: nat, actv: Actv, draws: seq<seq<nat>>)
    returns (ns: seq<Neuron>, ghost owned: set<object>)
    requires LayerDraws(draws, nNeurons, inSize + 1)
    ensures |ns| == nNeurons && fresh(owned)
    ensures forall k :: 0 <= k < nNeurons ==>
      && ns[k].Valid() && ns[k].nDim == inSize && ns[k].actv == actv && ns[k].weights in owned
      && ns[k].Value() == InitDense(nNeurons, inSize, actv, draws).units[k]
    ensures forall k, l :: 0 <= k < l < nNeurons ==> ns[k].weights != ns[l].weights
  {
    ghost var us := InitDense(nNeurons, inSize, actv, draws).units;
    ns, owned := [], {};
    var i := 0;
    while i < nNeurons
      invariant 0 <= i <= nNeurons && |ns| == i && fresh(owned)
      invariant forall k :: 0 <= k < i ==>
        && ns[k].Valid() && ns[k].nDim == inSize && ns[k].actv == actv && ns[k].weights in owned
        && ns[k].Value() == us[k]
      invariant forall k, l :: 0 <= k < l < i ==> ns[k].weights != ns[l].weights
    {
      var n := new Neuron(inSize, actv, draws[i]);
      ns := ns + [n];
      owned := owned + {n.weights};
      i := i + 1;
    }
  }

  // ---------------------------------------------------------------------------
  // Layer

  class Layer {
    const nNeurons: nat
    const inSize: nat
    const neurons: seq<Neuron>
    const actv: Actv
    /** The weight arrays of the layer's neurons. */
    ghost const Repr: set<object>

    ghost predicate Valid() {
      && |neurons| == nNeurons
      && (forall i :: 0 <= i < nNeurons ==>
            && neurons[i].Valid() && neurons[i].nDim == inSize && neurons[i].actv == actv
            && neurons[i].weights in Repr)
      && (forall i, j :: 0 <= i < j < nNeurons ==> neurons[i].weights != neurons[j].weights)
    }

    /** The layer as a value: its input width and its neurons' weights. */
    ghost function Value(): (d: Dense)
      requires Valid()
      reads Repr
      ensures d.Shaped() && d.inSize == inSize && |d.units| == nNeurons
      ensures forall i :: 0 <= i < nNeurons ==> d.units[i] == neurons[i].Value()
    {
      Dense(inSize, seq(nNeurons, i reads Repr requires 0 <= i < nNeurons && Valid() => neurons[i].Value()))
    }

    /** new_layer(n_neurons, in_size, actv) */
    constructor (nNeurons: nat, inSize: nat, actv: Actv, draws: seq<seq<nat>>)
      requires LayerDraws(draws, nNeurons, inSize + 1)
      ensures Valid() && fresh(Repr)
      ensures this.nNeurons == nNeurons && this.inSize == inSize && this.actv == actv
      ensures Value() == InitDense(nNeurons, inSize, actv, draws)
    {
      this.nNeurons := nNeurons;
      this.inSize := inSize;
      this.actv := actv;
      var ns, owned := NewNeurons(nNeurons, inSize, actv, draws);
      neurons := ns;
      Repr := owned;
      new;
      assert Valid();
      ghost var d := InitDense(nNeurons, inSize, actv, draws);
      assert forall i :: 0 <= i < nNeurons ==> Value().units[i] == d.units[i];
    }

    /** layer_forward: a fresh vector whose entry i is neuron i's output on the
        shared input. Nothing is modified. */
    method Forward(input: array<real>) returns (output: array<real>)
      requires Valid() && inSize <= input.Length
      ensures fresh(output) && output[..] == LayerOut(Value(), input[..])
    {
      output := new real[nNeurons];
      var i := 0;
      while i < nNeurons
        invariant 0 <= i <= nNeurons
        invariant forall k :: 0 <= k < i ==> output[k] == NeuronOut(neurons[k].Value(), input[..])
      {
        output[i] := neurons[i].Forward(input);
        i := i + 1;
      }
    }

    /** The assignment neurons[j]->weights[k] = v. */
    method SetWeight(j: nat, k: nat, v: real)
      requires Valid() && j < nNeurons && k <= inSize
      modifies neurons[j].weights
      ensures Value() == WithWeight([old(Value())], 0, j, k, v)[0]
    {
      neurons[j].weights[k] := v;
      ghost var d := WithWeight([old(Value())], 0, j, k, v)[0];
      assert forall i :: 0 <= i < nNeurons ==> Value().units[i] == d.units[i];
    }
  }

  // ---------------------------------------------------------------------------
  // Network

  class Network {
    const nLayers: nat
    const inSize: nat
    const layers: seq<Layer>
    /** The weight arrays of all the layers. */
    ghost const Repr: set<object>

    ghost predicate Valid() {
      && 1 <= nLayers == |layers|
      && layers[0].inSize == inSize
      && (forall i :: 1 <= i < nLayers ==> layers[i].inSize == layers[i - 1].nNeurons)
      && (forall i :: 0 <= i < nLayers ==> layers[i].Valid() && layers[i].Repr <= Repr)
      && (forall i, j :: 0 <= i < j < nLayers ==> layers[i].Repr !! layers[j].Repr)
    }

    /** The network as a value: its layers' values, in order. */
    ghost function Value(): (ds: seq<Dense>)
      requires Valid()
      reads Repr
      ensures |ds| == nLayers && Chained(ds) && ds[0].inSize == inSize
      ensures forall i :: 0 <= i < nLayers ==> ds[i] == layers[i].Value()
    {
      seq(nLayers, i reads Repr requires 0 <= i < nLayers && Valid() => layers[i].Value())
    }

    /** new_network(n_layers, layers_sizes, layers_actvs, in_size): layer 0
        reads the network's input, layer i the output of layer i - 1. */
    constructor (nLayers: nat, sizes: seq<nat>, actvs: seq<Actv>, inSize: nat,
                 draws: seq<seq<seq<nat>>>)
      requires 1 <= nLayers <= |sizes| && nLayers <= |actvs|
      requires NetworkDraws(draws, nLayers, sizes, inSize)
      ensures Valid() && fresh(Repr)
      ensures this.nLayers == nLayers && this.inSize == inSize
      ensures forall i :: 0 <= i < nLayers ==> layers[i].nNeurons == sizes[i] && layers[i].actv == actvs[i]
      ensures Value() == InitModel(nLayers, sizes, actvs, inSize, draws)
    {
      this.nLayers := nLayers;
      this.inSize := inSize;
      var ls, owned := NewLayers(nLayers, sizes, actvs, inSize, draws);
      layers := ls;
      Repr := owned;
      new;
      BuiltEach(ls, InitModel(nLayers, sizes, actvs, inSize, draws), owned);
      assert Valid();
      ghost var ds := InitModel(nLayers, sizes, actvs, inSize, draws);
      assert forall i :: 0 <= i < nLayers ==> Value()[i] == ds[i];
    }

    /** network_forward: each layer consumes the previous layer's output; the
        result is the last layer's output, except that a one-layer network
        yields null. Nothing is modified. */
    method Forward(input: array<real>) returns (r: array?<real>)
      requires Valid() && inSize <= input.Length
      ensures nLayers == 1 ==> r == null
      ensures nLayers > 1 ==> r != null && fresh(r) && r[..] == Fold(Value(), input[..])
    {
      ghost var ds := Value();
      ghost var x := input[..];
      var cur := ForwardLayer(0, input, ds, x);
      var next: array?<real> := null;
      var i := 1;
      while i < nLayers
        invariant 1 <= i <= nLayers
        invariant fresh(cur) && cur[..] == Fold(ds[..i], x)
        invariant i == 1 ==> next == null
        invariant i > 1 ==> next == cur
      {
        next := ForwardLayer(i, cur, ds, x);
        cur := next;
        i := i + 1;
      }
      assert ds[..nLayers] == ds;
      r := next;
    }

    /** One step of network_forward: layer i consumes the output of the
        first i layers (the external input when i is 0). */
    method ForwardLayer(i: nat, cur: array<real>, ghost ds: seq<Dense>, ghost x: seq<real>)
      returns (next: array<real>)
      requires Valid() && ds == Value() && i < nLayers && inSize <= |x|
      requires cur[..] == Fold(ds[..i], x)
      ensures fresh(next) && next[..] == Fold(ds[..i + 1], x)
    {
      FoldStep(ds, x, i);
      next := layers[i].Forward(cur);
    }

    /** The assignment layers[l]->neurons[j]->weights[k] = v. */
    method SetWeight(l: nat, j: nat, k: nat, v: real)
      requires Valid() && l < nLayers && j < layers[l].nNeurons && k <= layers[l].inSize
      modifies layers[l].neurons[j].weights
      ensures Value() == WithWeight(old(Value()), l, j, k, v)
    {
      assert layers[l].neurons[j].weights in layers[l].Repr;
      layers[l].SetWeight(j, k, v);
      ghost var ds := WithWeight(old(Value()), l, j, k, v);
      assert forall m :: 0 <= m < nLayers ==> Value()[m] == ds[m];
    }

    /** The layer sizes of the network, as copy_network collects them. */
    ghost function Sizes(): (s: seq<nat>)
      requires Valid()
      ensures |s| == nLayers && forall i :: 0 <= i < nLayers ==> s[i] == layers[i].nNeurons
    {
      seq(nLayers, i requires 0 <= i < nLayers && Valid() => layers[i].nNeurons)
    }

    /** copy_network: a network of the same shape and activations, built by
        new_network and then given this network's weights, array by array. */
    method Copy(draws: seq<seq<seq<nat>>>) returns (c: Network)
      requires Valid()
      requires NetworkDraws(draws, nLayers, Sizes(), inSize)
      ensures c.Valid() && fresh(c.Repr)
      ensures c.nLayers == nLayers && c.inSize == inSize
      ensures forall i :: 0 <= i < nLayers ==>
        c.layers[i].nNeurons == layers[i].nNeurons && c.layers[i].actv == layers[i].actv
      ensures c.Value() == Value()
    {
      var sizes: seq<nat> := [];
      var actvs: seq<Actv> := [];
      var i := 0;
      while i < nLayers
        invariant 0 <= i <= nLayers && |sizes| == i && |actvs| == i
        invariant forall k :: 0 <= k < i ==> sizes[k] == layers[k].nNeurons && actvs[k] == layers[k].actv
      {
        sizes := sizes + [layers[i].nNeurons];
        actvs := actvs + [layers[i].actv];
        i := i + 1;
      }
      assert sizes == Sizes();
      c := new Network(nLayers, sizes, actvs, inSize, draws);
      c.CopyFrom(this);
    }

    /** The nested loops of copy_network: every weight array of src is
        memcpy'd into the matching array of this network, of the same shape. */
    method CopyFrom(src: Network)
      requires Valid() && src.Valid() && Repr !! src.Repr
      requires nLayers == src.nLayers && inSize == src.inSize
      requires forall i :: 0 <= i < nLayers ==>
        layers[i].nNeurons == src.layers[i].nNeurons && layers[i].actv == src.layers[i].actv
      modifies Repr
      ensures Value() == src.Value()
    {
      var i := 0;
      while i < nLayers
        invariant 0 <= i <= nLayers
        invariant forall k :: 0 <= k < i ==> layers[k].Value() == src.layers[k].Value()
      {
        assert layers[i].inSize == src.layers[i].inSize by {
          if i > 0 { assert layers[i - 1].nNeurons == src.layers[i - 1].nNeurons; }
        }
        CopyLayer(layers[i], src.layers[i]);
        i := i + 1;
      }
      assert forall k :: 0 <= k < nLayers ==> Value()[k] == src.Value()[k];
    }
  }

  /** Evaluating a copy gives what evaluating the original gives. */
  method CopyAndForward(network: Network, draws: seq<seq<seq<nat>>>, input: array<real>)
    returns (original: array?<real>, copy: array?<real>)
    requires network.Valid() && network.inSize <= input.Length
    requires NetworkDraws(draws, network.nLayers, network.Sizes(), network.inSize)
    ensures (original == null) == (copy == null) == (network.nLayers == 1)
    ensures original != null && copy != null ==> original[..] == copy[..]
  {
    var c := network.Copy(draws);
    original, copy := ForwardAlike(network, c, input);
  }

  /** Two networks with the same weights give the same forward result. */
  method ForwardAlike(a: Network, b: Network, input: array<real>) returns (ra: array?<real>, rb: array?<real>)
    requires a.Valid() && b.Valid() && a.Value() == b.Value() && a.inSize <= input.Length
    ensures (ra == null) == (rb == null) == (a.nLayers == 1)
    ensures ra != null && rb != null ==> ra[..] == rb[..]
  {
    ghost var ds, x := a.Value(), input[..];
    ra := a.Forward(input);
    assert a.Value() == ds && input[..] == x;
    assert b.Value() == ds;
    rb := b.Forward(input);
    assert b.Value() == ds;
    assert input[..] == x;
  }

  /** Writing a weight of a copy changes the copy alone: the original keeps
      its weights (the method may modify nothing that existed before). */
  method CopyAndWrite(network: Network, draws: seq<seq<seq<nat>>>, l: nat, j: nat, k: nat, v: real)
    returns (c: Network)
    requires network.Valid() && l < network.nLayers
    requires j < network.layers[l].nNeurons && k <= network.layers[l].inSize
    requires NetworkDraws(draws, network.nLayers, network.Sizes(), network.inSize)
    ensures c.Valid() && fresh(c.Repr) && network.Valid()
    ensures network.Value() == old(network.Value())
    ensures c.Value() == WithWeight(old(network.Value()), l, j, k, v)
  {
    ghost var ds := network.Value();
    c := network.Copy(draws);
    assert c.layers[l].inSize == network.layers[l].inSize by {
      assert c.Value()[l].inSize == ds[l].inSize;
    }
    assert network.Repr !! c.Repr;
    label copied:
    WriteCopy(c, l, j, k, v);
    SameValue@copied(network);
  }

  /** A network none of whose weight arrays changed keeps its value. */
  twostate lemma SameValue(n: Network)
    requires n.Valid() && unchanged(n.Repr)
    ensures n.Value() == old(n.Value())
  {
  }

  /** The store CopyAndWrite performs, confined to the copy's own arrays. */
  method WriteCopy(c: Network, l: nat, j: nat, k: nat, v: real)
    requires c.Valid() && l < c.nLayers && j < c.layers[l].nNeurons && k <= c.layers[l].inSize
    modifies c.Repr
    ensures c.Value() == WithWeight(old(c.Value()), l, j, k, v)
  {
    assert c.layers[l].neurons[j].weights in c.Repr;
    c.SetWeight(l, j, k, v);
  }

  /** The inner loop of copy_network: memcpy each neuron's weights of src
      into the matching neuron of dst, a layer of the same shape. */
  method CopyLayer(dst: Layer, src: Layer)
    requires dst.Valid() && src.Valid() && dst.Repr !! src.Repr
    requires dst.nNeurons == src.nNeurons && dst.inSize == src.inSize && dst.actv == src.actv
    modifies dst.Repr
    ensures dst.Value() == src.Value()
  {
    var j := 0;
    while j < dst.nNeurons
      invariant 0 <= j <= dst.nNeurons
      invariant forall k :: 0 <= k < j ==> dst.neurons[k].weights[..] == src.neurons[k].weights[..]
    {
      assert forall k :: 0 <= k < j ==> dst.neurons[k].weights != dst.neurons[j].weights;
      assert dst.neurons[j].weights in dst.Repr;
      Memcpy(dst.neurons[j].weights, src.neurons[j].weights, dst.neurons[j].nDim + 1);
      j := j + 1;
    }
    assert forall k :: 0 <= k < dst.nNeurons ==> dst.Value().units[k] == src.Value().units[k];
  }

  /** Layers ls, valued ds, owning pairwise disjoint parts of owned. Stated
      layer by layer from the last one back. */
  ghost predicate Built(ls: seq<Layer>, ds: seq<Dense>, owned: set<object>)
    reads owned
    decreases |ls|
  {
    && |ls| == |ds|
    && (|ls| > 0 ==>
      var n := |ls| - 1;
      && Built(ls[..n], ds[..n], owned)
      && ls[n].Valid() && ls[n].Repr <= owned && ls[n].Value() == ds[n]
      && (forall k :: 0 <= k < n ==> ls[k].Repr !! ls[n].Repr))
  }

  /** What Built states, layer by layer and for every pair of layers. */
  lemma {:induction false} BuiltEach(ls: seq<Layer>, ds: seq<Dense>, owned: set<object>)
    requires Built(ls, ds, owned)
    ensures |ls| == |ds|
    ensures forall k :: 0 <= k < |ls| ==> ls[k].Valid() && ls[k].Repr <= owned && ls[k].Value() == ds[k]
    ensures forall k, l :: 0 <= k < l < |ls| ==> ls[k].Repr !! ls[l].Repr
    decreases |ls|
  {
    if |ls| > 0 {
      var n := |ls| - 1;
      BuiltEach(ls[..n], ds[..n], owned);
      assert forall k :: 0 <= k < n ==> ls[..n][k] == ls[k] && ds[..n][k] == ds[k];
    }
  }

  /** Built layers stay built inside a larger set. */
  lemma {:induction false} BuiltWiden(ls: seq<Layer>, ds: seq<Dense>, owned: set<object>, owned': set<object>)
    requires Built(ls, ds, owned) && owned <= owned'
    ensures Built(ls, ds, owned')
    decreases |ls|
  {
    if |ls| > 0 {
      BuiltWiden(ls[..|ls| - 1], ds[..|ls| - 1], owned, owned');
    }
  }

  /** One more layer, apart from everything built so far, extends the built layers. */
  lemma BuiltSnoc(ls: seq<Layer>, ds: seq<Dense>, owned: set<object>, l: Layer)
    requires Built(ls, ds, owned)
    requires l.Valid() && l.Repr !! owned
    ensures Built(ls + [l], ds + [l.Value()], owned + l.Repr)
  {
    var n := |ls|;
    var ls', ds' := ls + [l], ds + [l.Value()];
    BuiltEach(ls, ds, owned);
    BuiltWiden(ls, ds, owned, owned + l.Repr);
    assert ls'[..n] == ls && ds'[..n] == ds;
    assert ls'[n] == l && ds'[n] == l.Value();
    forall k | 0 <= k < n
      ensures ls'[k].Repr !! l.Repr
    {
      assert ls'[k] == ls[k] && ls[k].Repr <= owned;
    }
  }

  /** The loop of new_network that builds the layers: layer 0 reads the
      network's input and layer i the output of layer i - 1. */
  method NewLayers(nLayers: nat, sizes: seq<nat>, actvs: seq<Actv>, inSize: nat,
                   draws: seq<seq<seq<nat>>>)
    returns (ls: seq<Layer>, ghost owned: set<object>)
    requires 1 <= nLayers <= |sizes| && nLayers <= |actvs|
    requires NetworkDraws(draws, nLayers, sizes, inSize)
    ensures |ls| == nLayers && fresh(owned)
    ensures forall k :: 0 <= k < nLayers ==>
      ls[k].nNeurons == sizes[k] && ls[k].inSize == InputWidth(sizes, inSize, k) && ls[k].actv == actvs[k]
    ensures Built(ls, InitModel(nLayers, sizes, actvs, inSize, draws), owned)
  {
    InitModelSnoc(0, sizes, actvs, inSize, draws);
    var first := new Layer(sizes[0], inSize, actvs[0], draws[0]);
    ghost var ds: seq<Dense> := [];
    BuiltSnoc([], ds, {}, first);
    ls, ds, owned := [first], [first.Value()], first.Repr;
    var i := 1;
    while i < nLayers
      invariant 1 <= i <= nLayers && |ls| == i && fresh(owned)
      invariant NetworkDraws(draws, i, sizes, inSize)
      invariant ds == InitModel(i, sizes, actvs, inSize, draws)
      invariant forall k :: 0 <= k < i ==>
        ls[k].nNeurons == sizes[k] && ls[k].inSize == InputWidth(sizes, inSize, k) && ls[k].actv == actvs[k]
      invariant Built(ls, ds, owned)
      invariant forall o :: o in owned ==> allocated(o)
    {
      assert ls[i - 1].nNeurons == InputWidth(sizes, inSize, i);
      var l := new Layer(sizes[i], ls[i - 1].nNeurons, actvs[i], draws[i]);
      InitModelSnoc(i, sizes, actvs, inSize, draws);
      assert l.Value() == InitDense(sizes[i], InputWidth(sizes, inSize, i), actvs[i], draws[i]);
      BuiltSnoc(ls, ds, owned, l);
      ls, ds := ls + [l], ds + [l.Value()];
      owned := owned + l.Repr;
      i := i + 1;
    }
  }
}
