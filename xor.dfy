/**
  The XOR network of the repository's demonstration program: two step
  neurons computing OR and NAND feed one step neuron computing AND, so the
  output is the exclusive or of the two inputs.
 */
module Xor {
  import opened Common
  import Legacy
  import Codin

  /** The XOR wiring in the older interface: layer 0 holds OR (1, 1, bias
      -0.5) and NAND (-1, -1, bias 1.5), layer 1 holds AND (1, 1, bias -1.5). */
  function LegacyXor(): (ds: seq<Legacy.Dense>)
    ensures Legacy.Chained(ds) && |ds| == 2 && ds[0].inSize == 2
  {
    [Legacy.Dense(2, [Legacy.Unit([1.0, 1.0, -0.5], Legacy.Step), Legacy.Unit([-1.0, -1.0, 1.5], Legacy.Step)]),
     Legacy.Dense(2, [Legacy.Unit([1.0, 1.0, -1.5], Legacy.Step)])]
  }

  /** The same wiring in the current interface. */
  function CodinXor(): (ds: seq<Codin.Dense>)
    ensures Codin.Chained(ds) && |ds| == 2 && ds[0].inputSize == 2
  {
    [Codin.Dense(2, [Codin.Unit([1.0, 1.0, -0.5], Codin.Step), Codin.Unit([-1.0, -1.0, 1.5], Codin.Step)]),
     Codin.Dense(2, [Codin.Unit([1.0, 1.0, -1.5], Codin.Step)])]
  }

  /** 0/1 inputs as the demonstration encodes them. */
  predicate Bit(a: real) {
    a == 0.0 || a == 1.0
  }

  /** Exclusive or on 0/1 values. */
  function XorBit(a: real, b: real): real {
    if a == b then 0.0 else 1.0
  }

  /** The weighted sum of a two-input neuron. */
  lemma Net2(w0: real, w1: real, w2: real, a: real, b: real)
    ensures Net([w0, w1, w2], [a, b]) == w0 * a + w1 * b + w2
  {
    var w, x := [w0, w1, w2], [a, b];
    assert w[..2] == [w0, w1] && [w0, w1][..1] == [w0] && [w0][..0] == [];
    assert Dot([w0], x) == w0 * a;
    assert Dot([w0, w1], x) == w0 * a + w1 * b;
  }

  /** The older network with the XOR weights computes the exclusive or. */
  lemma LegacyXorTable(a: real, b: real)
    requires Bit(a) && Bit(b)
    ensures Legacy.Fold(LegacyXor(), [a, b]) == [XorBit(a, b)]
  {
    var ds := LegacyXor();
    Net2(1.0, 1.0, -0.5, a, b);
    Net2(-1.0, -1.0, 1.5, a, b);
    var h := [Legacy.Step(a + b - 0.5), Legacy.Step(-a - b + 1.5)];
    assert ds[..1][..0] == [];
    assert Legacy.Fold(ds[..1], [a, b]) == h;
    Net2(1.0, 1.0, -1.5, h[0], h[1]);
    assert ds[..1] == [ds[0]];
    assert Legacy.Fold(ds, [a, b]) == [Legacy.Step(h[0] + h[1] - 1.5)];
  }

  /** The current network with the XOR weights computes the exclusive or. */
  lemma CodinXorTable(a: real, b: real)
    requires Bit(a) && Bit(b)
    ensures Codin.Fold(CodinXor(), [a, b]) == [XorBit(a, b)]
  {
    var ds := CodinXor();
    Net2(1.0, 1.0, -0.5, a, b);
    Net2(-1.0, -1.0, 1.5, a, b);
    var h := [Codin.Step(a + b - 0.5, false), Codin.Step(-a - b + 1.5, false)];
    assert ds[..1][..0] == [];
    assert Codin.Fold(ds[..1], [a, b]) == h;
    Net2(1.0, 1.0, -1.5, h[0], h[1]);
    assert ds[..1] == [ds[0]];
    assert Codin.Fold(ds, [a, b]) == [Codin.Step(h[0] + h[1] - 1.5, false)];
  }

  /** The demonstration's XOR run: build a 2-2-1 step network with
      new_network, overwrite its random weights with the XOR weights, then
      evaluate the inputs (i & 1, (i & 2) >> 1) for i = 0 .. 3. */
  method XorDemo(draws: seq<seq<seq<nat>>>) returns (outputs: seq<real>)
    requires Codin.NetworkDraws(draws, 2, [2, 1], 2)
    ensures outputs == [0.0, 1.0, 1.0, 0.0]
  {
    var network := XorNetwork(draws);
    var input := new real[2];
    outputs := [];
    var i := 0;
    while i < 4
      invariant 0 <= i <= 4 && outputs == [0.0, 1.0, 1.0, 0.0][..i]
      invariant fresh(network.Repr) && fresh(input) && input !in network.Repr
      invariant network.Valid() && network.Modeled()
      invariant network.nLayers == 2 && network.inputSize == 2 && network.model == CodinXor()
    {
      var output := XorRound(network, input, i);
      XorBits(i);
      assert [0.0, 1.0, 1.0, 0.0][..i + 1] == outputs + [output];
      outputs := outputs + [output];
      i := i + 1;
    }
  }

  /** Round i of the demonstration feeds the bits of i, so the four rounds
      expect 0, 1, 1, 0. */
  lemma XorBits(i: nat)
    requires i < 4
    ensures XorBit((i % 2) as real, (i / 2 % 2) as real) == [0.0, 1.0, 1.0, 0.0][i]
  {
  }

  /** new_network(2, {2, 1}, {&step, &step}, 2) followed by the XOR weights. */
  method XorNetwork(draws: seq<seq<seq<nat>>>) returns (network: Codin.Network)
    requires Codin.NetworkDraws(draws, 2, [2, 1], 2)
    ensures fresh(network.Repr)
    ensures network.Valid() && network.Modeled() && network.Zeroed()
    ensures network.nLayers == 2 && network.inputSize == 2 && network.model == CodinXor()
  {
    network := new Codin.Network(2, [2, 1], [Codin.Step, Codin.Step], 2, draws);
    SetXorWeights(network);
  }

  /** One round of the demonstration loop: set the two inputs from the bits
      of i and evaluate the network; its weights stay the XOR weights. */
  method XorRound(network: Codin.Network, input: array<real>, i: nat) returns (output: real)
    requires network.Valid() && network.Modeled()
    requires network.nLayers == 2 && network.inputSize == 2 && network.model == CodinXor()
    requires input.Length == 2 && input !in network.Repr
    modifies input, network.Scratch
    ensures network.Modeled() && network.model == CodinXor()
    ensures input[..] == [(i % 2) as real, (i / 2 % 2) as real] && network.Evaluated(input[..])
    ensures output == XorBit((i % 2) as real, (i / 2 % 2) as real)
  {
    input[0] := (i % 2) as real;
    input[1] := (i / 2 % 2) as real;
    assert input[..] == [input[0], input[1]];
    CodinXorTable(input[0], input[1]);
    var out := network.Forward(input);
    output := out[0];
  }

  /** The nine weight assignments of the demonstration, three per neuron. */
  method SetXorWeights(network: Codin.Network)
    requires network.Valid() && network.Modeled() && network.nLayers == 2 && network.inputSize == 2
    requires |network.model[0].units| == 2 && |network.model[1].units| == 1
    requires forall k, i :: 0 <= k < 2 && 0 <= i < |network.model[k].units| ==>
      network.model[k].units[i].activation == Codin.Step
    modifies network.layers[0].neurons[0].weights, network.layers[0].neurons[1].weights,
      network.layers[1].neurons[0].weights, network.layers[0], network.layers[1], network
    ensures network.Modeled() && network.model == CodinXor()
    ensures old(network.Zeroed()) ==> network.Zeroed()
  {
    var xs := CodinXor();
    assert network.layers[0].nNeurons == 2 && network.layers[1].nNeurons == 1;
    assert network.layers[0].inputSize == 2 && network.layers[1].inputSize == 2;
    SetNeuron(network, 0, 0, 1.0, 1.0, -0.5);
    SetNeuron(network, 0, 1, -1.0, -1.0, 1.5);
    assert network.model[0] == xs[0];
    SetNeuron(network, 1, 0, 1.0, 1.0, -1.5);
    assert network.model[1] == xs[1];
  }

  /** weights[0] = weights[1] (chained) and weights[2] on neuron j of layer
      l, a neuron of a two-input layer: its weights become [w0, w1, w2]. The
      two chained stores are performed as weights[1] first; either order gives
      the same weights (ThreeWrites). */
  method SetNeuron(network: Codin.Network, l: nat, j: nat, w0: real, w1: real, w2: real)
    requires network.Valid() && network.Modeled() && l < network.nLayers
    requires j < network.layers[l].nNeurons && network.layers[l].inputSize == 2
    modifies network.layers[l].neurons[j].weights, network.layers[l], network
    ensures network.Modeled() && (old(network.Zeroed()) ==> network.Zeroed())
    ensures network.model == old(network.model)[l := old(network.model[l]).(units :=
      old(network.model[l].units)[j := Codin.Unit([w0, w1, w2], old(network.model[l].units[j].activation))])]
  {
    ghost var ds := network.model;
    network.SetWeight(l, j, 1, w1);
    network.SetWeight(l, j, 0, w0);
    network.SetWeight(l, j, 2, w2);
    ThreeWrites(ds, l, j, w0, w1, w2);
  }

  /** Writing weights 1, 0 and 2 of a three-weight neuron replaces its
      weights by the three values written and leaves everything else; so does
      writing them in the order 0, 1, 2. */
  lemma ThreeWrites(ds: seq<Codin.Dense>, l: nat, j: nat, w0: real, w1: real, w2: real)
    requires l < |ds| && j < |ds[l].units| && |ds[l].units[j].weights| == 3
    ensures Codin.WithWeight(Codin.WithWeight(Codin.WithWeight(ds, l, j, 1, w1), l, j, 0, w0), l, j, 2, w2)
      == ds[l := ds[l].(units := ds[l].units[j := Codin.Unit([w0, w1, w2], ds[l].units[j].activation)])]
    ensures Codin.WithWeight(Codin.WithWeight(Codin.WithWeight(ds, l, j, 0, w0), l, j, 1, w1), l, j, 2, w2)
      == ds[l := ds[l].(units := ds[l].units[j := Codin.Unit([w0, w1, w2], ds[l].units[j].activation)])]
  {
    var es := Codin.WithWeight(Codin.WithWeight(Codin.WithWeight(ds, l, j, 1, w1), l, j, 0, w0), l, j, 2, w2);
    var target := ds[l := ds[l].(units := ds[l].units[j := Codin.Unit([w0, w1, w2], ds[l].units[j].activation)])];
    assert es[l].units[j].weights == [w0, w1, w2];
    assert es[l].units == target[l].units;
    assert es[l] == target[l];
    Codin.WithWeightCommutes(ds, l, j, 1, w1, 0, w0);
  }
}
