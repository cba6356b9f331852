# COdin forward-evaluation engine in Dafny

COdin evaluates feed-forward neural networks. A neuron takes the weighted
sum of its inputs plus a bias, called its *net*, and applies an activation
function to it. A layer is a row of neurons that share one input vector. A
network is a sequence of layers: layer 0 reads the external input and
layer i reads the output of layer i - 1.

The repository holds two versions of this engine, and both are modelled:

- **Codin** (`codin.dfy`) models the current version, `src/neuralnetwork.c`.
  - Activations take a derivative flag: `relu`, `step`, `linear`.
  - Initial weights are drawn with `rand()` and scaled into [-2.5, 2.5].
  - Neurons and layers keep the state of their last forward pass
    (`last_input`, `last_net`, `last_output`).
  - Gradient buffers are allocated zeroed and never used afterwards.
- **Legacy** (`legacy.dfy`) models the older version, `neuralnetwork.c` at the
  repository root.
  - Activations take one argument.
  - Weights are drawn with `getrandom` and scaled into [-1, 1].
  - Objects keep nothing beyond their weights.
  - There is a working `copy_network`.
- **Common** (`common.dfy`) holds what both versions share:
  - the weighted sum, accumulated left to right as the C loop does;
  - the formula that scales a random draw into the weight interval;
  - zero-filled buffers and `memcpy`.
- **Xor** (`xor.dfy`) models the XOR demonstration of `xor_test.c`:
  - it builds a 2-2-1 network of `step` neurons;
  - it overwrites the random weights with OR, NAND and AND weights;
  - it evaluates the four inputs and proves the outputs are 0, 1, 1, 0.
- **Agreement** (`agreement.dfy`) proves the two versions compute the same
  forward pass. A current network, with its activations read at flag 0, is
  an older network.

How things are modelled:

- **Objects that the C code mutates in place are classes.**
  - Weight and buffer vectors are `array<real>`; gradient matrices are
    `array2<real>`.
  - The arrays `Neuron**` and `Layer**` are `const seq`, since they
    never change after construction.
  - Each class's `Repr` is the set of buffers it owns.
- **Forward methods are proved against pure functions over value snapshots.**
  - The functions are `NeuronOut`, `LayerOut` and `Fold`.
  - The snapshots are `Unit` (a neuron's weights and activation) and `Dense`
    (a layer's input width and neurons).
  - The current engine's layers and networks carry the snapshot as a ghost
    `model`; its neurons compute it as `Value()`.
  - The older engine's objects compute it as `Value()`.
- **Numbers:**
  - Floating-point numbers are mathematical reals.
  - Sizes are `nat`.
  - The random source is a parameter `draws`: one natural number per weight,
    at most `RAND_MAX` or `ULLONG_MAX`. Each draw is mapped by the C formula
    `(draw / max) * (hi - lo) + lo`.
  - `RAND_MAX` is taken as glibc's value, 2147483647.

Two behaviours of `network_forward` that the model keeps as the code has them:

- It returns NULL for a one-layer network, in both versions
  (src/neuralnetwork.c:277-284, neuralnetwork.c:182-189): `next_vect` starts
  as NULL and is only assigned inside the loop over layers 1 .. n_layers - 1.
- The current version never writes the network's own `last_input` and
  `last_output` (src/neuralnetwork.c:277-284). They stay as `new_network`
  zeroed them; only the layers and their neurons keep the state of the pass.

Other points where the model follows the code:

- There is no dimension check and no construction error anywhere in the code.
  The model states these as preconditions instead, because violating them is
  undefined behaviour in C:
  - the input is at least as wide as the layer;
  - there is at least one layer;
  - the destination of a `memcpy` is not its source.
- The current `random_vector` reseeds the generator with `srand(clock())` on
  every call. The draws parameter stands for whatever sequence results.

## Model

| member | source | states |
|---|---|---|
| Codin.Linear | src/neuralnetwork.c:318-321 | linear(net, d) is the identity net without the derivative flag, and its derivative 1 with it |
| Codin.Relu | src/neuralnetwork.c:298-301 | relu(net, d) equals linear(net, d) * step(net, 0); without the flag it is max(0, net) (never below 0 or net, and one of the two); with the flag it is step(net, 0), 1 exactly when net >= 0 |
| Codin.Step | src/neuralnetwork.c:308-311 | the result is 0 or 1; with the derivative flag it is always 0; without it, it is 1 exactly when net >= 0 |
| Common.Scale | src/neuralnetwork.c:52 | for a draw in [0, max], ((draw / max) * (hi - lo)) + lo lies between lo and hi (in [lo, hi] when lo <= hi, in [hi, lo] otherwise); draw 0 gives lo and draw max gives hi |
| Codin.RandomVector | src/neuralnetwork.c:32-56 | random_vector returns a fresh vector of the requested size whose entry i is draw i scaled into [min, max] |
| Codin.InitWeights | src/neuralnetwork.c:14-15 | the initial weights of a neuron are n values, each within [INIT_RAND_MIN, INIT_RAND_MAX] = [-2.5, 2.5] |
| Codin.Neuron.constructor | src/neuralnetwork.c:76-92 | new_neuron gives n_weights scaled draws as weights; last_input has n_weights - 1 entries; last_input, last_gradient and gradient_propagation are zero, as are last_net and last_output; all buffers are fresh and distinct |
| Codin.Neuron.Forward | src/neuralnetwork.c:103-132 | net is the sum of weights[i] * input[i] over the first n_weights - 1 inputs, plus the last weight as bias; the result and last_output are activation(net, 0); last_net is net; last_input is a copy of those inputs; nothing else changes |
| Common.DotIsSum | src/neuralnetwork.c:124 | the loop's left-to-right accumulation equals the textbook dot product |
| Common.NetPrefix | src/neuralnetwork.c:123-126 | a neuron's net depends only on the first n_weights - 1 inputs, for instance the copy kept in last_input |
| Common.DotZero | src/neuralnetwork.c:123-126 | on an all-zero input the weighted sum is 0, so the net is the bias alone |
| Codin.Replay | src/neuralnetwork.c:126-130 | after neuron_forward the kept last_input replays the evaluation: the weights on last_input give last_net and last_output again |
| Codin.ZeroedNet | src/neuralnetwork.c:86-87 | for a neuron as new_neuron leaves it, the net on its zeroed last_input is the bias weight alone |
| Common.Memcpy | src/neuralnetwork.c:128 | after memcpy(dst, src, n) the first n entries of dst are those of src and the rest of dst is unchanged |
| Common.NewZeros | src/neuralnetwork.c:87-89 | a fresh buffer of n zeros, as malloc followed by memset(0) leaves it |
| Common.NewZeros2 | src/neuralnetwork.c:58-65 | a fresh n-by-m matrix of zeros, as alloc_matrix followed by memset(0) of every row leaves it |
| Codin.NewNeurons | src/neuralnetwork.c:164-165 | the loop of new_layer builds n_neurons neurons valued by the initial layer, each with input_size + 1 weights and zeroed state, owning pairwise disjoint buffers |
| Codin.NewLayerBuffers | src/neuralnetwork.c:149-162 | new_layer's gradient matrices (n_neurons by input_size + 1) and its last_input, last_net and last_output vectors are fresh, distinct and zero |
| Codin.InitDense | src/neuralnetwork.c:143-168 | the layer new_layer builds has input_size inputs and n_neurons neurons of input_size + 1 weights each, all with the given activation |
| Codin.Layer.constructor | src/neuralnetwork.c:143-168 | new_layer gives a valid layer of the requested shape; all its buffers are zero; it is modelled by the initial layer value |
| Codin.Layer.ForwardNeurons | src/neuralnetwork.c:193-196 | output[i] = neuron_forward(neurons[i], input) for every neuron, giving LayerOut of the model; each neuron keeps the state of that evaluation; the layer's last_input, last_net and last_output are left as they were, since this loop does not write them |
| Codin.Layer.Mirror | src/neuralnetwork.c:199-202 | the layer's last_net[i] and last_output[i] become neuron i's last_net and last_output |
| Codin.Layer.Forward | src/neuralnetwork.c:183-204 | layer_forward returns a fresh vector equal to LayerOut of the model, which is also last_output; last_input is a copy of the input; the neurons hold their evaluations; the weights and gradient buffers are unchanged |
| Codin.InitModel | src/neuralnetwork.c:228-231 | the layers new_network builds chain: layer 0 reads input_size inputs and layer i reads layers_sizes[i - 1]; layer i has layers_sizes[i] neurons |
| Codin.InitModelSnoc | src/neuralnetwork.c:230-231 | the first n + 1 layers new_network builds are the first n followed by layer n |
| Codin.NewLayers | src/neuralnetwork.c:229-231 | the loop of new_network builds layers valued by InitModel, owning pairwise disjoint buffers |
| Codin.Network.constructor | src/neuralnetwork.c:217-234 | new_network gives a valid network modelled by InitModel; it has n_layers layers and input_size inputs; last_input and last_output are zero, and last_output has layers_sizes[n_layers - 1] entries |
| Codin.Fold | src/neuralnetwork.c:274-285 | forward evaluation through the layers in order; an empty sequence of layers returns the input; otherwise the result is as wide as the last layer |
| Codin.FoldFirst | src/neuralnetwork.c:277-282 | Fold is the left fold: the first layer consumes the external input and the remaining layers consume its output |
| Codin.FoldStep | src/neuralnetwork.c:278-282 | the output of the first i + 1 layers is layer i applied to the output of the first i |
| Codin.StagesEnds | src/neuralnetwork.c:277-284 | the sequence of intermediate vectors starts at the input and ends at the network's output |
| Codin.StagesNext | src/neuralnetwork.c:279 | each intermediate vector is layer_forward of the one before |
| Codin.Network.ForwardFirst | src/neuralnetwork.c:277 | layer 0 consumes the external input; its output is the first intermediate vector |
| Codin.Network.ForwardLayer | src/neuralnetwork.c:278-282 | layer i consumes the output of layer i - 1; the earlier layers keep their state |
| Codin.Network.Forward | src/neuralnetwork.c:274-285 | network_forward returns NULL for one layer; otherwise a fresh vector equal to Fold of the model; every layer k is left as layer_forward leaves it on stage k (its copy of the input it read, its last_net and last_output mirrors, every neuron's last_input, last_net and last_output) and keeps stage k + 1 as its output; layer 0 is evaluated on the external input; the network's own last_input and last_output and all weights are unchanged |
| Codin.LinearLayerIsAffine | src/neuralnetwork.c:318-321 | a layer of linear neurons outputs each neuron's net, the affine map of its weights |
| Codin.WithWeight | xor_test.c:92-97 | the network value after layers[l]->neurons[j]->weights[k] = v: that one weight is v; every other layer, neuron and weight is unchanged; the shape and the chaining are kept |
| Codin.WithWeightCommutes | xor_test.c:92 | stores to two different weights of one neuron commute, so the unsequenced order of the two stores in a chained assignment such as weights[0] = weights[1] = 1.0 does not change the result |
| Codin.Layer.SetWeight | xor_test.c:92-97 | the assignment neurons[j]->weights[k] = v on a layer changes its model to WithWeight and nothing else; a zeroed layer stays zeroed |
| Codin.Network.SetWeight | xor_test.c:92-97 | the assignment layers[l]->neurons[j]->weights[k] = v changes the network's model to WithWeight; it writes only that weight array (and the ghost models), so a network new_network zeroed stays zeroed |
| Codin.Network.Store | xor_test.c:92-97 | the store itself, through layer l: that layer's model becomes WithWeight and a zeroed network stays zeroed |
| Legacy.Linear | neuralnetwork.c:225-228 | linear(net) is net |
| Legacy.Relu | neuralnetwork.c:203-207 | relu(net) is linear(net) * step(net): max(0, net), never below 0 or net, and one of the two |
| Legacy.Step | neuralnetwork.c:214-218 | the result is 0 or 1, and it is 1 exactly when net >= 0 |
| Legacy.InitWeights | neuralnetwork.c:18-19 | the initial weights of a neuron are n values, each within [INIT_MIN, INIT_MAX] = [-1, 1] |
| Legacy.Neuron.constructor | neuralnetwork.c:23-38 | new_neuron gives n_dim + 1 weights in a fresh array; weight i is draw i divided by ULLONG_MAX and scaled into [-1, 1] |
| Legacy.Neuron.Forward | neuralnetwork.c:46-74 | the result is actv(net), where net sums weights[i] * input[i] for i < n_dim and adds weights[n_dim]; nothing is modified |
| Legacy.NewNeurons | neuralnetwork.c:92-94 | the loop of new_layer builds n_neurons neurons, each with in_size inputs, activation actv and its own weight array, valued by the initial layer |
| Legacy.InitDense | neuralnetwork.c:85-97 | the layer new_layer builds has in_size inputs and n_neurons neurons of in_size + 1 weights each, all with activation actv |
| Legacy.Layer.constructor | neuralnetwork.c:85-97 | new_layer gives a valid layer with the requested sizes and activation, valued by the initial layer |
| Legacy.Layer.Forward | neuralnetwork.c:107-118 | layer_forward returns a fresh vector equal to LayerOut of the layer's value |
| Legacy.InitModel | neuralnetwork.c:137-140 | the layers new_network builds chain: layer 0 reads in_size inputs and layer i reads the neuron count of layer i - 1 |
| Legacy.InitModelSnoc | neuralnetwork.c:139-140 | the first n + 1 layers new_network builds are the first n followed by layer n |
| Legacy.NewLayers | neuralnetwork.c:137-140 | the layers new_network builds have the requested sizes, input widths and activations, valued by InitModel over disjoint weight arrays |
| Legacy.Network.constructor | neuralnetwork.c:131-143 | new_network gives a valid network whose layer i has layers_sizes[i] neurons with layers_actvs[i], valued by InitModel |
| Legacy.Fold | neuralnetwork.c:179-190 | forward evaluation through the layers in order; an empty sequence of layers returns the input; otherwise the result is as wide as the last layer |
| Legacy.FoldFirst | neuralnetwork.c:182-187 | Fold is the left fold: the first layer consumes the external input and the remaining layers consume its output |
| Legacy.FoldStep | neuralnetwork.c:183-187 | the output of the first i + 1 layers is layer i applied to the output of the first i |
| Legacy.Network.ForwardLayer | neuralnetwork.c:182-184 | one step of network_forward: layer i consumes the output of the first i layers |
| Legacy.Network.Forward | neuralnetwork.c:179-190 | network_forward returns NULL for one layer; otherwise a fresh vector equal to Fold of the network's value; nothing is modified |
| Legacy.WithWeight | neuralnetwork.c:153-177 | the network value after a caller stores v into weight k of neuron j of layer l (the older file performs no such store itself; the store states what a copy from copy_network is independent of): that weight is v; everything else is unchanged; the shape and the chaining are kept |
| Legacy.Layer.SetWeight | neuralnetwork.c:153-177 | a caller's store into one neuron's weights, on a layer whose neurons own separate weight arrays as copy_network's memcpy targets do: the layer's value becomes WithWeight and nothing else changes |
| Legacy.Network.SetWeight | neuralnetwork.c:153-177 | a caller's store into one neuron's weights changes the network's value to WithWeight and touches no other array; CopyAndWrite applies it to a copy |
| Legacy.Network.Sizes | neuralnetwork.c:158-161 | the layer sizes copy_network collects: entry i is layer i's neuron count |
| Legacy.CopyLayer | neuralnetwork.c:165-171 | memcpy of every neuron's n_dim + 1 weights into the matching neuron of a layer of the same shape: the layers' values become equal |
| Legacy.Network.CopyFrom | neuralnetwork.c:164-172 | the nested loops of copy_network give this network the source's value |
| Legacy.Network.Copy | neuralnetwork.c:153-177 | copy_network returns a valid network with fresh arrays, the same number of layers, the same input width, the same layer sizes and activations, and the same value |
| Legacy.CopyAndForward | neuralnetwork.c:153-190 | a copy and its original give the same forward result: both are NULL exactly for one layer, and otherwise the contents are equal |
| Legacy.ForwardAlike | neuralnetwork.c:179-190 | two networks with the same value give the same network_forward result: both are NULL exactly for one layer, and otherwise the contents are equal |
| Legacy.WriteCopy | neuralnetwork.c:153-177 | a caller's store into one weight of a network, confined to that network's own arrays: its value becomes WithWeight of its value before |
| Legacy.CopyAndWrite | neuralnetwork.c:153-177 | the copy copy_network returns owns only fresh arrays; a caller's store into one of its weights leaves the original's value as it was, and the copy's value becomes the original's with that weight written |
| Xor.LegacyXor | xor_test.c:92-97 | the XOR weights form a chained 2-2-1 network reading two inputs (older interface) |
| Xor.CodinXor | xor_test.c:92-97 | the XOR weights form a chained 2-2-1 network reading two inputs |
| Xor.CodinXorTable | xor_test.c:92-97 | on 0/1 inputs a and b, the current engine with the XOR weights and step outputs a XOR b |
| Xor.LegacyXorTable | neuralnetwork.c:214-218 | on 0/1 inputs a and b, the older engine with the XOR weights and step outputs a XOR b |
| Xor.ThreeWrites | xor_test.c:92-97 | writing weights 1, 0 and 2 of a three-weight neuron makes its weights exactly the three values written and changes nothing else; writing them as 0, 1, 2 gives the same, so the unsequenced order of the chained stores does not matter |
| Xor.SetNeuron | xor_test.c:92-97 | the three assignments to one neuron's weights replace that neuron's weights in the model and keep its activation; they write only that neuron's weight array, so a zeroed network stays zeroed |
| Xor.SetXorWeights | xor_test.c:92-97 | the nine assignments give the network exactly the XOR model; they write only the three weight arrays, so a zeroed network stays zeroed |
| Xor.XorNetwork | xor_test.c:89-97 | new_network(2, {2, 1}, {step, step}, 2) followed by the nine assignments gives a valid network modelled by the XOR weights, with all retained and gradient state still zero |
| Xor.XorBits | xor_test.c:102-103 | round i feeds (i & 1, (i & 2) >> 1), so the expected outputs of rounds 0 to 3 are 0, 1, 1, 0 |
| Xor.XorRound | xor_test.c:102-107 | one round sets the input array to the two bits of i and evaluates the network, giving their exclusive or; the network is left evaluated on that input and the weights stay the XOR weights |
| Xor.XorDemo | xor_test.c:89-111 | the four rounds of the demonstration output 0, 1, 1, 0 |
| Agreement.ActivationsAgree | neuralnetwork.c:203-228 | the older relu, step and linear equal the current ones at derivative flag 0 |
| Agreement.UnitToLegacy | neuralnetwork.h:8-13 | bridges the two versions' neuron structs (this one and include/neuralnetwork.h:16-29): a current neuron's value as an older one, with the same weights and the activation read at flag 0 |
| Agreement.DenseToLegacy | neuralnetwork.h:15-20 | bridges the two versions' layer structs (this one and include/neuralnetwork.h:36-48): a current layer's value as an older one, neuron by neuron, with the same input width and shape |
| Agreement.ToLegacy | neuralnetwork.h:22-26 | bridges the two versions' network structs (this one and include/neuralnetwork.h:53-59): a current network's value as an older one, layer by layer, still chained |
| Agreement.LayerOutAgrees | neuralnetwork.c:107-118 | both versions of layer_forward compute the same output vector |
| Agreement.FoldAgrees | neuralnetwork.c:179-190 | both versions of network_forward compute the same fold |

## Left out

- softplus, sigm and soft_relu are not defined, because they need exp and log,
  which the reals here lack. Activations are function values, so any function
  can be passed.
- The random source is a parameter:
  - `rand()`, `srand(clock())` and `getrandom` become the `draws` parameter;
  - the current version's disabled `UNIX_RANDOM` branch (getrandom and
    ULLONG_MAX) is not modelled.
- The OpenMP branches are not modelled. They are switched off by
  `NEURON_PARALLEL` and `LAYER_PARALLEL`, both 0.
- Printing is not modelled: `print_neuron`, `print_layer`, `print_network` and
  the output of `xor_test.c`.
- Memory management is not modelled:
  - `delete_neuron`, `delete_layer`, `delete_network`, `free_matrix` and every
    `free` are left out, because Dafny has no deallocation;
  - allocation never fails;
  - the vector that `network_forward` leaks for a one-layer network is not
    modelled.
- `alloc_matrix` becomes a two-dimensional array, not an array of separately
  allocated rows.
- The current version's `copy_network` is not modelled, because it is
  commented out.
- Floating-point behaviour is not modelled:
  - IEEE single-precision rounding is not modelled. Over the reals the order
    of accumulation in neuron_forward does not matter (Common.DotIsSum); over
    floats it would.
  - `n_mults` is held in a float in the current neuron_forward
    (src/neuralnetwork.c:106). That is exact only while n_weights - 1 <= 2^24;
    the model treats it as exact for every size. For larger neurons the
    conversion can round down, and the loop would then skip the last products.
- Codin.Neuron.constructor requires at least one weight. With `n_weights == 0`,
  `n_weights - 1` wraps around as an unsigned int. `new_layer` always passes
  `input_size + 1`.
- Codin.Network.constructor and Legacy.Network.constructor require at least
  one layer, because with none `new_network` reads outside its arrays.
- Codin.Network.Forward and Legacy.Network.Forward require the input to be at
  least as wide as the first layer. The C code reads without checking.
- The first three parts of `xor_test.c` are not modelled. They evaluate one
  neuron, one layer and a five-layer sigm/relu network on `rand_vect` inputs
  and print the results.
- The random initial contents of the XOR input vector are not modelled,
  because both entries are overwritten before each evaluation.
- `xor_test.c` declares its activation array with the one-argument function
  type. The functions it names are the current two-argument `step`, which
  `neuron_forward` calls with flag 0, and the model uses those.
- `datastructures.c` and `datastructures.h` are not part of this model.
- The gradient buffers are modelled only as zero-filled arrays that no
  operation writes, because the engine never reads or writes them.
