# Shape inference of Antipasti's architectural layers

This project models the architectural layers of Antipasti (`Antipasti/layers/arch.py`):
`ReplicateLayer`, `ConcatenateLayer`, `AddLayer`, `IdentityLayer` and `FunctionLayer`.
It covers how each layer is configured and how it infers the shape of its output from
the shapes of its inputs. A shape is a list of dimensions, each a known size or unknown
(`None`). A layer either returns the output signature or raises an error.

Files:

- `wrappers.dfy` (module `Wrappers`): `Option`, `Result` and the three kinds of error.
  - `ConfigurationError` is a constructor's `ValueError`/`AssertionError`.
  - `ShapeError` is the `ValueError`/`AssertionError` raised by `infer_output_shape`.
  - `IndexError` is an out-of-range list index inside `infer_output_shape`.
- `shapes.dfy` (module `Shapes`): the data model.
  - Dimensions (`Option<nat>`), shapes (`seq<Dim>`) and signatures: a single shape, or a list of signatures (one per input).
  - The shape comparison (`Compatible`) and the list-of-shapes test (`IsListOfShapes`).
  - List slicing with the clamping that `s[:n]`, `s[n:]` and `s[:-1]` do.
- `arch.dfy` (module `Arch`): the layers.
  - A `Layer` datatype with one variant per class, its constructors with their validation, and `InferOutputShape`.
  - The forward passes of `ReplicateLayer` and `IdentityLayer`.
  - Concatenation (`Concatenate`, `ConcatenateInfer`) and addition (`AddInfer`) written as the source computes them.
- `arch_properties.dfy` (module `ArchProperties`): lemmas about when concatenation and addition succeed and what they return.

Every layer's fields are assigned once in its constructor and never changed afterwards.
So a layer is a value: a `Layer` datatype built by constructor functions that return
`Result<Layer>` when the source's constructor can raise. Shape inference is a pure
function of the layer and the input signature, as in the source.

Two helpers are called by the layers but are not part of this model: `utils.compare_shapes`
and `py.islistoflists`. They are defined here as follows:

- `compare_shapes(a, b)` (`Shapes.Compatible`): the shapes have the same length, and at
  each position the two dimensions are equal or at least one is unknown. This is an
  assumption: the model takes an unknown dimension to match anything whether or not
  `soft` is set, and so does not model the `soft` flag. Under the other reading, an
  unknown dimension matches only when `soft` is set. ConcatenateLayer (which does not
  pass `soft`) would then reject inputs that differ off the axis only by an unknown,
  which this model accepts.
- `islistoflists(x)` (`Shapes.IsListOfShapes`): `x` is a list whose every entry is a single
  shape descriptor.

ConcatenateLayer does not check how many inputs it gets. No inputs fail when
`input_shape[0]` is indexed (`Antipasti/layers/arch.py:71`). A single input comes back
unchanged when it has an entry at the axis; otherwise indexing it at the axis fails
(`Antipasti/layers/arch.py:72`).

## Model

| member | source | states |
|---|---|---|
| `Arch.Repeat` | Antipasti/layers/arch.py:23 | `[x] * n` has `n` entries when `n` is positive and none otherwise; every entry is `x` |
| `Arch.ReplicateFeedforward` | Antipasti/layers/arch.py:20-23 | the forward pass returns exactly `num_replicate` copies of the input (none if `num_replicate` is not positive) |
| `Arch.NewReplicateLayer` | Antipasti/layers/arch.py:11-27 | construction never fails; for every input signature, inference succeeds with a list of `num_replicate` entries, each equal to that signature |
| `Arch.AxisFromInt` | Antipasti/layers/arch.py:37-39 | the axis is accepted exactly when it is 0, 1, 2, 3, 4 or -1, and the accepted axis maps back to that integer; anything else is a configuration error |
| `Arch.AxisRoundTrip` | Antipasti/layers/arch.py:37-39 | every supported axis survives the trip to its integer and back |
| `Arch.NewConcatenateLayer` | Antipasti/layers/arch.py:32-43 | construction succeeds exactly for axes 0, 1, 2, 3, 4, -1 and otherwise fails with a configuration error |
| `ArchProperties.OffAxisCompatibleIff` | Antipasti/layers/arch.py:53-61 | for two shapes that both have an entry at the axis, comparing `ishp[:-1]` (or `ishp[:k] + ishp[k+1:]`) with the first input's is the same as requiring equal rank and matching dimensions at every position other than the axis |
| `ArchProperties.ConcatenateSucceedsIff` | Antipasti/layers/arch.py:52-75 | concatenation succeeds exactly when there is at least one input, the first has an entry at the axis, and every input has the first's rank and matches it at every position other than the axis |
| `ArchProperties.ConcatenateRejectsMismatch` | Antipasti/layers/arch.py:52-69 | an input that has the axis but differs from the first in rank, or at a position other than the axis, makes inference fail with a shape error |
| `ArchProperties.ConcatenateLayerNeedsList` | Antipasti/layers/arch.py:52-64 | a signature that is not a list of shape descriptors is a shape error |
| `ArchProperties.ConcatenateOutput` | Antipasti/layers/arch.py:71-75 | on success the output has the first input's rank; it equals the first input and matches every input at every position other than the axis; at the axis it holds the combined dimension of all inputs |
| `ArchProperties.ConcatenateLastAxis` | Antipasti/layers/arch.py:71-75 | with axis -1 a successful output has the first input's rank (at least one); its last entry is the combined dimension and every earlier entry is the first input's |
| `ArchProperties.ConcatenateLayerOnShapes` | Antipasti/layers/arch.py:49-76 | ConcatenateLayer's inference on a list of shapes succeeds exactly when they agree off the axis; it returns the concatenated shape, or the same error as the concatenation |
| `ArchProperties.ConcatenateSingle` | Antipasti/layers/arch.py:49-76 | concatenating a single input that has the axis returns that input unchanged |
| `ArchProperties.ConcatenateRegroups` | Antipasti/layers/arch.py:49-76 | concatenating a list plus one more input succeeds exactly when concatenating the list, then its output with the extra input, succeeds; both ways give the same output |
| `ArchProperties.KnownTotalAppend` | Antipasti/layers/arch.py:72 | the sum of known dimensions over two joined lists is the sum of the two lists' sums |
| `ArchProperties.CombineAppend` | Antipasti/layers/arch.py:72-74 | combining joined lists of dimensions is adding their combined values, and an unknown on either side makes the result unknown |
| `ArchProperties.CombineSingleton` | Antipasti/layers/arch.py:72-74 | a single dimension combines to itself |
| `ArchProperties.CombinePair` | Antipasti/layers/arch.py:72-74 | two dimensions combine to their sum, or to unknown when either is unknown |
| `ArchProperties.CombineBounds` | Antipasti/layers/arch.py:72-74 | the combined dimension is unknown exactly when some input's is unknown; when known, it is at least each input's dimension |
| `Arch.NewAddLayer` | Antipasti/layers/arch.py:81-91 | construction succeeds exactly when the resolved number of inputs is greater than 1, otherwise it is a configuration error |
| `ArchProperties.AddInferSpec` | Antipasti/layers/arch.py:93-109 | inference succeeds exactly on a list of exactly `num_inputs` shape descriptors (at least one), each compatible with the first; the output is the first, compatible with every input; a signature that is not a list of shapes is a shape error |
| `ArchProperties.AddKnownInputsAreEqual` | Antipasti/layers/arch.py:103-109 | when every input is fully known, a successful addition has all inputs equal to the output |
| `ArchProperties.AddComparesWithFirstOnly` | Antipasti/layers/arch.py:103-108 | inputs are only compared with the first: with an unknown first dimension, inputs of sizes 5 and 6 along it are accepted together |
| `ArchProperties.AddExamples` | Antipasti/layers/arch.py:88-109 | `[4,4]`, `[None,4]`, `[4,4]` add to `[4,4]`; replacing the last by `[5,4]` is a shape error; one input is a configuration error |
| `ArchProperties.ConcatenateKnownExample` | Antipasti/layers/arch.py:71-75 | along axis 1, `[2,3,4]` and `[2,5,4]` give `[2,8,4]` |
| `ArchProperties.ConcatenateUnknownExample` | Antipasti/layers/arch.py:72-74 | along axis 1, `[2,None,4]` and `[2,5,4]` give `[2,None,4]`: unknown propagates |
| `ArchProperties.ConcatenateMismatchExample` | Antipasti/layers/arch.py:58-69 | along axis 1, `[2,3]` with `[3,3]` is a shape error |
| `Arch.NewIdentityLayer` | Antipasti/layers/arch.py:118-128 | construction never fails, and inference returns its input signature unchanged |
| `ArchProperties.IdentityLaws` | Antipasti/layers/arch.py:122-128 | IdentityLayer's inference and forward pass both return their argument unchanged |
| `Arch.NewFunctionLayer` | Antipasti/layers/arch.py:141-163 | without a shape-inference function, inference returns its input signature unchanged and does not fail; with one, inference returns what that function returns |
| `Shapes.CompatibleSymmetric` | Antipasti/layers/arch.py:103 | shape compatibility does not depend on the order of the two shapes |
| `Shapes.CompatibleReflexive` | Antipasti/layers/arch.py:103 | every shape is compatible with itself, so the first input always passes its own comparison |
| `Shapes.CompatibleKnownIsEqual` | Antipasti/layers/arch.py:55-61 | on fully known shapes, compatibility is equality |
| `Shapes.CompatibleNotTransitive` | Antipasti/layers/arch.py:103 | an unknown dimension is compatible with two sizes that are not compatible with each other |
| `Shapes.ListOfShapesOf` | Antipasti/layers/arch.py:52 | a list of shape descriptors is rebuilt exactly from its descriptors |
| `Shapes.ShapesOfListOf` | Antipasti/layers/arch.py:96 | the descriptors of a list built from shapes are those shapes |

## Left out

- `ConcatenateLayer.feedforward` and `AddLayer.feedforward` call the tensor backend (`A.concatenate`, `A.add_n`), a numeric library outside this model.
- `FunctionLayer.feedforward` calls the user's arbitrary function, which cannot be modelled.
- FunctionLayer's `callable()` checks are not modelled. Dafny's types make both arguments callable, so the check cannot fail.
- FunctionLayer's loop registering `parameters` is not modelled. It is a side effect on the `Layer` base class, which is not part of this model. It would also fail when `parameters` keeps its default `None`.
- `NewFunctionLayer`: the user's shape-inference function is a total Dafny function, so the model cannot express that function raising an error.
- The `Layer` base class is not part of this model, and neither are the `utils.forward_pass` / `utils.shape_inference` decorators or `_stamp_string`. As a result, `infer_output_shape` does not fall back to the stored `input_shape` when it is called without an argument.
- `utils.get_input_shape` is not part of this model. The stored input signature and the resolved `num_inputs` are constructor arguments. Any error raised while resolving them is not modelled.
- `utils.compare_shapes` and `py.islistoflists` are not part of this model. They are replaced by the definitions given above.
- Error messages are not modelled. Exception types are reduced to the three kinds in `Wrappers.Error`.
- `ReplicateFeedforward` returns copies of a value. The source returns several references to one object, so object identity and aliasing are not captured.
- Dimensions are natural numbers. Negative or non-integer sizes that the source would pass through `sum` are not modelled.
- `Signature` tells an empty single shape (`Dims([])`) apart from an empty list of shapes (`Group([])`), while the source's `[]` is both. On ConcatenateLayer the first is a shape error and the second an index error; both are errors, only their kind differs.
