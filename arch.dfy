/**
 * The architectural layers: replicate, concatenate, add, identity and function.
 * Each layer is a configuration value fixed at construction; its shape inference
 * maps the shape signature of its input(s) to that of its output, or fails.
 */
module Arch {
  import opened Wrappers
  import opened Shapes

  // ---------------------------------------------------------------------------
  // Replication
  // ---------------------------------------------------------------------------

  /** `[x] * n`: `n` copies of `x`; no copies at all when `n` is not positive. */
  function Repeat<T>(x: T, n: int): (r: seq<T>)
    ensures |r| == if n > 0 then n else 0
    ensures forall i :: 0 <= i < |r| ==> r[i] == x
    decreases n
  {
    if n <= 0 then [] else [x] + Repeat(x, n - 1)
  }

  /** ReplicateLayer's forward pass: the input, `numReplicate` times. */
  function ReplicateFeedforward<T>(numReplicate: int, input: T): (r: seq<T>)
    ensures |r| == if numReplicate > 0 then numReplicate else 0
    ensures forall i :: 0 <= i < |r| ==> r[i] == input
  {
    Repeat(input, numReplicate)
  }

  /** IdentityLayer's forward pass. */
  function IdentityFeedforward<T>(input: T): T
  {
    input
  }

  // ---------------------------------------------------------------------------
  // Concatenation
  // ---------------------------------------------------------------------------

  /** The axis inputs are concatenated along: the last one, or a position from the front. */
  datatype Axis = Last | Index(k: nat)

  /** The integer by which the axis is given to ConcatenateLayer. */
  function AxisToInt(axis: Axis): int
  {
    match axis
    case Last => -1
    case Index(k) => k
  }

  /** The axes ConcatenateLayer accepts: positions 0 to 4, or the last one. */
  predicate SupportedAxis(axis: Axis)
  {
    axis.Last? || axis.k <= 4
  }

  /** ConcatenateLayer's check of its `axis` argument. */
  function AxisFromInt(axis: int): (r: Result<Axis>)
    ensures r.Ok? <==> axis in {0, 1, 2, 3, 4, -1}
    ensures r.Ok? ==> SupportedAxis(r.value) && AxisToInt(r.value) == axis
    ensures r.Err? ==> r.error == ConfigurationError
  {
    if axis == -1 then Ok(Last)
    else if 0 <= axis <= 4 then Ok(Index(axis))
    else Err(ConfigurationError)
  }

  lemma AxisRoundTrip(axis: Axis)
    requires SupportedAxis(axis)
    ensures AxisFromInt(AxisToInt(axis)) == Ok(axis)
  {
  }

  /** The position the axis denotes in a shape of rank `n`. */
  function AxisPos(axis: Axis, n: nat): int
  {
    match axis
    case Last => n - 1
    case Index(k) => k
  }

  /** The shape has an entry at the axis. */
  predicate HasAxis(axis: Axis, s: Shape)
  {
    0 <= AxisPos(axis, |s|) < |s|
  }

  /** `s[axis]`: the dimension at the axis. */
  function AxisDim(axis: Axis, s: Shape): Dim
    requires HasAxis(axis, s)
  {
    s[AxisPos(axis, |s|)]
  }

  /** The part of a shape that concatenation compares: `s[:-1]`, or `s[:k] + s[k+1:]`. */
  function OffAxisView(axis: Axis, s: Shape): Shape
  {
    match axis
    case Last => DropLast(s)
    case Index(k) => Prefix(s, k) + Suffix(s, k + 1)
  }

  /** The first shape with the axis entry replaced: `s[0:axis] + [d] + (s[axis+1:] or [])`. */
  function Splice(axis: Axis, s: Shape, d: Dim): Shape
    requires HasAxis(axis, s)
  {
    match axis
    case Last => DropLast(s) + [d]
    case Index(k) => Prefix(s, k) + [d] + Suffix(s, k + 1)
  }

  /** Every input agrees with the first one on its compared part. */
  predicate Consistent(axis: Axis, shapes: seq<Shape>)
  {
    forall i :: 0 <= i < |shapes| ==>
      Compatible(OffAxisView(axis, shapes[i]), OffAxisView(axis, shapes[0]))
  }

  /** `[ishp[axis] for ishp in input_shape]`. */
  function AxisDims(axis: Axis, shapes: seq<Shape>): (r: seq<Dim>)
    requires forall i :: 0 <= i < |shapes| ==> HasAxis(axis, shapes[i])
    ensures |r| == |shapes|
    ensures forall i :: 0 <= i < |r| ==> r[i] == AxisDim(axis, shapes[i])
  {
    seq(|shapes|, i requires 0 <= i < |shapes| => AxisDim(axis, shapes[i]))
  }

  /** `sum(ds)` over dimensions that are all known, added from the left. */
  function KnownTotal(ds: seq<Dim>): nat
    requires None !in ds
  {
    if |ds| == 0 then 0 else KnownTotal(ds[..|ds| - 1]) + ds[|ds| - 1].value
  }

  /** The concatenated dimension: the sum when every input's is known, unknown otherwise. */
  function Combine(ds: seq<Dim>): Dim
  {
    if None !in ds then Some(KnownTotal(ds)) else None
  }

  /** Adding two dimensions, with an unknown one making the sum unknown. */
  function AddDims(x: Dim, y: Dim): Dim
  {
    if x.Some? && y.Some? then Some(x.value + y.value) else None
  }

  /**
   * ConcatenateLayer.infer_output_shape on a list of shape descriptors: every
   * input must agree with the first except at the axis; then the output is the
   * first input with the axis entry replaced by the combined dimension.
   */
  function Concatenate(axis: Axis, shapes: seq<Shape>): Result<Shape>
  {
    if !Consistent(axis, shapes) then Err(ShapeError)
    else if |shapes| == 0 then Err(IndexError)
    else if exists i :: 0 <= i < |shapes| && !HasAxis(axis, shapes[i]) then Err(IndexError)
    else Ok(Splice(axis, shapes[0], Combine(AxisDims(axis, shapes))))
  }

  /** ConcatenateLayer.infer_output_shape: the input must be a list of shape descriptors. */
  function ConcatenateInfer(axis: Axis, sig: Signature): Result<Signature>
  {
    if !IsListOfShapes(sig) then Err(ShapeError)
    else
      match Concatenate(axis, ShapesOf(sig))
      case Ok(s) => Ok(Dims(s))
      case Err(e) => Err(e)
  }

  // ---------------------------------------------------------------------------
  // Addition
  // ---------------------------------------------------------------------------

  /**
   * AddLayer.infer_output_shape: a list of exactly `numInputs` shape descriptors,
   * each compatible with the first; the output is the first.
   */
  function AddInfer(numInputs: int, sig: Signature): Result<Signature>
  {
    if !IsListOfShapes(sig) then Err(ShapeError)
    else if |sig.items| != numInputs then Err(ShapeError)
    else if !(forall i :: 0 <= i < |sig.items| ==> Compatible(sig.items[i].dims, sig.items[0].dims))
    then Err(ShapeError)
    else if |sig.items| == 0 then Err(IndexError)
    else Ok(sig.items[0])
  }

  // ---------------------------------------------------------------------------
  // Layers
  // ---------------------------------------------------------------------------

  /**
   * A layer and its configuration. `inputShape` is the shape signature resolved
   * at construction; `numInputs` the resolved number of inputs.
   */
  datatype Layer =
    | ReplicateLayer(numReplicate: int, inputShape: Signature)
    | ConcatenateLayer(axis: Axis, inputShape: Signature)
    | AddLayer(numInputs: int, inputShape: Signature)
    | IdentityLayer(inputShape: Signature)
    | FunctionLayer(shapeInference: Signature -> Signature, inputShape: Signature)

  /** What the constructors guarantee about a layer's configuration. */
  predicate Valid(layer: Layer)
  {
    match layer
    case ConcatenateLayer(axis, _) => SupportedAxis(axis)
    case AddLayer(numInputs, _) => numInputs > 1
    case _ => true
  }

  /** Shape inference, for every kind of layer. */
  function InferOutputShape(layer: Layer, sig: Signature): Result<Signature>
  {
    match layer
    case ReplicateLayer(numReplicate, _) => Ok(Group(Repeat(sig, numReplicate)))
    case ConcatenateLayer(axis, _) => ConcatenateInfer(axis, sig)
    case AddLayer(numInputs, _) => AddInfer(numInputs, sig)
    case IdentityLayer(_) => Ok(sig)
    case FunctionLayer(f, _) => Ok(f(sig))
  }

  /**
   * ReplicateLayer's constructor: `num_replicate` is taken as it is. The layer's
   * output signature is a list of that many copies of its input signature.
   */
  function NewReplicateLayer(numReplicate: int, inputShape: Signature): (r: Layer)
    ensures Valid(r)
    ensures forall sig ::
      && InferOutputShape(r, sig).Ok?
      && InferOutputShape(r, sig).value.Group?
      && |InferOutputShape(r, sig).value.items| == (if numReplicate > 0 then numReplicate else 0)
      && forall i :: 0 <= i < |InferOutputShape(r, sig).value.items| ==>
           InferOutputShape(r, sig).value.items[i] == sig
  {
    ReplicateLayer(numReplicate, inputShape)
  }

  /** ConcatenateLayer's constructor: fails unless the axis is 0, 1, 2, 3, 4 or -1. */
  function NewConcatenateLayer(axis: int, inputShape: Signature): (r: Result<Layer>)
    ensures r.Ok? <==> axis in {0, 1, 2, 3, 4, -1}
    ensures r.Ok? ==> Valid(r.value) && r.value.ConcatenateLayer? && AxisToInt(r.value.axis) == axis
    ensures r.Err? ==> r.error == ConfigurationError
  {
    match AxisFromInt(axis)
    case Ok(a) => Ok(ConcatenateLayer(a, inputShape))
    case Err(e) => Err(e)
  }

  /** AddLayer's constructor: fails unless the resolved number of inputs is above one. */
  function NewAddLayer(numInputs: int, inputShape: Signature): (r: Result<Layer>)
    ensures r.Ok? <==> numInputs > 1
    ensures r.Ok? ==> Valid(r.value) && r.value.AddLayer? && r.value.numInputs == numInputs
    ensures r.Err? ==> r.error == ConfigurationError
  {
    if numInputs > 1 then Ok(AddLayer(numInputs, inputShape)) else Err(ConfigurationError)
  }

  /** IdentityLayer's constructor. */
  function NewIdentityLayer(inputShape: Signature): (r: Layer)
    ensures Valid(r)
    ensures forall sig :: InferOutputShape(r, sig) == Ok(sig)
  {
    IdentityLayer(inputShape)
  }

  /**
   * FunctionLayer's constructor: without a shape-inference function, shapes
   * pass through unchanged.
   */
  function NewFunctionLayer(shapeInference: Option<Signature -> Signature>, inputShape: Signature): (r: Layer)
    ensures Valid(r)
    ensures shapeInference.None? ==> forall sig :: InferOutputShape(r, sig) == Ok(sig)
    ensures shapeInference.Some? ==>
      forall sig :: InferOutputShape(r, sig) == Ok(shapeInference.value(sig))
  {
    match shapeInference
    case Some(f) => FunctionLayer(f, inputShape)
    case None => FunctionLayer(s => s, inputShape)
  }
}
