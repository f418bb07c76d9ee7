/**
 * Shape descriptors, the comparison the layers use to check them, and the
 * list-slicing operations the layers build shapes with.
 */
module Shapes {
  import opened Wrappers

  /** One dimension of a tensor: a known size, or `None` when unknown. */
  type Dim = Option<nat>

  /** A shape descriptor: one dimension per axis. */
  type Shape = seq<Dim>

  /**
   * What a layer is given or returns as a shape: a single descriptor, or a list
   * of them (one per input). Lists nest, since replicating a list yields a list of lists.
   */
  datatype Signature = Dims(dims: Shape) | Group(items: seq<Signature>)

  // ---------------------------------------------------------------------------
  // Comparison
  // ---------------------------------------------------------------------------

  /** Two dimensions could be equal: an unknown dimension matches anything. */
  predicate DimsMatch(x: Dim, y: Dim)
  {
    x.None? || y.None? || x == y
  }

  /** Two shapes could describe the same tensor: same rank, matching dimensions. */
  predicate Compatible(a: Shape, b: Shape)
  {
    |a| == |b| && forall i :: 0 <= i < |a| ==> DimsMatch(a[i], b[i])
  }

  /** A shape all of whose dimensions are known. */
  predicate FullyKnown(a: Shape)
  {
    forall i :: 0 <= i < |a| ==> a[i].Some?
  }

  lemma CompatibleSymmetric(a: Shape, b: Shape)
    ensures Compatible(a, b) <==> Compatible(b, a)
  {
  }

  lemma CompatibleReflexive(a: Shape)
    ensures Compatible(a, a)
  {
  }

  /** On fully known shapes, compatibility is plain equality. */
  lemma CompatibleKnownIsEqual(a: Shape, b: Shape)
    requires FullyKnown(a) && FullyKnown(b)
    ensures Compatible(a, b) <==> a == b
  {
  }

  /** Compatibility is not transitive: an unknown dimension matches two different sizes. */
  lemma CompatibleNotTransitive()
    ensures Compatible([None], [Some(5)]) && Compatible([None], [Some(6)])
    ensures !Compatible([Some(5)], [Some(6)])
  {
    var five: Shape, six: Shape := [Some(5)], [Some(6)];
    assert !DimsMatch(five[0], six[0]);
  }

  // ---------------------------------------------------------------------------
  // Single descriptors versus lists of descriptors
  // ---------------------------------------------------------------------------

  /** The signature is a list whose every entry is a single shape descriptor. */
  predicate IsListOfShapes(sig: Signature)
  {
    sig.Group? && forall i :: 0 <= i < |sig.items| ==> sig.items[i].Dims?
  }

  /** The shape descriptors of a list of shapes. */
  function ShapesOf(sig: Signature): (r: seq<Shape>)
    requires IsListOfShapes(sig)
    ensures |r| == |sig.items|
    ensures forall i :: 0 <= i < |r| ==> sig.items[i] == Dims(r[i])
  {
    seq(|sig.items|, i requires 0 <= i < |sig.items| => sig.items[i].dims)
  }

  /** The signature of several inputs with the given shapes. */
  function ListOf(shapes: seq<Shape>): (r: Signature)
    ensures IsListOfShapes(r) && |r.items| == |shapes|
  {
    Group(seq(|shapes|, i requires 0 <= i < |shapes| => Dims(shapes[i])))
  }

  lemma ShapesOfListOf(shapes: seq<Shape>)
    ensures ShapesOf(ListOf(shapes)) == shapes
  {
  }

  lemma ListOfShapesOf(sig: Signature)
    requires IsListOfShapes(sig)
    ensures ListOf(ShapesOf(sig)) == sig
  {
  }

  // ---------------------------------------------------------------------------
  // List slicing, with the clamping of out-of-range bounds that list slices do
  // ---------------------------------------------------------------------------

  /** `s[:n]`: the first `n` entries, or all of `s` when it is shorter. */
  function Prefix<T>(s: seq<T>, n: nat): (r: seq<T>)
    ensures |r| == if n <= |s| then n else |s|
    ensures forall i :: 0 <= i < |r| ==> r[i] == s[i]
  {
    if n <= |s| then s[..n] else s
  }

  /** `s[n:]`: the entries from position `n` on, or none when `s` is shorter. */
  function Suffix<T>(s: seq<T>, n: nat): (r: seq<T>)
    ensures |r| == if n <= |s| then |s| - n else 0
    ensures forall i :: 0 <= i < |r| ==> r[i] == s[n + i]
  {
    if n <= |s| then s[n..] else []
  }

  /** `s[:-1]`: everything but the last entry; the empty list stays empty. */
  function DropLast<T>(s: seq<T>): (r: seq<T>)
    ensures |r| == if |s| == 0 then 0 else |s| - 1
    ensures forall i :: 0 <= i < |r| ==> r[i] == s[i]
  {
    if |s| == 0 then [] else s[..|s| - 1]
  }
}
