/**
 * What the layers' shape inference guarantees: when concatenation and
 * addition succeed or fail, what their outputs are, and how the combined
 * dimension of a concatenation behaves.
 */
module ArchProperties {
  import opened Wrappers
  import opened Shapes
  import opened Arch

  // ---------------------------------------------------------------------------
  // The combined dimension
  // ---------------------------------------------------------------------------

  lemma {:induction false} KnownTotalAppend(a: seq<Dim>, b: seq<Dim>)
    requires None !in a && None !in b
    ensures None !in a + b
    ensures KnownTotal(a + b) == KnownTotal(a) + KnownTotal(b)
    decreases |b|
  {
    if |b| == 0 {
      assert a + b == a;
    } else {
      var b' := b[..|b| - 1];
      assert (a + b)[..|a + b| - 1] == a + b';
      KnownTotalAppend(a, b');
    }
  }

  /** Combining two groups of dimensions is adding their combined dimensions. */
  lemma CombineAppend(a: seq<Dim>, b: seq<Dim>)
    ensures Combine(a + b) == AddDims(Combine(a), Combine(b))
  {
    if None in a + b {
      assert None in a || None in b;
    } else {
      assert None !in a && None !in b by {
        assert forall i :: 0 <= i < |a| ==> a[i] == (a + b)[i];
        assert forall i :: 0 <= i < |b| ==> b[i] == (a + b)[|a| + i];
      }
      KnownTotalAppend(a, b);
    }
  }

  lemma CombineSingleton(d: Dim)
    ensures Combine([d]) == d
  {
    if d.Some? {
      assert [d][..0] == [];
      assert KnownTotal([d]) == KnownTotal([]) + d.value;
    }
  }

  /** Two dimensions combine to their sum, or to unknown when either is unknown. */
  lemma CombinePair(x: Dim, y: Dim)
    ensures Combine([x, y]) == AddDims(x, y)
  {
    assert [x, y] == [x] + [y];
    CombineAppend([x], [y]);
    CombineSingleton(x);
    CombineSingleton(y);
  }

  /**
   * An unknown dimension anywhere makes the combined dimension unknown;
   * otherwise it is known and at least each input's dimension.
   */
  lemma {:induction false} CombineBounds(ds: seq<Dim>)
    ensures Combine(ds).None? <==> exists i :: 0 <= i < |ds| && ds[i].None?
    ensures Combine(ds).Some? ==>
      forall i :: 0 <= i < |ds| ==> ds[i].Some? && ds[i].value <= Combine(ds).value
    decreases |ds|
  {
    if None in ds {
      var i :| 0 <= i < |ds| && ds[i] == None;
      assert ds[i].None?;
    } else if |ds| > 0 {
      var front := ds[..|ds| - 1];
      assert ds == front + [ds[|ds| - 1]];
      CombineBounds(front);
      CombineAppend(front, [ds[|ds| - 1]]);
      CombineSingleton(ds[|ds| - 1]);
      forall i | 0 <= i < |ds| ensures ds[i].Some? && ds[i].value <= Combine(ds).value {
        if i < |ds| - 1 {
          assert ds[i] == front[i];
        }
      }
    }
  }

  // ---------------------------------------------------------------------------
  // The parts of a shape concatenation compares and produces
  // ---------------------------------------------------------------------------

  /** The shape `s` and `t` agree at every position other than the axis. */
  predicate SameOffAxis(axis: Axis, s: Shape, t: Shape)
  {
    |s| == |t| &&
    forall j :: 0 <= j < |s| && j != AxisPos(axis, |s|) ==> DimsMatch(s[j], t[j])
  }

  /** There is at least one input, it has the axis, and every input agrees with it off the axis. */
  predicate AgreeOffAxis(axis: Axis, shapes: seq<Shape>)
  {
    |shapes| > 0 && HasAxis(axis, shapes[0]) &&
    forall i :: 0 <= i < |shapes| ==> SameOffAxis(axis, shapes[i], shapes[0])
  }

  /** The compared part of a shape is the shape with the axis entry taken out. */
  lemma OffAxisViewAt(axis: Axis, s: Shape)
    requires HasAxis(axis, s)
    ensures |OffAxisView(axis, s)| == |s| - 1
    ensures forall j :: 0 <= j < |s| - 1 ==>
      OffAxisView(axis, s)[j] == s[if j < AxisPos(axis, |s|) then j else j + 1]
  {
  }

  /** The output shape is the first input with only the axis entry changed. */
  lemma SpliceAt(axis: Axis, s: Shape, d: Dim)
    requires HasAxis(axis, s)
    ensures |Splice(axis, s, d)| == |s|
    ensures Splice(axis, s, d)[AxisPos(axis, |s|)] == d
    ensures forall j :: 0 <= j < |s| && j != AxisPos(axis, |s|) ==> Splice(axis, s, d)[j] == s[j]
  {
    match axis
    case Last =>
    case Index(k) =>
      var r := Splice(axis, s, d);
      forall j | 0 <= j < |s| && j != k ensures r[j] == s[j] {
        if j > k {
          assert r[j] == Suffix(s, k + 1)[j - k - 1];
        }
      }
  }

  /** Comparing the compared parts is comparing the shapes everywhere but the axis. */
  lemma OffAxisCompatibleIff(axis: Axis, s: Shape, t: Shape)
    requires HasAxis(axis, s) && HasAxis(axis, t)
    ensures Compatible(OffAxisView(axis, s), OffAxisView(axis, t)) <==> SameOffAxis(axis, s, t)
  {
    OffAxisViewAt(axis, s);
    OffAxisViewAt(axis, t);
    var vs, vt := OffAxisView(axis, s), OffAxisView(axis, t);
    var p := AxisPos(axis, |s|);
    if Compatible(vs, vt) {
      forall j | 0 <= j < |s| && j != p ensures DimsMatch(s[j], t[j]) {
        var j' := if j < p then j else j - 1;
        assert DimsMatch(vs[j'], vt[j']);
      }
    }
    if SameOffAxis(axis, s, t) {
      forall j' | 0 <= j' < |vs| ensures DimsMatch(vs[j'], vt[j']) {
        var j := if j' < p then j' else j' + 1;
        assert DimsMatch(s[j], t[j]);
      }
    }
  }

  // ---------------------------------------------------------------------------
  // Concatenation
  // ---------------------------------------------------------------------------

  /**
   * Concatenation succeeds exactly when there is an input, the first has the
   * axis, and every input has the first's rank and matches it off the axis.
   */
  lemma ConcatenateSucceedsIff(axis: Axis, shapes: seq<Shape>)
    ensures Concatenate(axis, shapes).Ok? <==> AgreeOffAxis(axis, shapes)
  {
    if Concatenate(axis, shapes).Ok? {
      forall i | 0 <= i < |shapes| ensures SameOffAxis(axis, shapes[i], shapes[0]) {
        OffAxisCompatibleIff(axis, shapes[i], shapes[0]);
      }
    }
    if AgreeOffAxis(axis, shapes) {
      forall i | 0 <= i < |shapes|
        ensures HasAxis(axis, shapes[i])
        ensures Compatible(OffAxisView(axis, shapes[i]), OffAxisView(axis, shapes[0]))
      {
        OffAxisCompatibleIff(axis, shapes[i], shapes[0]);
      }
    }
  }

  /**
   * An input that has the axis but differs from the first input in rank, or
   * at a position other than the axis, is a shape error.
   */
  lemma ConcatenateRejectsMismatch(axis: Axis, shapes: seq<Shape>, i: nat, j: nat)
    requires i < |shapes| && HasAxis(axis, shapes[0]) && HasAxis(axis, shapes[i])
    requires
      || |shapes[i]| != |shapes[0]|
      || (j < |shapes[i]| == |shapes[0]| && j != AxisPos(axis, |shapes[0]|)
          && !DimsMatch(shapes[i][j], shapes[0][j]))
    ensures Concatenate(axis, shapes) == Err(ShapeError)
  {
    OffAxisCompatibleIff(axis, shapes[i], shapes[0]);
  }

  /**
   * On success the output has the first input's rank, equals it away from the
   * axis, matches every input there, and holds the combined dimension at the
   * axis: the sum of the inputs' dimensions there, or unknown if any is unknown.
   */
  lemma ConcatenateOutput(axis: Axis, shapes: seq<Shape>)
    requires Concatenate(axis, shapes).Ok?
    ensures var out, p := Concatenate(axis, shapes).value, AxisPos(axis, |shapes[0]|);
      && |out| == |shapes[0]| && 0 <= p < |out|
      && (forall j :: 0 <= j < |out| && j != p ==> out[j] == shapes[0][j])
      && (forall i, j :: 0 <= i < |shapes| && 0 <= j < |out| && j != p ==>
            |shapes[i]| == |out| && DimsMatch(shapes[i][j], out[j]))
      && (forall i :: 0 <= i < |shapes| ==> HasAxis(axis, shapes[i]))
      && out[p] == Combine(AxisDims(axis, shapes))
  {
    ConcatenateSucceedsIff(axis, shapes);
    SpliceAt(axis, shapes[0], Combine(AxisDims(axis, shapes)));
  }

  /**
   * With the last axis, the output keeps the first input's rank: the first
   * input's entries up to its last, then the combined dimension, and nothing after.
   */
  lemma ConcatenateLastAxis(shapes: seq<Shape>)
    requires Concatenate(Last, shapes).Ok?
    ensures var out := Concatenate(Last, shapes).value;
      && |out| == |shapes[0]| >= 1
      && out[|out| - 1] == Combine(AxisDims(Last, shapes))
      && forall j :: 0 <= j < |out| - 1 ==> out[j] == shapes[0][j]
  {
    ConcatenateOutput(Last, shapes);
  }

  /** Concatenating a single input that has the axis gives that input back. */
  lemma ConcatenateSingle(axis: Axis, s: Shape)
    requires HasAxis(axis, s)
    ensures Concatenate(axis, [s]) == Ok(s)
  {
    ConcatenateSucceedsIff(axis, [s]);
    var out := Concatenate(axis, [s]).value;
    ConcatenateOutput(axis, [s]);
    assert AxisDims(axis, [s]) == [AxisDim(axis, s)];
    CombineSingleton(AxisDim(axis, s));
    assert out == s;
  }

  /** Appending an input keeps agreement exactly when the new input agrees with the first. */
  lemma AgreeOffAxisAppend(axis: Axis, shapes: seq<Shape>, t: Shape)
    requires |shapes| > 0
    ensures AgreeOffAxis(axis, shapes + [t]) <==>
      AgreeOffAxis(axis, shapes) && SameOffAxis(axis, t, shapes[0])
  {
    var all := shapes + [t];
    assert forall i :: 0 <= i < |shapes| ==> all[i] == shapes[i];
    assert all[|shapes|] == t;
  }

  /** A two-input concatenation agrees exactly when the second input agrees with the first. */
  lemma AgreeOffAxisPair(axis: Axis, h: Shape, t: Shape)
    ensures AgreeOffAxis(axis, [h, t]) <==> HasAxis(axis, h) && SameOffAxis(axis, t, h)
  {
    var pair := [h, t];
    assert pair[0] == h && pair[1] == t;
    assert SameOffAxis(axis, h, h);
  }

  /** The combined dimension of a list and one more input. */
  lemma CombineAxisDimsAppend(axis: Axis, shapes: seq<Shape>, t: Shape)
    requires forall i :: 0 <= i < |shapes| ==> HasAxis(axis, shapes[i])
    requires HasAxis(axis, t)
    ensures Combine(AxisDims(axis, shapes + [t])) == AddDims(Combine(AxisDims(axis, shapes)), AxisDim(axis, t))
  {
    var all := shapes + [t];
    assert forall i :: 0 <= i < |shapes| ==> all[i] == shapes[i];
    assert AxisDims(axis, all) == AxisDims(axis, shapes) + [AxisDim(axis, t)];
    CombineAppend(AxisDims(axis, shapes), [AxisDim(axis, t)]);
    CombineSingleton(AxisDim(axis, t));
  }

  /**
   * Concatenating one more input to a list is concatenating it to the list's
   * concatenation: both succeed together, with the same output.
   */
  lemma ConcatenateRegroups(axis: Axis, shapes: seq<Shape>, t: Shape)
    requires |shapes| > 0
    ensures var whole, head := Concatenate(axis, shapes + [t]), Concatenate(axis, shapes);
      && (whole.Ok? <==> head.Ok? && Concatenate(axis, [head.value, t]).Ok?)
      && (whole.Ok? ==> head.Ok? && whole == Concatenate(axis, [head.value, t]))
  {
    var all := shapes + [t];
    ConcatenateSucceedsIff(axis, all);
    ConcatenateSucceedsIff(axis, shapes);
    AgreeOffAxisAppend(axis, shapes, t);
    var head := Concatenate(axis, shapes);
    if head.Ok? {
      var h := head.value;
      var p := AxisPos(axis, |shapes[0]|);
      ConcatenateOutput(axis, shapes);
      var pair := [h, t];
      ConcatenateSucceedsIff(axis, pair);
      AgreeOffAxisPair(axis, h, t);
      assert SameOffAxis(axis, t, h) <==> SameOffAxis(axis, t, shapes[0]);
      if Concatenate(axis, pair).Ok? {
        RegroupedOutput(axis, shapes, t);
      }
    }
  }

  /** Replacing the axis entry twice keeps only the second replacement. */
  lemma SpliceTwice(axis: Axis, s: Shape, z: Dim, y: Dim)
    requires HasAxis(axis, s)
    ensures HasAxis(axis, Splice(axis, s, z))
    ensures Splice(axis, Splice(axis, s, z), y) == Splice(axis, s, y)
  {
    var h := Splice(axis, s, z);
    var p := AxisPos(axis, |s|);
    SpliceAt(axis, s, z);
    assert AxisPos(axis, |h|) == p;
    SpliceAt(axis, h, y);
    SpliceAt(axis, s, y);
    var a, b := Splice(axis, h, y), Splice(axis, s, y);
    assert |a| == |b|;
    forall j | 0 <= j < |a| ensures a[j] == b[j] {
      if j != p {
        assert a[j] == h[j] == s[j] == b[j];
      }
    }
    assert a == b;
  }

  /** The outputs of the two ways of concatenating agree, when both succeed. */
  lemma RegroupedOutput(axis: Axis, shapes: seq<Shape>, t: Shape)
    requires Concatenate(axis, shapes).Ok?
    requires Concatenate(axis, [Concatenate(axis, shapes).value, t]).Ok?
    requires Concatenate(axis, shapes + [t]).Ok?
    ensures Concatenate(axis, shapes + [t]) == Concatenate(axis, [Concatenate(axis, shapes).value, t])
  {
    var all := shapes + [t];
    var h := Concatenate(axis, shapes).value;
    var pair := [h, t];
    ConcatenateValue(axis, shapes);
    ConcatenateValue(axis, all);
    ConcatenateValue(axis, pair);
    assert all[0] == shapes[0] && pair[0] == h && pair[1] == t;
    var z, dt := Combine(AxisDims(axis, shapes)), AxisDim(axis, t);
    var y := AddDims(z, dt);
    CombineAxisDimsAppend(axis, shapes, t);
    SpliceAt(axis, shapes[0], z);
    AxisDimsPair(axis, h, t);
    CombinePair(z, dt);
    SpliceTwice(axis, shapes[0], z, y);
    assert Concatenate(axis, all) == Ok(Splice(axis, shapes[0], y));
    assert Concatenate(axis, pair) == Ok(Splice(axis, h, y));
  }

  /** The axis dimensions of two inputs. */
  lemma AxisDimsPair(axis: Axis, h: Shape, t: Shape)
    requires HasAxis(axis, h) && HasAxis(axis, t)
    ensures AxisDims(axis, [h, t]) == [AxisDim(axis, h), AxisDim(axis, t)]
  {
    var d := AxisDims(axis, [h, t]);
    assert d[0] == AxisDim(axis, h) && d[1] == AxisDim(axis, t);
  }

  /** A successful concatenation is the first input with its axis entry replaced. */
  lemma ConcatenateValue(axis: Axis, shapes: seq<Shape>)
    requires Concatenate(axis, shapes).Ok?
    ensures |shapes| > 0 && forall i :: 0 <= i < |shapes| ==> HasAxis(axis, shapes[i])
    ensures Concatenate(axis, shapes).value == Splice(axis, shapes[0], Combine(AxisDims(axis, shapes)))
  {
  }

  /**
   * ConcatenateLayer's inference on a list of shapes succeeds exactly when the
   * shapes agree off the axis, and returns or fails as their concatenation does.
   */
  lemma ConcatenateLayerOnShapes(axis: Axis, inputShape: Signature, shapes: seq<Shape>)
    ensures var r := InferOutputShape(ConcatenateLayer(axis, inputShape), ListOf(shapes));
      && (r.Ok? <==> AgreeOffAxis(axis, shapes))
      && (r.Ok? ==> Concatenate(axis, shapes).Ok? && r.value == Dims(Concatenate(axis, shapes).value))
      && (r.Err? ==> Concatenate(axis, shapes).Err? && r.error == Concatenate(axis, shapes).error)
  {
    ShapesOfListOf(shapes);
    ConcatenateSucceedsIff(axis, shapes);
  }

  /** ConcatenateLayer refuses a signature that is not a list of shape descriptors. */
  lemma ConcatenateLayerNeedsList(axis: Axis, inputShape: Signature, sig: Signature)
    requires !IsListOfShapes(sig)
    ensures InferOutputShape(ConcatenateLayer(axis, inputShape), sig) == Err(ShapeError)
  {
  }

  // ---------------------------------------------------------------------------
  // Addition
  // ---------------------------------------------------------------------------

  /**
   * AddLayer's shape inference succeeds exactly on a list of `numInputs` shape
   * descriptors, at least one, each compatible with the first; the output is the
   * first, and every input is compatible with the output.
   */
  lemma AddInferSpec(numInputs: int, sig: Signature)
    ensures AddInfer(numInputs, sig).Ok? <==>
      && IsListOfShapes(sig)
      && |sig.items| == numInputs > 0
      && forall i :: 0 <= i < |sig.items| ==> Compatible(sig.items[i].dims, sig.items[0].dims)
    ensures AddInfer(numInputs, sig).Ok? ==>
      && AddInfer(numInputs, sig).value == sig.items[0]
      && forall i :: 0 <= i < |sig.items| ==>
           Compatible(AddInfer(numInputs, sig).value.dims, sig.items[i].dims)
    ensures !IsListOfShapes(sig) ==> AddInfer(numInputs, sig) == Err(ShapeError)
  {
  }

  /** When every input is fully known, a successful addition has all inputs equal. */
  lemma AddKnownInputsAreEqual(numInputs: int, sig: Signature)
    requires AddInfer(numInputs, sig).Ok?
    requires forall i :: 0 <= i < |sig.items| ==> sig.items[i].Dims? && FullyKnown(sig.items[i].dims)
    ensures forall i :: 0 <= i < |sig.items| ==> sig.items[i] == AddInfer(numInputs, sig).value
  {
    forall i | 0 <= i < |sig.items| ensures sig.items[i] == sig.items[0] {
      CompatibleKnownIsEqual(sig.items[i].dims, sig.items[0].dims);
    }
  }

  /**
   * Inputs are compared with the first only: with an unknown first dimension,
   * inputs of sizes 5 and 6 along it are both accepted.
   */
  lemma AddComparesWithFirstOnly()
    ensures AddInfer(3, ListOf([[None], [Some(5)], [Some(6)]])) == Ok(Dims([None]))
  {
    var sig := ListOf([[None], [Some(5)], [Some(6)]]);
    assert sig.items == [Dims([None]), Dims([Some(5)]), Dims([Some(6)])];
  }

  // ---------------------------------------------------------------------------
  // Identity and function layers
  // ---------------------------------------------------------------------------

  /** IdentityLayer leaves shapes and values unchanged. */
  lemma IdentityLaws<T>(inputShape: Signature, sig: Signature, x: T)
    ensures InferOutputShape(NewIdentityLayer(inputShape), sig) == Ok(sig)
    ensures IdentityFeedforward(x) == x
  {
  }

  // ---------------------------------------------------------------------------
  // Worked examples
  // ---------------------------------------------------------------------------

  /** Along axis 1, `[2, 3, 4]` and `[2, 5, 4]` concatenate to `[2, 8, 4]`. */
  lemma ConcatenateKnownExample()
    ensures Concatenate(Index(1), [[Some(2), Some(3), Some(4)], [Some(2), Some(5), Some(4)]])
            == Ok([Some(2), Some(8), Some(4)])
  {
    var a: Shape, b: Shape := [Some(2), Some(3), Some(4)], [Some(2), Some(5), Some(4)];
    ConcatenateSucceedsIff(Index(1), [a, b]);
    assert AxisDims(Index(1), [a, b]) == [Some(3), Some(5)];
    CombinePair(Some(3), Some(5));
    SpliceAt(Index(1), a, Some(8));
    var out := Concatenate(Index(1), [a, b]).value;
    assert out == [Some(2), Some(8), Some(4)];
  }

  /** An unknown dimension at the axis makes the output unknown there. */
  lemma ConcatenateUnknownExample()
    ensures Concatenate(Index(1), [[Some(2), None, Some(4)], [Some(2), Some(5), Some(4)]])
            == Ok([Some(2), None, Some(4)])
  {
    var u: Shape, b: Shape := [Some(2), None, Some(4)], [Some(2), Some(5), Some(4)];
    ConcatenateSucceedsIff(Index(1), [u, b]);
    assert AxisDims(Index(1), [u, b]) == [None, Some(5)];
    CombinePair(None, Some(5));
    SpliceAt(Index(1), u, None);
    var out := Concatenate(Index(1), [u, b]).value;
    assert out == [Some(2), None, Some(4)];
  }

  /** Along axis 1, `[2, 3]` and `[3, 3]` differ off the axis: a shape error. */
  lemma ConcatenateMismatchExample()
    ensures Concatenate(Index(1), [[Some(2), Some(3)], [Some(3), Some(3)]]) == Err(ShapeError)
  {
    var c: Shape, d: Shape := [Some(2), Some(3)], [Some(3), Some(3)];
    ConcatenateRejectsMismatch(Index(1), [c, d], 1, 0);
  }

  lemma AddExamples(inputShape: Signature)
    ensures AddInfer(3, ListOf([[Some(4), Some(4)], [None, Some(4)], [Some(4), Some(4)]]))
            == Ok(Dims([Some(4), Some(4)]))
    ensures AddInfer(3, ListOf([[Some(4), Some(4)], [None, Some(4)], [Some(5), Some(4)]]))
            == Err(ShapeError)
    ensures NewAddLayer(1, inputShape) == Err(ConfigurationError)
  {
    var ok := ListOf([[Some(4), Some(4)], [None, Some(4)], [Some(4), Some(4)]]);
    assert ok.items == [Dims([Some(4), Some(4)]), Dims([None, Some(4)]), Dims([Some(4), Some(4)])];
    var bad := ListOf([[Some(4), Some(4)], [None, Some(4)], [Some(5), Some(4)]]);
    assert bad.items == [Dims([Some(4), Some(4)]), Dims([None, Some(4)]), Dims([Some(5), Some(4)])];
    assert !DimsMatch(bad.items[2].dims[0], bad.items[0].dims[0]);
  }
}
