/** The `ShapeDtype` value of trax: an array abstracted to its shape and its
    element type, with the constructor's canonicalisation, equality and the
    shape assertion helper. */
module ShapeDtypes {
  import opened Wrappers

  /** One entry of a shape: a dimension size, or `None` for an unknown size. */
  type Dim = Option<int>

  /** A NumPy dtype, identified by its name (`float32`, `int32`, ...). */
  datatype Dtype = Dtype(name: string)

  /** The default element type of a `ShapeDtype`. */
  const Float32: Dtype := Dtype("float32")

  /** A dtype as a caller may pass it: a NumPy dtype, or a TensorFlow dtype,
      which knows its NumPy counterpart (its `as_numpy_dtype` attribute). */
  datatype DtypeArg = NumpyDtype(dtype: Dtype) | TfDtype(asNumpyDtype: Dtype) {

    /** The NumPy dtype this argument stands for. */
    function AsNumpy(): Dtype {
      match this
      case NumpyDtype(d) => d
      case TfDtype(d) => d
    }
  }

  /** A shape as a caller may pass it: a Python list, a Python tuple, or any
      other value (represented here by an integer, as in `ShapeDtype(5)`). */
  datatype ShapeArg = ListArg(dims: seq<Dim>) | TupleArg(dims: seq<Dim>) | Scalar(v: int) {

    /** True of the values the constructor accepts as a shape. */
    predicate IsSequence() {
      ListArg? || TupleArg?
    }
  }

  /** The exceptions the helpers raise. */
  datatype Error =
    | TypeError(got: ShapeArg)                               // shape neither list nor tuple
    | AttributeError                                         // object without a `shape`
    | AssertionError(actual: ShapeArg, expected: ShapeArg)   // shape assertion failed

  /** A constructed `ShapeDtype`: its shape is always a tuple and its dtype
      always a NumPy dtype, which the field types record. */
  datatype ShapeDtype = ShapeDtype(shape: seq<Dim>, dtype: Dtype)

  /** A signature: a single `ShapeDtype`, or a tuple of signatures. */
  datatype Sig = One(sd: ShapeDtype) | Many(sigs: seq<Sig>)

  /** `ShapeDtype(shape, dtype)`: a list shape becomes the tuple with the
      same entries, a tuple is kept, anything else raises `TypeError`; a
      TensorFlow dtype becomes its NumPy dtype. */
  function NewShapeDtype(shape: ShapeArg, dtype: DtypeArg := NumpyDtype(Float32)): (r: Result<ShapeDtype, Error>)
    ensures r.Success? <==> (shape.ListArg? || shape.TupleArg?)
    ensures r.Failure? ==> r.error == TypeError(shape)
    ensures r.Success? ==> |r.value.shape| == |shape.dims|
    ensures r.Success? ==> forall i :: 0 <= i < |shape.dims| ==> r.value.shape[i] == shape.dims[i]
    ensures r.Success? && dtype.NumpyDtype? ==> r.value.dtype == dtype.dtype
    ensures r.Success? && dtype.TfDtype? ==> r.value.dtype == dtype.asNumpyDtype
  {
    var canonical := match shape
      case ListArg(dims) => TupleArg(dims)
      case _ => shape;
    if !canonical.TupleArg? then
      Failure(TypeError(shape))
    else
      Success(ShapeDtype(canonical.dims, dtype.AsNumpy()))
  }

  /** A list shape and a tuple shape with the same entries build the same
      value. */
  lemma ListAndTupleAgree(dims: seq<Dim>, dtype: DtypeArg)
    ensures NewShapeDtype(ListArg(dims), dtype) == NewShapeDtype(TupleArg(dims), dtype)
    ensures NewShapeDtype(TupleArg(dims), dtype).Success?
  {
  }

  /** `sd == other`: true exactly when `other` is a `ShapeDtype` with the
      same shape and the same dtype; a tuple is never equal to it. */
  function Eq(sd: ShapeDtype, other: Sig): (r: bool)
    ensures r <==> other.One? && other.sd.shape == sd.shape && other.sd.dtype == sd.dtype
    ensures r <==> other == One(sd)
  {
    match other
    case One(o) => o.shape == sd.shape && o.dtype == sd.dtype
    case Many(_) => false
  }

  /** `sd != other`: exactly the negation of `==`. */
  function Ne(sd: ShapeDtype, other: Sig): (r: bool)
    ensures r <==> !Eq(sd, other)
    ensures r <==> other != One(sd)
  {
    !Eq(sd, other)
  }

  /** `==` restricted to pairs of `ShapeDtype`s. */
  predicate Same(a: ShapeDtype, b: ShapeDtype) {
    Eq(a, One(b))
  }

  /** Equality of `ShapeDtype`s is an equivalence: reflexive, symmetric and
      transitive. */
  lemma SameIsEquivalence(a: ShapeDtype, b: ShapeDtype, c: ShapeDtype)
    ensures Same(a, a)
    ensures Same(a, b) <==> Same(b, a)
    ensures Same(a, b) && Same(b, c) ==> Same(a, c)
  {
  }

  /** `as_tuple`: the stored pair `(shape, dtype)`. */
  function AsTuple(sd: ShapeDtype): (r: (seq<Dim>, Dtype))
    ensures ShapeDtype(r.0, r.1) == sd
  {
    (sd.shape, sd.dtype)
  }

  /** Rebuilding a `ShapeDtype` from `as_tuple`'s components gives an equal
      value. */
  lemma AsTupleRoundTrip(sd: ShapeDtype)
    ensures NewShapeDtype(TupleArg(AsTuple(sd).0), NumpyDtype(AsTuple(sd).1)) == Success(sd)
    ensures Eq(sd, One(NewShapeDtype(TupleArg(AsTuple(sd).0), NumpyDtype(AsTuple(sd).1)).value))
  {
  }

  /** Constructing and then projecting returns the entries of the shape that
      was passed, in order, and the NumPy form of the dtype. */
  lemma NewThenAsTuple(shape: ShapeArg, dtype: DtypeArg)
    requires shape.IsSequence()
    ensures AsTuple(NewShapeDtype(shape, dtype).value) == (shape.dims, dtype.AsNumpy())
  {
  }

  /** `assert_shape_equals(array, shape)`: passes when the array's shape is
      equal to `shape` under Python equality of lists, tuples and plain
      values, where a list never equals a tuple; an object without a shape
      raises `AttributeError`. Shape objects with an equality of their own
      (a TensorFlow `TensorShape`, a NumPy array) are not represented. */
  function AssertShapeEquals(arrayShape: Option<ShapeArg>, shape: ShapeArg): (r: Outcome<Error>)
    ensures arrayShape.None? ==> r == Fail(AttributeError)
    ensures arrayShape.Some? ==> (r.Pass? <==> arrayShape.value == shape)
    ensures r.Fail? && arrayShape.Some? ==> r.error == AssertionError(arrayShape.value, shape)
  {
    match arrayShape
    case None => Fail(AttributeError)
    case Some(actual) =>
      if actual == shape then Pass else Fail(AssertionError(actual, shape))
  }

  /** An array's shape is a tuple, so asserting it against a list shape
      fails even when the entries agree. */
  lemma ListNeverMatchesTupleShape(dims: seq<Dim>, expected: seq<Dim>)
    ensures AssertShapeEquals(Some(TupleArg(dims)), ListArg(expected)).Fail?
    ensures AssertShapeEquals(Some(TupleArg(dims)), TupleArg(expected)).Pass? <==> dims == expected
  {
  }
}
