# Shape/dtype signatures of trax, in Dafny

This project models the module `trax/shapes.py` of the trax deep-learning
library. The module describes data abstractly, by shape and element type
rather than by value. Layers use it to describe their inputs before any
weights exist. The module has three parts:

- `ShapeDtype`: a shape (a tuple of dimension sizes, each an `int` or
  `None`) paired with a NumPy dtype. The constructor turns a list shape into
  a tuple and rejects anything else with `TypeError`. It also replaces a
  TensorFlow dtype with its NumPy counterpart. The class has `==`, `!=` and
  `as_tuple`, and the module has the helper `assert_shape_equals`.
- `signature(obj)`: the signature of an object that has `shape` and `dtype`
  attributes, or of a list or tuple of such objects, nested to any depth.
  A signature is a `ShapeDtype` or a tuple of signatures. A sequence with
  exactly one item collapses to that item's signature.
- `splice_signatures(*sigs)`: flattens any number of signatures by one level
  into one signature, with the same one-entry collapse.

Files:

- `wrappers.dfy` (module `Wrappers`): `Option`, `Result` and `Outcome`.
  A Python exception is modelled as a `Failure` or `Fail` value.
- `shape_dtype.dfy` (module `ShapeDtypes`): the argument types the
  constructor accepts (`ShapeArg`, `DtypeArg`), `ShapeDtype`, the signature
  type `Sig = One(ShapeDtype) | Many(seq<Sig>)`, the exceptions, the
  constructor, equality, `as_tuple` and `assert_shape_equals`.
- `signature.dfy` (module `Signatures`): input trees
  `Obj = Array(shape, dtype) | Group(kind, items)`, `Signature` and its
  properties. `Leaves` reads off a signature's `ShapeDtype`s from left to
  right. `Attributes` reads off the `(shape, dtype)` pairs of an input's leaf
  objects in the same order.
- `splice.dfy` (module `Splicing`): the loop of `splice_signatures` as a
  method, a recursive reference definition `Splice`, and the lemmas about
  counts, order and collapse.

## Model

| member | source | states |
|---|---|---|
| ShapeDtypes.NewShapeDtype | trax/shapes.py:30-51 | The constructor succeeds exactly when the shape is a list or a tuple. Otherwise it fails with `TypeError` carrying that shape. The stored shape has the same entries, in the same order, as the one passed. A TensorFlow dtype is stored as its NumPy counterpart, and a NumPy dtype is stored unchanged. |
| ShapeDtypes.ListAndTupleAgree | trax/shapes.py:43-46 | A list shape and a tuple shape with the same entries construct the same `ShapeDtype`, and construction from a tuple always succeeds. |
| ShapeDtypes.Eq | trax/shapes.py:53-56 | `sd == other` holds exactly when `other` is a `ShapeDtype` whose shape and dtype both equal those of `sd`. This is the same as structural equality of the record, and a tuple is never equal to a `ShapeDtype`. |
| ShapeDtypes.Ne | trax/shapes.py:58-59 | `!=` is exactly the negation of `==`, for every pair of values. |
| ShapeDtypes.SameIsEquivalence | trax/shapes.py:53-56 | Equality between `ShapeDtype`s is reflexive, symmetric and transitive. |
| ShapeDtypes.AsTuple | trax/shapes.py:64-65 | `as_tuple` returns components that rebuild exactly the stored value. |
| ShapeDtypes.AsTupleRoundTrip | trax/shapes.py:30-65 | Constructing from the components that `as_tuple` returns succeeds, and gives a `ShapeDtype` equal to the original. |
| ShapeDtypes.NewThenAsTuple | trax/shapes.py:30-65 | After construction from a list or tuple, `as_tuple` returns the entries of the shape that was passed, in order, together with the NumPy form of the dtype. |
| ShapeDtypes.AssertShapeEquals | trax/shapes.py:117-121 | The assertion passes exactly when the array's shape equals the expected shape under Python equality of lists, tuples and plain values, where a list never equals a tuple. If it fails, it raises an `AssertionError` naming both shapes. An object without a `shape` raises `AttributeError`. |
| ShapeDtypes.ListNeverMatchesTupleShape | trax/shapes.py:117-121 | An array's tuple shape never matches an expected shape given as a list, even when the entries agree. Against a tuple it matches exactly when the entries are equal. |
| Signatures.Signature | trax/shapes.py:68-89 | A leaf object becomes the `ShapeDtype` of its shape and dtype, or raises that shape's `TypeError`. A one-item list or tuple has the same result as its item. Any other list or tuple succeeds exactly when every item does. It then gives a tuple of the same length whose i-th entry is the i-th item's signature. Every result has the normal form described for `SignatureOfSignature`. |
| Signatures.SignatureAll | trax/shapes.py:85-87 | The items' signatures are computed in order. The result succeeds exactly when every item succeeds. Otherwise it carries the error of the first failing item, and every item before that one succeeded. |
| Signatures.SignatureKeepsLeaves | trax/shapes.py:68-89 | `signature` loses, duplicates and reorders no leaf. Its `ShapeDtype`s, left to right, are exactly those built from the leaf objects' attributes. When a leaf is rejected, the error is that of the leftmost rejected leaf. |
| Signatures.SignatureSucceedsIff | trax/shapes.py:85-89 | `signature` succeeds exactly when every leaf object's shape is a list or a tuple. It then holds one `ShapeDtype` per leaf object. |
| Signatures.SignatureOfSignature | trax/shapes.py:71-75 | A signature in normal form is unchanged when taken as input to `signature`. Normal form means a `ShapeDtype`, or a tuple of other than one entry whose entries are in normal form. Inputs may be permissive, but outputs are strict. |
| Signatures.SignatureIdempotent | trax/shapes.py:68-89 | Applying `signature` to its own successful result returns the same result. |
| Signatures.ListAndTupleSameSignature | trax/shapes.py:85-87 | A list and a tuple of the same items have the same signature. |
| Splicing.SpliceSignatures | trax/shapes.py:92-114 | The loop, which extends the result by each tuple argument's items and appends every other argument, computes the reference splice `Splice`. The result's `ShapeDtype`s are exactly the arguments' `ShapeDtype`s, in order. |
| Splicing.SplicedAppend | trax/shapes.py:108-113 | Splicing two argument lists one after the other is the same as splicing their concatenation. The entry counts add up. |
| Splicing.SplicedLength | trax/shapes.py:108-113 | The flattened list's length is the sum of the per-argument counts: 1 for a `ShapeDtype`, and the length for a tuple. |
| Splicing.SplicedPosition | trax/shapes.py:95-113 | Argument i's entries appear in the flattened list in their own order. They start right after the entries of all arguments before i, and `()` contributes nothing. |
| Splicing.SpliceKeepsLeaves | trax/shapes.py:92-114 | Splicing, including the one-entry collapse, keeps every `ShapeDtype` of its arguments, in order. |
| Splicing.SpliceFlat | trax/shapes.py:100-114 | Take arguments that are each a `ShapeDtype` or a tuple of `ShapeDtype`s. The result has the same form. |
| Splicing.SpliceEmpty | trax/shapes.py:108-114 | When the counts sum to 0, as with no arguments or only empty tuples, the result is the empty tuple. |
| Splicing.SpliceIsBareIff | trax/shapes.py:104-114 | For arguments of that documented form, the result is a bare `ShapeDtype` exactly when the counts sum to 1, and a tuple otherwise. |
| Splicing.SpliceSingle | trax/shapes.py:109-114 | Splicing a single argument returns it unchanged when it is a `ShapeDtype` or a tuple of other than one entry. A one-entry tuple collapses to its entry. |
| Splicing.SpliceExample | trax/shapes.py:95-98 | The documented example holds: `sd1, (sd2, sd3, sd4), (), sd5` splices to `(sd1, sd2, sd3, sd4, sd5)`. |

## Left out

- `__repr__` (trax/shapes.py:61-62) is cosmetic and depends on how Python and NumPy print tuples and dtypes, so it is not modelled.
- The TensorFlow-to-NumPy dtype conversion is a foreign call. A TensorFlow dtype is modelled as a value that carries its NumPy counterpart, which stands for its `as_numpy_dtype` attribute. Dtypes are compared only by name.
- Duck typing: `signature` accepts any object with `shape` and `dtype` attributes. Inputs are modelled as an explicit tree of such leaves and of lists and tuples. Objects that lack the attributes are not modelled for `signature`.
- A shape that is neither a list nor a tuple can be any Python value. It is represented by an integer (`Scalar`), as in `ShapeDtype(5)`.
- The entries of a shape tuple are not checked by the constructor. The model restricts them to `int` or `None` (`Option<int>`), as the constructor's documentation states.
- `__eq__` uses `isinstance(other, self.__class__)`, so a subclass can be involved. There is one `ShapeDtype` type here, and the other operand of `==` and `!=` is a signature (a `ShapeDtype` or a tuple). Comparison with arbitrary other Python objects, which is always `False`, is not modelled.
- ShapeDtypes.AssertShapeEquals: Python's `assert` statement is skipped under `python -O`. The model always performs the check. It represents the array by its `shape` attribute, or by its absence. Shapes that are neither lists nor tuples are compared as plain values (`Scalar`). Objects with their own equality are not modelled. One example is TensorFlow's `TensorShape`, which equals a tuple or list of the same sizes. Another is a NumPy array given as the expected shape, which Python compares elementwise.
- `splice_signatures` accepts lists as well as tuples. Both are modelled by the tuple constructor `Many`, because the function treats them the same way.
