/** `signature(obj)`: the `ShapeDtype` signature of an object, or of a
    (possibly nested) list or tuple of objects. */
module Signatures {
  import opened Wrappers
  import opened ShapeDtypes

  /** The two Python sequence types `signature` descends into. */
  datatype SeqKind = PyList | PyTuple

  /** An input to `signature`: an object with `shape` and `dtype`
      attributes, or a list or tuple of inputs. */
  datatype Obj = Array(shape: ShapeArg, dtype: DtypeArg) | Group(kind: SeqKind, items: seq<Obj>)

  /** The signature of `o`. A leaf object becomes the `ShapeDtype` built from
      its attributes; a list or tuple becomes the tuple of its items'
      signatures, except that a one-item sequence collapses to its item's
      signature. The first item whose shape is rejected raises. */
  function Signature(o: Obj): (r: Result<Sig, Error>)
    ensures r.Success? ==> Normal(r.value)
    ensures o.Array? ==> r.Success? == o.shape.IsSequence()
    ensures o.Array? && r.Success? ==> r.value == One(ShapeDtype(o.shape.dims, o.dtype.AsNumpy()))
    ensures o.Array? && r.Failure? ==> r.error == TypeError(o.shape)
    ensures o.Group? && |o.items| == 1 ==> r == Signature(o.items[0])
    ensures o.Group? && |o.items| != 1 && r.Success? ==>
              && r.value.Many?
              && |r.value.sigs| == |o.items|
              && forall i :: 0 <= i < |o.items| ==> Signature(o.items[i]) == Success(r.value.sigs[i])
    ensures o.Group? ==> (r.Success? <==> forall i :: 0 <= i < |o.items| ==> Signature(o.items[i]).Success?)
    decreases o, 1
  {
    match o
    case Array(shape, dtype) =>
      var sd :- NewShapeDtype(shape, dtype);
      Success(One(sd))
    case Group(_, items) =>
      var output :- SignatureAll(items);
      Success(if |output| == 1 then output[0] else Many(output))
  }

  /** The signatures of `items`, in order; the first failing item's error
      otherwise. */
  function SignatureAll(items: seq<Obj>): (r: Result<seq<Sig>, Error>)
    ensures r.Success? ==> |r.value| == |items|
    ensures r.Success? ==> forall i :: 0 <= i < |items| ==> Signature(items[i]) == Success(r.value[i])
    ensures r.Success? ==> forall i :: 0 <= i < |items| ==> Normal(r.value[i])
    ensures r.Success? <==> forall i :: 0 <= i < |items| ==> Signature(items[i]).Success?
    ensures r.Failure? ==> exists j :: 0 <= j < |items| && Signature(items[j]) == Failure(r.error)
                                                   && forall i :: 0 <= i < j ==> Signature(items[i]).Success?
    decreases items, 0
  {
    if |items| == 0 then
      Success([])
    else
      var first :- Signature(items[0]);
      var rest :- SignatureAll(items[1..]);
      Success([first] + rest)
  }

  /** The shape of `signature`'s results: a `ShapeDtype`, or a tuple of
      other than one signature each of this shape. */
  predicate Normal(s: Sig)
    decreases s
  {
    match s
    case One(_) => true
    case Many(sigs) => |sigs| != 1 && forall i :: 0 <= i < |sigs| ==> Normal(sigs[i])
  }

  /** The `ShapeDtype`s of a signature, left to right. */
  function Leaves(s: Sig): seq<ShapeDtype>
    decreases s, 1
  {
    match s
    case One(sd) => [sd]
    case Many(sigs) => LeavesAll(sigs)
  }

  /** The `ShapeDtype`s of a sequence of signatures, left to right. */
  function LeavesAll(ss: seq<Sig>): seq<ShapeDtype>
    decreases ss, 0
  {
    if |ss| == 0 then [] else Leaves(ss[0]) + LeavesAll(ss[1..])
  }

  /** The `(shape, dtype)` attributes of the leaf objects of an input, left
      to right. */
  function Attributes(o: Obj): seq<(ShapeArg, DtypeArg)>
    decreases o, 1
  {
    match o
    case Array(shape, dtype) => [(shape, dtype)]
    case Group(_, items) => AttributesAll(items)
  }

  /** The leaf attributes of a sequence of inputs, left to right. */
  function AttributesAll(items: seq<Obj>): seq<(ShapeArg, DtypeArg)>
    decreases items, 0
  {
    if |items| == 0 then [] else Attributes(items[0]) + AttributesAll(items[1..])
  }

  /** Builds one `ShapeDtype` from each attribute pair, in order; the first
      rejected shape raises. */
  function NewAll(attrs: seq<(ShapeArg, DtypeArg)>): (r: Result<seq<ShapeDtype>, Error>)
    ensures r.Success? <==> forall i :: 0 <= i < |attrs| ==> attrs[i].0.IsSequence()
    ensures r.Success? ==> |r.value| == |attrs|
    ensures r.Success? ==> forall i :: 0 <= i < |attrs| ==> NewShapeDtype(attrs[i].0, attrs[i].1) == Success(r.value[i])
  {
    if |attrs| == 0 then
      Success([])
    else
      var first :- NewShapeDtype(attrs[0].0, attrs[0].1);
      var rest :- NewAll(attrs[1..]);
      Success([first] + rest)
  }

  /** Concatenation of two leaf lists, keeping the first error. */
  function Join(a: Result<seq<ShapeDtype>, Error>, b: Result<seq<ShapeDtype>, Error>): Result<seq<ShapeDtype>, Error> {
    match a
    case Failure(e) => Failure(e)
    case Success(x) =>
      match b
      case Failure(e) => Failure(e)
      case Success(y) => Success(x + y)
  }

  /** The leaves of a signature result, or its error. */
  function LeavesOf(r: Result<Sig, Error>): Result<seq<ShapeDtype>, Error> {
    match r
    case Success(s) => Success(Leaves(s))
    case Failure(e) => Failure(e)
  }

  /** The leaves of a sequence-of-signatures result, or its error. */
  function LeavesAllOf(r: Result<seq<Sig>, Error>): Result<seq<ShapeDtype>, Error> {
    match r
    case Success(ss) => Success(LeavesAll(ss))
    case Failure(e) => Failure(e)
  }

  /** Building leaves from a concatenation builds them from each part. */
  lemma {:induction false} NewAllAppend(a: seq<(ShapeArg, DtypeArg)>, b: seq<(ShapeArg, DtypeArg)>)
    ensures NewAll(a + b) == Join(NewAll(a), NewAll(b))
    decreases |a|
  {
    if |a| == 0 {
      assert a + b == b;
      match NewAll(b)
      case Success(y) => assert [] + y == y;
      case Failure(_) =>
    } else {
      assert (a + b)[0] == a[0];
      assert (a + b)[1..] == a[1..] + b;
      NewAllAppend(a[1..], b);
      match NewShapeDtype(a[0].0, a[0].1)
      case Failure(_) =>
      case Success(first) =>
        match NewAll(a[1..])
        case Failure(_) =>
        case Success(x) =>
          match NewAll(b)
          case Failure(_) =>
          case Success(y) => assert [first] + (x + y) == ([first] + x) + y;
    }
  }

  /** `signature` keeps every leaf object, in order: the signature's
      `ShapeDtype`s are exactly those built from the leaf objects' shape and
      dtype attributes, left to right, and when one of those is rejected
      `signature` raises the error of the leftmost one. */
  lemma {:induction false} SignatureKeepsLeaves(o: Obj)
    ensures LeavesOf(Signature(o)) == NewAll(Attributes(o))
    decreases o, 1
  {
    match o
    case Array(shape, dtype) =>
      assert Attributes(o)[1..] == [];
      match NewShapeDtype(shape, dtype) {
        case Failure(_) =>
        case Success(sd) => assert [sd] + [] == [sd];
      }
    case Group(_, items) =>
      SignatureAllKeepsLeaves(items);
      match SignatureAll(items)
      case Failure(_) =>
      case Success(output) =>
        if |output| == 1 {
          assert output[1..] == [];
          assert LeavesAll(output) == Leaves(output[0]);
          assert Signature(o) == Success(output[0]);
        }
  }

  /** `SignatureKeepsLeaves` for a sequence of inputs. */
  lemma {:induction false} SignatureAllKeepsLeaves(items: seq<Obj>)
    ensures LeavesAllOf(SignatureAll(items)) == NewAll(AttributesAll(items))
    decreases items, 0
  {
    if |items| != 0 {
      SignatureKeepsLeaves(items[0]);
      SignatureAllKeepsLeaves(items[1..]);
      NewAllAppend(Attributes(items[0]), AttributesAll(items[1..]));
      match SignatureAll(items)
      case Failure(_) =>
      case Success(ss) =>
        assert ss[1..] == SignatureAll(items[1..]).value;
    }
  }

  /** `signature` succeeds exactly when every leaf object's shape is a list
      or a tuple, and then has one `ShapeDtype` per leaf object. */
  lemma SignatureSucceedsIff(o: Obj)
    ensures Signature(o).Success? <==> forall i :: 0 <= i < |Attributes(o)| ==> Attributes(o)[i].0.IsSequence()
    ensures Signature(o).Success? ==> |Leaves(Signature(o).value)| == |Attributes(o)|
  {
    SignatureKeepsLeaves(o);
  }

  /** A `ShapeDtype` seen as an input: it has `shape` and `dtype`
      attributes. A tuple of signatures is a tuple of inputs. */
  function ToObj(s: Sig): (o: Obj)
    decreases s, 1
  {
    match s
    case One(sd) => Array(TupleArg(sd.shape), NumpyDtype(sd.dtype))
    case Many(sigs) => Group(PyTuple, ToObjAll(sigs))
  }

  /** `ToObj` of each signature, in order. */
  function ToObjAll(ss: seq<Sig>): (r: seq<Obj>)
    ensures |r| == |ss|
    ensures forall i :: 0 <= i < |ss| ==> r[i] == ToObj(ss[i])
    decreases ss, 0
  {
    if |ss| == 0 then [] else [ToObj(ss[0])] + ToObjAll(ss[1..])
  }

  /** The signature of a signature of `signature`'s shape is itself. */
  lemma {:induction false} SignatureOfSignature(s: Sig)
    requires Normal(s)
    ensures Signature(ToObj(s)) == Success(s)
    decreases s
  {
    match s
    case One(sd) =>
    case Many(sigs) =>
      forall i | 0 <= i < |sigs|
        ensures Signature(ToObjAll(sigs)[i]) == Success(sigs[i])
      {
        SignatureOfSignature(sigs[i]);
      }
      var all := SignatureAll(ToObjAll(sigs));
      assert all.Success?;
      assert all.value == sigs;
  }

  /** `signature` is idempotent: applying it to its own result changes
      nothing. */
  lemma SignatureIdempotent(o: Obj)
    requires Signature(o).Success?
    ensures Signature(ToObj(Signature(o).value)) == Signature(o)
  {
    SignatureOfSignature(Signature(o).value);
  }

  /** Lists and tuples are treated alike. */
  lemma ListAndTupleSameSignature(items: seq<Obj>)
    ensures Signature(Group(PyList, items)) == Signature(Group(PyTuple, items))
  {
  }
}
