/** `splice_signatures(*sigs)`: one signature made by flattening any number
    of signatures by one level. */
module Splicing {
  import opened ShapeDtypes
  import opened Signatures

  /** What one argument contributes to the splice: a tuple its items, a
      `ShapeDtype` itself. */
  function Parts(s: Sig): seq<Sig> {
    match s
    case One(_) => [s]
    case Many(sigs) => sigs
  }

  /** The number of entries one argument contributes. */
  function Count(s: Sig): nat {
    if s.One? then 1 else |s.sigs|
  }

  /** The number of entries a sequence of arguments contributes. */
  function Total(sigs: seq<Sig>): nat {
    if |sigs| == 0 then 0 else Total(sigs[..|sigs| - 1]) + Count(sigs[|sigs| - 1])
  }

  /** The flattened list of entries of `sigs`, argument by argument. */
  function Spliced(sigs: seq<Sig>): seq<Sig> {
    if |sigs| == 0 then [] else Spliced(sigs[..|sigs| - 1]) + Parts(sigs[|sigs| - 1])
  }

  /** A list of one entry stands for that entry; any other list for the
      tuple of its entries. */
  function Collapse(entries: seq<Sig>): Sig {
    if |entries| == 1 then entries[0] else Many(entries)
  }

  /** The signature `splice_signatures(*sigs)` returns. */
  function Splice(sigs: seq<Sig>): Sig {
    Collapse(Spliced(sigs))
  }

  /** A signature as the splice's arguments are documented: a `ShapeDtype`,
      or a tuple of `ShapeDtype`s. */
  predicate Flat(s: Sig) {
    s.One? || forall i :: 0 <= i < |s.sigs| ==> s.sigs[i].One?
  }

  /** The loop of `splice_signatures`: each tuple argument extends the
      result by its items, each other argument is appended. */
  method SpliceSignatures(sigs: seq<Sig>) returns (r: Sig)
    ensures r == Splice(sigs)
    ensures Leaves(r) == LeavesAll(sigs)
  {
    var resultSigs: seq<Sig> := [];
    for k := 0 to |sigs|
      invariant resultSigs == Spliced(sigs[..k])
    {
      var sig := sigs[k];
      assert sigs[..k + 1][..k] == sigs[..k];
      if sig.Many? {
        resultSigs := resultSigs + sig.sigs;
      } else {
        resultSigs := resultSigs + [sig];
      }
    }
    assert sigs[..|sigs|] == sigs;
    r := if |resultSigs| == 1 then resultSigs[0] else Many(resultSigs);
    SpliceKeepsLeaves(sigs);
  }

  /** Splicing the concatenation of two argument lists splices each. */
  lemma {:induction false} SplicedAppend(a: seq<Sig>, b: seq<Sig>)
    ensures Spliced(a + b) == Spliced(a) + Spliced(b)
    ensures Total(a + b) == Total(a) + Total(b)
    decreases |b|
  {
    if |b| == 0 {
      assert a + b == a;
    } else {
      var last := b[|b| - 1];
      assert (a + b)[..|a + b| - 1] == a + b[..|b| - 1];
      assert (a + b)[|a + b| - 1] == last;
      SplicedAppend(a, b[..|b| - 1]);
    }
  }

  /** The flattened list has one entry per contributed entry. */
  lemma {:induction false} SplicedLength(sigs: seq<Sig>)
    ensures |Spliced(sigs)| == Total(sigs)
    decreases |sigs|
  {
    if |sigs| != 0 {
      SplicedLength(sigs[..|sigs| - 1]);
    }
  }

  /** Order: the entries contributed by argument `i` sit, in their own order,
      right after those of the arguments before it. */
  lemma {:induction false} SplicedPosition(sigs: seq<Sig>, i: nat)
    requires i < |sigs|
    ensures Total(sigs[..i]) + Count(sigs[i]) <= |Spliced(sigs)|
    ensures Spliced(sigs)[Total(sigs[..i]) .. Total(sigs[..i]) + Count(sigs[i])] == Parts(sigs[i])
  {
    var before, arg, after := sigs[..i], [sigs[i]], sigs[i + 1..];
    assert sigs == before + arg + after;
    SplicedAppend(before + arg, after);
    SplicedAppend(before, arg);
    SplicedLength(before);
    assert arg[..0] == [];
    assert Spliced(arg) == Parts(sigs[i]);
  }

  /** Splicing loses and reorders no `ShapeDtype`: the leaves of the result
      are the leaves of the arguments, left to right. */
  lemma {:induction false} SpliceKeepsLeaves(sigs: seq<Sig>)
    ensures Leaves(Splice(sigs)) == LeavesAll(sigs)
  {
    SplicedKeepsLeaves(sigs);
    var entries := Spliced(sigs);
    if |entries| == 1 {
      assert entries[1..] == [];
      assert LeavesAll(entries) == Leaves(entries[0]) + [];
    }
  }

  /** `SpliceKeepsLeaves` before the one-entry collapse. */
  lemma {:induction false} SplicedKeepsLeaves(sigs: seq<Sig>)
    ensures LeavesAll(Spliced(sigs)) == LeavesAll(sigs)
    decreases |sigs|
  {
    if |sigs| != 0 {
      var init, last := sigs[..|sigs| - 1], sigs[|sigs| - 1];
      assert sigs == init + [last];
      SplicedKeepsLeaves(init);
      LeavesAllAppend(Spliced(init), Parts(last));
      LeavesAllAppend(init, [last]);
      assert [last][1..] == [];
    }
  }

  /** The leaves of a concatenation are the leaves of each part. */
  lemma {:induction false} LeavesAllAppend(a: seq<Sig>, b: seq<Sig>)
    ensures LeavesAll(a + b) == LeavesAll(a) + LeavesAll(b)
    decreases |a|
  {
    if |a| == 0 {
      assert a + b == b;
    } else {
      assert (a + b)[0] == a[0];
      assert (a + b)[1..] == a[1..] + b;
      LeavesAllAppend(a[1..], b);
    }
  }

  /** For arguments of the documented form the result is of that form too. */
  lemma {:induction false} SpliceFlat(sigs: seq<Sig>)
    requires forall i :: 0 <= i < |sigs| ==> Flat(sigs[i])
    ensures Flat(Splice(sigs))
  {
    SplicedEntriesAreOne(sigs);
  }

  /** When no argument contributes an entry (no arguments, or only empty
      tuples) the result is the empty tuple. */
  lemma {:induction false} SpliceEmpty(sigs: seq<Sig>)
    ensures Total(sigs) == 0 ==> Splice(sigs) == Many([])
  {
    SplicedLength(sigs);
  }

  /** For arguments of the documented form the result is a bare
      `ShapeDtype` exactly when one entry is contributed in all. */
  lemma {:induction false} SpliceIsBareIff(sigs: seq<Sig>)
    requires forall i :: 0 <= i < |sigs| ==> Flat(sigs[i])
    ensures Splice(sigs).One? <==> Total(sigs) == 1
  {
    SplicedLength(sigs);
    SplicedEntriesAreOne(sigs);
  }

  /** Every entry contributed by arguments of the documented form is a
      `ShapeDtype`. */
  lemma {:induction false} SplicedEntriesAreOne(sigs: seq<Sig>)
    requires forall i :: 0 <= i < |sigs| ==> Flat(sigs[i])
    ensures forall k :: 0 <= k < |Spliced(sigs)| ==> Spliced(sigs)[k].One?
    decreases |sigs|
  {
    if |sigs| != 0 {
      SplicedEntriesAreOne(sigs[..|sigs| - 1]);
    }
  }

  /** Splicing one argument returns it, except that a one-item tuple
      collapses to its item. */
  lemma {:induction false} SpliceSingle(s: Sig)
    ensures s.One? ==> Splice([s]) == s
    ensures s.Many? && |s.sigs| != 1 ==> Splice([s]) == s
    ensures s.Many? && |s.sigs| == 1 ==> Splice([s]) == s.sigs[0]
  {
    assert [s][..0] == [];
    assert Spliced([s]) == [] + Parts(s);
    assert [] + Parts(s) == Parts(s);
  }

  /** The documented example: `sd1, (sd2, sd3, sd4), (), sd5` splices to
      `(sd1, sd2, sd3, sd4, sd5)`. */
  lemma {:induction false} SpliceExample(sd1: ShapeDtype, sd2: ShapeDtype, sd3: ShapeDtype, sd4: ShapeDtype, sd5: ShapeDtype)
    ensures Splice([One(sd1), Many([One(sd2), One(sd3), One(sd4)]), Many([]), One(sd5)])
            == Many([One(sd1), One(sd2), One(sd3), One(sd4), One(sd5)])
  {
    var args := [One(sd1), Many([One(sd2), One(sd3), One(sd4)]), Many([]), One(sd5)];
    assert args[..1][..0] == [];
    assert Spliced(args[..1]) == [One(sd1)];
    assert args[..2][..1] == args[..1];
    assert Spliced(args[..2]) == [One(sd1), One(sd2), One(sd3), One(sd4)];
    assert args[..3][..2] == args[..2];
    assert Spliced(args[..3]) == [One(sd1), One(sd2), One(sd3), One(sd4)];
    assert args[..4][..3] == args[..3] && args[..4] == args;
    assert Spliced(args) == [One(sd1), One(sd2), One(sd3), One(sd4), One(sd5)];
  }
}
