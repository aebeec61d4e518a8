/** Execution on data that reaches itself: a type that is its own `ofType`. */
module CyclicData {
  import opened IntrospectionTables
  import opened Execution
  import opened NullPropagation
  import opened WellTyped

  const CYCLIC_WORLD := World((path: Path, o: ObjType, n: FieldName, id: nat) =>
      Resolution(false, Got(if n.OfType? then Ref(0) else NilValue)), false)

  /** The selection that asks for `ofType` k times, one inside the other. */
  function OfTypes(k: nat): seq<Sel> {
    if k == 0 then [] else [Sel(OfType, Missing, OfTypes(k - 1))]
  }

  function Nest(k: nat): (out: Out)
    ensures out.Object?
  {
    if k == 0 then Object(TypeObject, []) else Object(TypeObject, [Nest(k - 1)])
  }

  lemma CyclicSlot(path: Path, subs: seq<Sel>, out: Out)
    requires ObjectRun(CYCLIC_WORLD, path + [0], TypeObject, subs, 0) == Done(out, multiset{})
    ensures SlotRun(CYCLIC_WORLD, path, TypeObject, [Sel(OfType, Missing, subs)], 0, 0) == Done(out, multiset{})
  {
    var sel := Sel(OfType, Missing, subs);
    assert Switch(TypeObject, OfType) == Optional && MarshallerOf(TypeObject, OfType) == OPtr(TypeObject);
    assert Resolve(CYCLIC_WORLD, path + [0], TypeObject, OfType, 0) == Resolution(false, Got(Ref(0)));
    assert Complete(CYCLIC_WORLD, path + [0], OPtr(TypeObject), subs, Ref(0), false) == Done(out, multiset{});
    assert FieldRun(CYCLIC_WORLD, path + [0], TypeObject, sel, 0) == Done(out, multiset{});
  }

  lemma {:induction false} CycleResult(path: Path, k: nat)
    ensures ObjectRun(CYCLIC_WORLD, path, TypeObject, OfTypes(k), 0) == Done(Nest(k), multiset{})
    decreases k
  {
    var runs := ObjectAt(CYCLIC_WORLD, path, TypeObject, OfTypes(k), 0);
    if k == 0 {
      assert runs == [];
    } else {
      CycleResult(path + [0], k - 1);
      CyclicSlot(path, OfTypes(k - 1), Nest(k - 1));
      assert runs == [Done(Nest(k - 1), multiset{})];
      SingleSlot(TypeObject, OfTypes(k)[0], Nest(k - 1), multiset{});
    }
  }

  lemma {:induction false} NestHeight(k: nat)
    ensures Height(Nest(k)) == k + 1
  {
    if k > 0 {
      NestHeight(k - 1);
      assert Heights([Nest(k - 1)]) == Max(Height(Nest(k - 1)), Heights([Nest(k - 1)][1..]));
    }
  }

  lemma {:induction false} OfTypesNesting(k: nat)
    ensures Nesting(OfTypes(k)) == k
  {
    if k > 0 {
      OfTypesNesting(k - 1);
      assert OfTypes(k)[1..] == [];
    }
  }

  /** Execution unrolls the cycle exactly as often as the selection asks. */
  lemma CycleUnrolledBySelection(path: Path, k: nat)
    ensures var r := ObjectRun(CYCLIC_WORLD, path, TypeObject, OfTypes(k), 0);
            r.Done? && r.out != Null && Height(r.out) == k + 1 && r.errs == multiset{}
    ensures Nesting(OfTypes(k)) == k
  {
    OfTypesNesting(k);
    CycleResult(path, k);
    NestHeight(k);
  }
}
