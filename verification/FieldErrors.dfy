/** The errors that accompany Nulls: none is silent, a position has a second one only where a
    resolver both records an error and fails, and a failure is confined to the slot it is under. */
module FieldErrors {
  import opened Options
  import opened IntrospectionTables
  import opened Execution
  import opened NullPropagation

  // ----- where errors lie -----

  ghost predicate AtOrBelow(path: Path, errs: multiset<Path>) {
    forall q :: q in errs ==> path <= q
  }

  /** Each run recorded its errors at or below its own slot. */
  ghost predicate InSlots(path: Path, runs: seq<Run>) {
    forall i :: 0 <= i < |runs| ==> runs[i].Done? && AtOrBelow(path + [i], runs[i].errs)
  }

  /** The path goes through slot i of the position. */
  predicate Through(path: Path, i: nat, q: Path) {
    |path| < |q| && path <= q && q[|path|] == i
  }

  lemma SlotPrefix(path: Path, i: nat, q: Path)
    requires path + [i] <= q
    ensures path < q && q[|path|] == i
  {
    assert path == (path + [i])[..|path|] == q[..|path|];
    assert q[|path|] == (path + [i])[|path|];
  }

  /** An error of the whole is an error of the one slot its path goes through. */
  lemma {:induction false} GatherErrors(path: Path, runs: seq<Run>, q: Path)
    requires InSlots(path, runs)
    ensures Gather(runs).Slots?
    ensures Gather(runs).errs[q] ==
            if |path| < |q| && path <= q && q[|path|] < |runs| then runs[q[|path|]].errs[q] else 0
    decreases |runs|
  {
    if |runs| > 0 {
      var k := |runs| - 1;
      var rest := runs[..k];
      assert forall i :: 0 <= i < |rest| ==> rest[i] == runs[i];
      GatherErrors(path, rest, q);
      if runs[k].errs[q] > 0 {
        assert path + [k] <= q;
        assert q[|path|] == (path + [k])[|path|] == k;
        assert path == q[..|path|];
      }
    }
  }

  lemma GatherBelow(path: Path, runs: seq<Run>)
    requires InSlots(path, runs)
    ensures Gather(runs).Slots?
    ensures forall q :: q in Gather(runs).errs ==> path < q
  {
    GatherErrors(path, runs, path);
    forall q | q in Gather(runs).errs ensures path < q {
      GatherErrors(path, runs, q);
    }
  }

  /** Errors are recorded at the position being marshalled or below it. */
  lemma {:induction false} FieldErrorsBelow(w: World, path: Path, o: ObjType, sel: Sel, id: nat)
    requires FieldRun(w, path, o, sel, id).Done?
    ensures AtOrBelow(path, FieldRun(w, path, o, sel, id).errs)
    decreases sel, 1
  {
    var r := Resolve(w, path, o, sel.name, id);
    if ProcessArgs(o, sel.name, sel.raw).Some? && r.result.Got? && Fits(MarshallerOf(o, sel.name), r.result.value) {
      CompleteErrorsBelow(w, path, MarshallerOf(o, sel.name), sel.subs, r.result.value, r.reported);
    }
  }

  lemma {:induction false} CompleteErrorsBelow(w: World, path: Path, m: Marshaller, subs: seq<Sel>, v: Value,
                                               noted: bool)
    requires Fits(m, v) && Complete(w, path, m, subs, v, noted).Done?
    ensures AtOrBelow(path, Complete(w, path, m, subs, v, noted).errs)
    ensures noted ==> Complete(w, path, m, subs, v, noted).errs[path] == 0
    ensures Complete(w, path, m, subs, v, noted).errs[path] <= 1
    decreases subs, 4
  {
    match m
    case NPtr(o) => if !v.NilValue? { ObjectErrorsBelow(w, path, o, subs, v.id); }
    case OPtr(o) => if !v.NilValue? { ObjectErrorsBelow(w, path, o, subs, v.id); }
    case NList(elem) => ListErrorsBelow(w, path, elem, subs, v);
    case OList(elem) => if !v.NilValue? { ListErrorsBelow(w, path, elem, subs, v); }
    case _ =>
  }

  lemma {:induction false} ObjectErrorsBelow(w: World, path: Path, o: ObjType, sels: seq<Sel>, id: nat)
    requires ObjectRun(w, path, o, sels, id).Done?
    ensures forall q :: q in ObjectRun(w, path, o, sels, id).errs ==> path < q
    decreases sels, 1
  {
    var runs := ObjectAt(w, path, o, sels, id);
    ObjectOf(o, sels, runs);
    ObjectInSlots(w, path, o, sels, id, runs);
    GatherBelow(path, runs);
  }

  lemma {:induction false} ObjectInSlots(w: World, path: Path, o: ObjType, sels: seq<Sel>, id: nat, runs: seq<Run>)
    requires |runs| == |sels| && forall i :: 0 <= i < |sels| ==> runs[i] == SlotRun(w, path, o, sels, id, i)
    requires forall i :: 0 <= i < |runs| ==> runs[i].Done?
    ensures InSlots(path, runs)
    decreases sels, 0
  {
    forall i | 0 <= i < |runs| ensures AtOrBelow(path + [i], runs[i].errs) {
      if HasMethod(o, sels[i].name) {
        FieldErrorsBelow(w, path + [i], o, sels[i], id);
      }
    }
  }

  lemma {:induction false} ListErrorsBelow(w: World, path: Path, elem: Elem, subs: seq<Sel>, v: Value)
    requires Fits(NList(elem), v) && ListRun(w, path, elem, subs, v).Done?
    ensures forall q :: q in ListRun(w, path, elem, subs, v).errs ==> path < q
    decreases subs, 3
  {
    var runs := ListAt(w, path, elem, subs, v);
    ArrayOf(runs);
    ListInSlots(w, path, elem, subs, v, runs);
    GatherBelow(path, runs);
  }

  lemma {:induction false} ListInSlots(w: World, path: Path, elem: Elem, subs: seq<Sel>, v: Value, runs: seq<Run>)
    requires Fits(NList(elem), v) && |runs| == Count(v)
    requires forall i :: 0 <= i < |runs| ==> runs[i].Done? && runs[i] == ElemRun(w, path, elem, subs, v, i)
    ensures InSlots(path, runs)
    decreases subs, 2
  {
    forall i | 0 <= i < |runs| ensures AtOrBelow(path + [i], runs[i].errs) {
      if elem.ObjectElem? {
        assert runs[i] == ObjectRun(w, path + [i], elem.o, subs, v.ids[i]);
        ObjectErrorsBelow(w, path + [i], elem.o, subs, v.ids[i]);
      }
    }
  }

  lemma ElemErrorsBelow(w: World, path: Path, elem: Elem, subs: seq<Sel>, v: Value, i: nat)
    requires Fits(NList(elem), v) && i < Count(v) && ElemRun(w, path, elem, subs, v, i).Done?
    ensures AtOrBelow(path + [i], ElemRun(w, path, elem, subs, v, i).errs)
  {
    if elem.ObjectElem? {
      ObjectErrorsBelow(w, path + [i], elem.o, subs, v.ids[i]);
    }
  }

  // ----- no silent nulls -----

  lemma {:induction false} GatherContains(runs: seq<Run>, i: nat)
    requires Gather(runs).Slots? && i < |runs|
    ensures runs[i].Done? && runs[i].errs <= Gather(runs).errs
    decreases |runs|
  {
    if i < |runs| - 1 {
      GatherContains(runs[..|runs| - 1], i);
    }
  }

  /** An object that collapsed to Null has an error on record below it. */
  lemma {:induction false} ObjectNullHasError(w: World, path: Path, o: ObjType, sels: seq<Sel>, id: nat)
    requires ObjectRun(w, path, o, sels, id).Done? && ObjectRun(w, path, o, sels, id).out == Null
    ensures ObjectRun(w, path, o, sels, id).errs != multiset{}
    decreases sels, 1
  {
    var runs := ObjectAt(w, path, o, sels, id);
    GatherAt(runs);
    var i := InvalidSlot(o, sels, runs);
    SlotIsField(w, path, o, sels, id, i);
    FieldNullHasError(w, path + [i], o, sels[i], id);
    GatherContains(runs, i);
    NonEmptyStays(runs[i].errs, Gather(runs).errs);
  }

  lemma NonEmptyStays(a: multiset<Path>, b: multiset<Path>)
    requires a != multiset{} && a <= b
    ensures b != multiset{}
  {
    var q :| q in a;
    assert q in b;
  }

  lemma {:induction false} FieldNullHasError(w: World, path: Path, o: ObjType, sel: Sel, id: nat)
    requires NonNullField(o, sel.name)
    requires FieldRun(w, path, o, sel, id).Done? && FieldRun(w, path, o, sel, id).out == Null
    ensures FieldRun(w, path, o, sel, id).errs != multiset{}
    decreases sel, 1
  {
    TablesAgree(o, sel.name);
    var m, r := MarshallerOf(o, sel.name), Resolve(w, path, o, sel.name, id);
    var errs := FieldRun(w, path, o, sel, id).errs;
    if ProcessArgs(o, sel.name, sel.raw).Some? && r.result.Got? && Fits(m, r.result.value) {
      CompleteNullHasError(w, path, m, sel.subs, r.result.value, r.reported);
      NonEmptyStays(One(path, r.reported) + Complete(w, path, m, sel.subs, r.result.value, r.reported).errs, errs);
    } else {
      assert path in errs;
    }
  }

  lemma {:induction false} CompleteNullHasError(w: World, path: Path, m: Marshaller, subs: seq<Sel>, v: Value,
                                                noted: bool)
    requires Fits(m, v) && TypeOfMarshaller(m).NonNull?
    requires Complete(w, path, m, subs, v, noted).Done? && Complete(w, path, m, subs, v, noted).out == Null
    ensures One(path, noted) + Complete(w, path, m, subs, v, noted).errs != multiset{}
    decreases subs, 3
  {
    var errs := Complete(w, path, m, subs, v, noted).errs;
    match m
    case NLeaf => assert path in One(path, noted) + errs;
    case NPtr(o) =>
      if v.NilValue? {
        assert path in One(path, noted) + errs;
      } else {
        ObjectNullHasError(w, path, o, subs, v.id);
        NonEmptyStays(errs, One(path, noted) + errs);
      }
    case NList(elem) =>
      ListNullHasError(w, path, elem, subs, v);
      NonEmptyStays(errs, One(path, noted) + errs);
  }

  lemma {:induction false} ListNullHasError(w: World, path: Path, elem: Elem, subs: seq<Sel>, v: Value)
    requires Fits(NList(elem), v)
    requires ListRun(w, path, elem, subs, v).Done? && ListRun(w, path, elem, subs, v).out == Null
    ensures ListRun(w, path, elem, subs, v).errs != multiset{}
    decreases subs, 2
  {
    var runs := ListAt(w, path, elem, subs, v);
    ArrayOf(runs);
    GatherAt(runs);
    var i :| 0 <= i < |runs| && runs[i].out == Null;
    match elem {
      case LeafElem => assert path + [i] in runs[i].errs;
      case ObjectElem(o) => ObjectNullHasError(w, path + [i], o, subs, v.ids[i]);
    }
    GatherContains(runs, i);
    NonEmptyStays(runs[i].errs, Gather(runs).errs);
  }

  /** No silent nulls: when Null comes out of a non-null position, an error is recorded at that
      position or below it. The guard leaves one out only where one is already present. */
  lemma NoSilentNull(w: World, path: Path, o: ObjType, sel: Sel, id: nat)
    requires NonNullField(o, sel.name)
    requires FieldRun(w, path, o, sel, id).Done? && FieldRun(w, path, o, sel, id).out == Null
    ensures exists q :: q in FieldRun(w, path, o, sel, id).errs && path <= q
  {
    FieldNullHasError(w, path, o, sel, id);
    FieldErrorsBelow(w, path, o, sel, id);
    var q :| q in FieldRun(w, path, o, sel, id).errs;
  }

  // ----- exactly which errors a response has -----

  /** Along the route execution reaches a position with a field error of its own: an argument that
      cannot be coerced, a disabled root field, an error that the resolver recorded, a failed or
      unfit answer, or a value that is null by itself where the type is non-null. */
  ghost predicate FieldErrorAt(w: World, path: Path, o: ObjType, sel: Sel, id: nat, route: Path)
    decreases |route|, 2
  {
    EngineType(o, sel.name).Some? &&
    if Uncoercible(o, sel.name, sel.raw) || Closed(w, o) then route == [] else
    var r := w.resolve(path, o, sel.name, id);
    (route == [] && r.reported) ||
    match r.result
    case Failed => route == []
    case Absent => route == [] && EngineType(o, sel.name).value.NonNull?
    case Got(v) =>
      if Admits(o, sel.name, v) then ValueErrorAt(w, path, EngineType(o, sel.name).value, sel.subs, v, route)
      else route == []
  }

  ghost predicate ValueErrorAt(w: World, path: Path, t: TypeRef, subs: seq<Sel>, v: Value, route: Path)
    decreases |route|, 1, t
  {
    match t
    case NonNull(of) => (route == [] && NullByItself(of, v)) || ValueErrorAt(w, path, of, subs, v, route)
    case Leaf => false
    case Named(o) => v.Ref? && ObjectErrorAt(w, path, o, subs, v.id, route)
    case ListOf(elem) =>
      && |route| > 0 && route[0] < Count(v)
      && ValueErrorAt(w, path + [route[0]], elem, subs, Item(v, route[0]), route[1..])
  }

  /** A nil slice is not null in the code. */
  predicate NullByItself(t: TypeRef, v: Value) {
    match t
    case Leaf => v.NilValue? || (v.LeafValue? && v.text.None?)
    case Named(_) => v.NilValue?
    case _ => false
  }

  ghost predicate ObjectErrorAt(w: World, path: Path, o: ObjType, sels: seq<Sel>, id: nat, route: Path)
    decreases |route|, 0
  {
    && |route| > 0 && route[0] < |sels|
    && FieldErrorAt(w, path + [route[0]], o, sels[route[0]], id, route[1..])
  }

  /** A resolver that records an error of its own does not fail as well. */
  predicate DisciplinedAt(o: ObjType, n: FieldName, r: Resolution) {
    r.reported && EngineType(o, n).Some? ==> r.result.Absent? || (r.result.Got? && Admits(o, n, r.result.value))
  }

  /** Along the route execution reaches a field whose resolver does both. */
  ghost predicate UndisciplinedField(w: World, path: Path, o: ObjType, sel: Sel, id: nat, route: Path)
    decreases |route|, 2
  {
    && EngineType(o, sel.name).Some? && !Uncoercible(o, sel.name, sel.raw) && !Closed(w, o)
    && var r := w.resolve(path, o, sel.name, id);
       if route == [] then !DisciplinedAt(o, sel.name, r)
       else r.result.Got? && Admits(o, sel.name, r.result.value)
            && UndisciplinedValue(w, path, EngineType(o, sel.name).value, sel.subs, r.result.value, route)
  }

  ghost predicate UndisciplinedValue(w: World, path: Path, t: TypeRef, subs: seq<Sel>, v: Value, route: Path)
    decreases |route|, 1, t
  {
    match t
    case NonNull(of) => UndisciplinedValue(w, path, of, subs, v, route)
    case Leaf => false
    case Named(o) => v.Ref? && UndisciplinedObject(w, path, o, subs, v.id, route)
    case ListOf(elem) =>
      && |route| > 0 && route[0] < Count(v)
      && UndisciplinedValue(w, path + [route[0]], elem, subs, Item(v, route[0]), route[1..])
  }

  ghost predicate UndisciplinedObject(w: World, path: Path, o: ObjType, sels: seq<Sel>, id: nat, route: Path)
    decreases |route|, 0
  {
    && |route| > 0 && route[0] < |sels|
    && UndisciplinedField(w, path + [route[0]], o, sels[route[0]], id, route[1..])
  }

  /** Execution reaches such a field. */
  ghost predicate ReachesUndisciplined(w: World, path: Path, o: ObjType, sels: seq<Sel>, id: nat) {
    exists route :: UndisciplinedObject(w, path, o, sels, id, route)
  }

  function Bit(b: bool): nat {
    if b then 1 else 0
  }

  lemma {:induction false} FieldErrorCount(w: World, path: Path, o: ObjType, sel: Sel, id: nat, route: Path)
    requires EngineType(o, sel.name).Some? && FieldRun(w, path, o, sel, id).Done?
    ensures FieldRun(w, path, o, sel, id).errs[path + route]
         == Bit(FieldErrorAt(w, path, o, sel, id, route)) + Bit(UndisciplinedField(w, path, o, sel, id, route))
    decreases sel, 1
  {
    TablesAgree(o, sel.name);
    ArgumentsAgree(o, sel.name, sel.raw);
    var t, m, r := EngineType(o, sel.name).value, MarshallerOf(o, sel.name), Resolve(w, path, o, sel.name, id);
    assert path + route == path <==> route == [];
    if !Uncoercible(o, sel.name, sel.raw) {
      FieldIsDelivered(w, path, o, sel, id);
      if r.result.Got? {
        AdmitsIsFits(o, sel.name, r.result.value);
        if Fits(m, r.result.value) {
          CompleteErrorCount(w, path, m, sel.subs, r.result.value, r.reported, route);
          NoneUndisciplinedHere(w, path, t, sel.subs, r.result.value);
        }
      }
    }
  }

  /** A value's own position is not a field's. */
  lemma {:induction false} NoneUndisciplinedHere(w: World, path: Path, t: TypeRef, subs: seq<Sel>, v: Value)
    ensures !UndisciplinedValue(w, path, t, subs, v, [])
    decreases t
  {
    if t.NonNull? {
      NoneUndisciplinedHere(w, path, t.of, subs, v);
    }
  }

  lemma {:induction false} CompleteErrorCount(w: World, path: Path, m: Marshaller, subs: seq<Sel>, v: Value,
                                              noted: bool, route: Path)
    requires Fits(m, v) && Complete(w, path, m, subs, v, noted).Done?
    ensures Complete(w, path, m, subs, v, noted).errs[path + route]
         == Bit(ValueErrorAt(w, path, TypeOfMarshaller(m), subs, v, route) && !(noted && route == []))
            + Bit(UndisciplinedValue(w, path, TypeOfMarshaller(m), subs, v, route))
    decreases subs, 5
  {
    assert path + route == path <==> route == [];
    match m
    case NLeaf =>
      assert !ValueErrorAt(w, path, Leaf, subs, v, route) && !UndisciplinedValue(w, path, Leaf, subs, v, route);
    case OLeaf =>
    case OLeafPtr =>
    case NPtr(o) =>
      NamedErrors(w, path, o, subs, v, route);
      if !v.NilValue? { ObjectErrorCount(w, path, o, subs, v.id, route); }
    case OPtr(o) =>
      NamedErrors(w, path, o, subs, v, route);
      if !v.NilValue? { ObjectErrorCount(w, path, o, subs, v.id, route); }
    case NList(elem) =>
      ListErrorCount(w, path, elem, subs, v, route);
      NonNullListErrors(w, path, elem, subs, v, route);
    case OList(elem) => ListErrorCount(w, path, elem, subs, v, route);
  }

  lemma {:induction false} NamedErrors(w: World, path: Path, o: ObjType, subs: seq<Sel>, v: Value, route: Path)
    ensures ValueErrorAt(w, path, Named(o), subs, v, route) <==> v.Ref? && ObjectErrorAt(w, path, o, subs, v.id, route)
    ensures UndisciplinedValue(w, path, Named(o), subs, v, route)
       <==> v.Ref? && UndisciplinedObject(w, path, o, subs, v.id, route)
  {}

  lemma {:induction false} NonNullListErrors(w: World, path: Path, elem: Elem, subs: seq<Sel>, v: Value, route: Path)
    ensures var t := ListOf(ElemType(elem));
            && (ValueErrorAt(w, path, NonNull(t), subs, v, route) <==> ValueErrorAt(w, path, t, subs, v, route))
            && (ValueErrorAt(w, path, t, subs, v, route) ==> route != [])
  {}

  /** The errors on a route from the whole are those on its rest from one slot. */
  lemma GatherAlong(path: Path, runs: seq<Run>, route: Path)
    requires InSlots(path, runs) && route != []
    ensures Gather(runs).Slots?
    ensures Gather(runs).errs[path + route] ==
            if route[0] < |runs| then runs[route[0]].errs[path + [route[0]] + route[1..]] else 0
  {
    RouteHead(path, route);
    GatherErrors(path, runs, path + route);
  }

  lemma RouteHead(path: Path, route: Path)
    requires route != []
    ensures path < path + route && (path + route)[|path|] == route[0]
    ensures path + [route[0]] + route[1..] == path + route
  {}

  lemma ObjectAlong(w: World, path: Path, o: ObjType, sels: seq<Sel>, id: nat, route: Path)
    requires ObjectRun(w, path, o, sels, id).Done? && route != []
    ensures route[0] < |sels| ==> SlotRun(w, path, o, sels, id, route[0]).Done?
    ensures ObjectRun(w, path, o, sels, id).errs[path + route] ==
            if route[0] < |sels| then SlotRun(w, path, o, sels, id, route[0]).errs[path + [route[0]] + route[1..]]
            else 0
  {
    var runs := ObjectAt(w, path, o, sels, id);
    ObjectOf(o, sels, runs);
    ObjectInSlots(w, path, o, sels, id, runs);
    GatherAlong(path, runs, route);
    if route[0] < |sels| {
      assert runs[route[0]].Done?;
    }
  }

  lemma {:induction false} ObjectErrorCount(w: World, path: Path, o: ObjType, sels: seq<Sel>, id: nat, route: Path)
    requires ObjectRun(w, path, o, sels, id).Done?
    ensures ObjectRun(w, path, o, sels, id).errs[path + route]
         == Bit(ObjectErrorAt(w, path, o, sels, id, route)) + Bit(UndisciplinedObject(w, path, o, sels, id, route))
    decreases sels, 1
  {
    if route == [] {
      assert path + route == path;
      ObjectErrorsBelow(w, path, o, sels, id);
    } else {
      ObjectAlong(w, path, o, sels, id, route);
      if route[0] < |sels| {
        SlotErrorCount(w, path, o, sels, id, route[0], route[1..]);
      }
    }
  }

  lemma {:induction false} SlotErrorCount(w: World, path: Path, o: ObjType, sels: seq<Sel>, id: nat, i: nat,
                                          rest: Path)
    requires i < |sels| && SlotRun(w, path, o, sels, id, i).Done?
    ensures SlotRun(w, path, o, sels, id, i).errs[path + [i] + rest]
         == Bit(FieldErrorAt(w, path + [i], o, sels[i], id, rest))
            + Bit(UndisciplinedField(w, path + [i], o, sels[i], id, rest))
    decreases sels, 0
  {
    TablesAgree(o, sels[i].name);
    if HasMethod(o, sels[i].name) {
      FieldErrorCount(w, path + [i], o, sels[i], id, rest);
    }
  }

  lemma ListAlong(w: World, path: Path, elem: Elem, subs: seq<Sel>, v: Value, route: Path)
    requires Fits(NList(elem), v) && ListRun(w, path, elem, subs, v).Done? && route != []
    ensures route[0] < Count(v) ==> ElemRun(w, path, elem, subs, v, route[0]).Done?
    ensures ListRun(w, path, elem, subs, v).errs[path + route] ==
            if route[0] < Count(v) then ElemRun(w, path, elem, subs, v, route[0]).errs[path + [route[0]] + route[1..]]
            else 0
  {
    var runs := ListAt(w, path, elem, subs, v);
    ArrayOf(runs);
    ListInSlots(w, path, elem, subs, v, runs);
    GatherAlong(path, runs, route);
    if route[0] < Count(v) {
      assert runs[route[0]].Done?;
    }
  }

  lemma {:induction false} ListErrorCount(w: World, path: Path, elem: Elem, subs: seq<Sel>, v: Value, route: Path)
    requires Fits(NList(elem), v) && ListRun(w, path, elem, subs, v).Done?
    ensures ListRun(w, path, elem, subs, v).errs[path + route]
         == Bit(ValueErrorAt(w, path, ListOf(ElemType(elem)), subs, v, route))
            + Bit(UndisciplinedValue(w, path, ListOf(ElemType(elem)), subs, v, route))
    decreases subs, 4
  {
    if route == [] {
      assert path + route == path;
      ListErrorsBelow(w, path, elem, subs, v);
    } else {
      ListAlong(w, path, elem, subs, v, route);
      if route[0] < Count(v) {
        ElemErrorCount(w, path, elem, subs, v, route[0], route[1..]);
      }
    }
  }

  lemma {:induction false} ElemErrorCount(w: World, path: Path, elem: Elem, subs: seq<Sel>, v: Value, i: nat,
                                          rest: Path)
    requires Fits(NList(elem), v) && i < Count(v) && ElemRun(w, path, elem, subs, v, i).Done?
    ensures ElemRun(w, path, elem, subs, v, i).errs[path + [i] + rest]
         == Bit(ValueErrorAt(w, path + [i], ElemType(elem), subs, Item(v, i), rest))
            + Bit(UndisciplinedValue(w, path + [i], ElemType(elem), subs, Item(v, i), rest))
    decreases subs, 3
  {
    assert path + [i] + rest == path + [i] <==> rest == [];
    match elem
    case LeafElem =>
      assert !ValueErrorAt(w, path + [i], Leaf, subs, Item(v, i), rest);
      assert !UndisciplinedValue(w, path + [i], Leaf, subs, Item(v, i), rest);
    case ObjectElem(o) =>
      NamedErrors(w, path + [i], o, subs, Item(v, i), rest);
      ObjectErrorCount(w, path + [i], o, subs, v.ids[i], rest);
  }

  /** The errors of a response, exactly: nothing outside it, and along every route one if the route
      reaches a field error and a second one if it reaches an undisciplined resolver. */
  lemma ErrorsExact(w: World, path: Path, o: ObjType, sels: seq<Sel>, id: nat)
    requires ObjectRun(w, path, o, sels, id).Done?
    ensures forall q :: q in ObjectRun(w, path, o, sels, id).errs ==> path < q
    ensures forall route :: ObjectRun(w, path, o, sels, id).errs[path + route]
              == Bit(ObjectErrorAt(w, path, o, sels, id, route)) + Bit(UndisciplinedObject(w, path, o, sels, id, route))
    ensures forall route :: UndisciplinedObject(w, path, o, sels, id, route) ==>
              ObjectErrorAt(w, path, o, sels, id, route)
  {
    ObjectErrorsBelow(w, path, o, sels, id);
    forall route: Path
      ensures ObjectRun(w, path, o, sels, id).errs[path + route]
           == Bit(ObjectErrorAt(w, path, o, sels, id, route)) + Bit(UndisciplinedObject(w, path, o, sels, id, route))
    {
      ObjectErrorCount(w, path, o, sels, id, route);
    }
    forall route | UndisciplinedObject(w, path, o, sels, id, route)
      ensures ObjectErrorAt(w, path, o, sels, id, route)
    {
      UndisciplinedIsError(w, path, o, sels, id, route);
    }
  }

  /** What an undisciplined resolver recorded is an error too. */
  lemma {:induction false} UndisciplinedIsError(w: World, path: Path, o: ObjType, sels: seq<Sel>, id: nat, route: Path)
    requires UndisciplinedObject(w, path, o, sels, id, route)
    ensures ObjectErrorAt(w, path, o, sels, id, route)
    decreases |route|, 0
  {
    var i, rest := route[0], route[1..];
    var r := w.resolve(path + [i], o, sels[i].name, id);
    if rest != [] {
      var t := EngineType(o, sels[i].name).value;
      UndisciplinedValueIsError(w, path + [i], t, sels[i].subs, r.result.value, rest);
    }
  }

  lemma {:induction false} UndisciplinedValueIsError(w: World, path: Path, t: TypeRef, subs: seq<Sel>, v: Value,
                                                     route: Path)
    requires UndisciplinedValue(w, path, t, subs, v, route)
    ensures ValueErrorAt(w, path, t, subs, v, route)
    decreases |route|, 1, t
  {
    match t
    case NonNull(of) => UndisciplinedValueIsError(w, path, of, subs, v, route);
    case Named(o) => UndisciplinedIsError(w, path, o, subs, v.id, route);
    case ListOf(elem) =>
      UndisciplinedValueIsError(w, path + [route[0]], elem, subs, Item(v, route[0]), route[1..]);
  }

  /** Which positions of a response have an error at all. */
  lemma ErrorIff(w: World, path: Path, o: ObjType, sels: seq<Sel>, id: nat)
    requires ObjectRun(w, path, o, sels, id).Done?
    ensures forall route :: path + route in ObjectRun(w, path, o, sels, id).errs
                       <==> ObjectErrorAt(w, path, o, sels, id, route)
  {
    ErrorsExact(w, path, o, sels, id);
  }

  /** Which positions of a response have more than one error: exactly those where execution reaches
      a field whose resolver both records an error and fails. Hence no position has two iff no
      reached resolver does. */
  lemma SecondErrorIff(w: World, path: Path, o: ObjType, sels: seq<Sel>, id: nat)
    requires ObjectRun(w, path, o, sels, id).Done?
    ensures forall route :: ObjectRun(w, path, o, sels, id).errs[path + route] > 1
                       <==> UndisciplinedObject(w, path, o, sels, id, route)
    ensures (forall q :: ObjectRun(w, path, o, sels, id).errs[q] <= 1) <==> !ReachesUndisciplined(w, path, o, sels, id)
  {
    var errs := ObjectRun(w, path, o, sels, id).errs;
    ErrorsExact(w, path, o, sels, id);
    forall q ensures errs[q] > 1 ==> ReachesUndisciplined(w, path, o, sels, id) {
      if errs[q] > 1 {
        assert q in errs && q == path + q[|path|..];
        assert UndisciplinedObject(w, path, o, sels, id, q[|path|..]);
      }
    }
  }

  /** No resolver of the world does both. */
  ghost predicate Disciplined(w: World) {
    forall path: Path, o, n, id {:trigger w.resolve(path, o, n, id)} :: DisciplinedAt(o, n, w.resolve(path, o, n, id))
  }

  lemma {:induction false} NoneUndisciplined(w: World, path: Path, o: ObjType, sels: seq<Sel>, id: nat, route: Path)
    requires Disciplined(w)
    ensures !UndisciplinedObject(w, path, o, sels, id, route)
    decreases |route|, 0
  {
    if |route| > 0 && route[0] < |sels| {
      var here, sel, rest := path + [route[0]], sels[route[0]], route[1..];
      var r := w.resolve(here, o, sel.name, id);
      assert DisciplinedAt(o, sel.name, r);
      if EngineType(o, sel.name).Some? && r.result.Got? {
        NoneUndisciplinedValue(w, here, EngineType(o, sel.name).value, sel.subs, r.result.value, rest);
      }
    }
  }

  lemma {:induction false} NoneUndisciplinedValue(w: World, path: Path, t: TypeRef, subs: seq<Sel>, v: Value,
                                                  route: Path)
    requires Disciplined(w)
    ensures !UndisciplinedValue(w, path, t, subs, v, route)
    decreases |route|, 1, t
  {
    match t
    case NonNull(of) => NoneUndisciplinedValue(w, path, of, subs, v, route);
    case Leaf =>
    case Named(o) => if v.Ref? { NoneUndisciplined(w, path, o, subs, v.id, route); }
    case ListOf(elem) =>
      if |route| > 0 && route[0] < Count(v) {
        NoneUndisciplinedValue(w, path + [route[0]], elem, subs, Item(v, route[0]), route[1..]);
      }
  }

  /** At most one error per response position, as section 6.4.4 of the GraphQL specification asks,
      in particular when no resolver records errors of its own. */
  lemma OneErrorPerPosition(w: World, path: Path, o: ObjType, sels: seq<Sel>, id: nat)
    requires Disciplined(w) && ObjectRun(w, path, o, sels, id).Done?
    ensures forall q :: ObjectRun(w, path, o, sels, id).errs[q] <= 1
  {
    SecondErrorIff(w, path, o, sels, id);
    forall route ensures !UndisciplinedObject(w, path, o, sels, id, route) {
      NoneUndisciplined(w, path, o, sels, id, route);
    }
  }

  lemma TwoErrorsField(w: World, path: Path, o: ObjType, sel: Sel, id: nat)
    requires !Uncoercible(o, sel.name, sel.raw) && !Closed(w, o) && FieldRun(w, path, o, sel, id).Done?
    requires w.resolve(path, o, sel.name, id) == Resolution(true, Failed)
    ensures FieldRun(w, path, o, sel, id) == Done(Null, multiset{path, path})
  {
    ArgumentsAgree(o, sel.name, sel.raw);
    assert One(path, true) + One(path, true) == multiset{path, path};
  }

  /** An input with two errors at one position: the resolver of `__schema` records one and fails. */
  lemma TwoErrorsAtSchema(w: World, subs: seq<Sel>, id: nat)
    requires !w.introspectionDisabled && w.resolve([0], QueryObject, MetaSchema, id) == Resolution(true, Failed)
    ensures ObjectRun(w, [], QueryObject, [Sel(MetaSchema, Missing, subs)], id)
         == Done(Object(QueryObject, [Null]), multiset{[0], [0]})
  {
    var sel := Sel(MetaSchema, Missing, subs);
    TwoErrorsField(w, [0], QueryObject, sel, id);
    SingleField(w, QueryObject, sel, id, Null, multiset{[0], [0]});
  }

  // ----- introspection disabled -----

  /** A root field is then Null with one error at its own path, whatever its argument and selections,
      and whatever the resolvers would answer. */
  lemma DisabledRootField(w: World, path: Path, sel: Sel, id: nat)
    requires w.introspectionDisabled && (sel.name.MetaSchema? || sel.name.MetaType?)
    ensures FieldRun(w, path, QueryObject, sel, id) == Done(Null, multiset{path})
  {
    ArgumentsAgree(QueryObject, sel.name, sel.raw);
  }

  lemma DisabledSlot(w: World, path: Path, sels: seq<Sel>, id: nat, i: nat)
    requires w.introspectionDisabled && i < |sels| && SlotRun(w, path, QueryObject, sels, id, i).Done?
    ensures SlotRun(w, path, QueryObject, sels, id, i).out
         == if sels[i].name == Typename then Scalar("Query") else Null
  {
    if sels[i].name != Typename {
      DisabledRootField(w, path + [i], sels[i], id);
    }
  }

  /** So the whole response consists of these Nulls and `__typename`. */
  lemma DisabledRoot(w: World, path: Path, sels: seq<Sel>, id: nat)
    requires w.introspectionDisabled && ObjectRun(w, path, QueryObject, sels, id).Done?
    ensures var out := ObjectRun(w, path, QueryObject, sels, id).out;
            && out.Object? && |out.slots| == |sels|
            && forall i :: 0 <= i < |sels| ==>
                 out.slots[i] == if sels[i].name == Typename then Scalar("Query") else Null
    ensures forall route :: ObjectRun(w, path, QueryObject, sels, id).errs[path + route]
                         == Bit(|route| == 1 && route[0] < |sels| && sels[route[0]].name != Typename)
  {
    var runs := ObjectAt(w, path, QueryObject, sels, id);
    ObjectOf(QueryObject, sels, runs);
    RootNeverNull(w, path, sels, id);
    forall i | 0 <= i < |sels|
      ensures runs[i].out == if sels[i].name == Typename then Scalar("Query") else Null
    {
      assert runs[i].Done?;
      DisabledSlot(w, path, sels, id, i);
    }
    forall route: Path
      ensures ObjectRun(w, path, QueryObject, sels, id).errs[path + route]
           == Bit(|route| == 1 && route[0] < |sels| && sels[route[0]].name != Typename)
    {
      DisabledErrors(w, path, sels, id, route);
    }
  }

  lemma DisabledErrors(w: World, path: Path, sels: seq<Sel>, id: nat, route: Path)
    requires w.introspectionDisabled && ObjectRun(w, path, QueryObject, sels, id).Done?
    ensures ObjectRun(w, path, QueryObject, sels, id).errs[path + route]
         == Bit(|route| == 1 && route[0] < |sels| && sels[route[0]].name != Typename)
  {
    if route == [] {
      assert path + route == path;
      ObjectErrorsBelow(w, path, QueryObject, sels, id);
    } else {
      ObjectAlong(w, path, QueryObject, sels, id, route);
      if route[0] < |sels| && sels[route[0]].name != Typename {
        DisabledRootField(w, path + [route[0]], sels[route[0]], id);
        assert path + [route[0]] + route[1..] == path + [route[0]] <==> |route| == 1;
      }
    }
  }

  // ----- confinement -----

  /** The two worlds answer alike at and below the path. */
  ghost predicate Agree(w: World, w': World, path: Path) {
    && w.introspectionDisabled == w'.introspectionDisabled
    && forall q: Path, o, n, id {:trigger w.resolve(q, o, n, id)} {:trigger w'.resolve(q, o, n, id)} ::
         path <= q ==> w.resolve(q, o, n, id) == w'.resolve(q, o, n, id)
  }

  lemma AgreeBelow(w: World, w': World, path: Path, i: nat)
    requires Agree(w, w', path)
    ensures Agree(w, w', path + [i])
  {
    forall q: Path, o, n, id | path + [i] <= q
      ensures w.resolve(q, o, n, id) == w'.resolve(q, o, n, id)
    {
      assert path == (path + [i])[..|path|] == q[..|path|];
    }
  }

  lemma {:induction false} FieldLocal(w: World, w': World, path: Path, o: ObjType, sel: Sel, id: nat)
    requires Agree(w, w', path)
    ensures FieldRun(w, path, o, sel, id) == FieldRun(w', path, o, sel, id)
    decreases sel, 1
  {
    var m, r := MarshallerOf(o, sel.name), Resolve(w, path, o, sel.name, id);
    var args := ProcessArgs(o, sel.name, sel.raw);
    assert r == Resolve(w', path, o, sel.name, id);
    if args.Some? && AssertionsHold(o, sel.name, args.value) {
      FieldIsDelivered(w, path, o, sel, id);
      FieldIsDelivered(w', path, o, sel, id);
      DeliveredLocal(w, w', path, m, NonNullFlag(o, sel.name), sel.subs, r);
    }
  }

  lemma {:induction false} DeliveredLocal(w: World, w': World, path: Path, m: Marshaller, nonNull: bool, subs: seq<Sel>,
                                          r: Resolution)
    requires Agree(w, w', path)
    ensures Delivered(w, path, m, nonNull, subs, r) == Delivered(w', path, m, nonNull, subs, r)
    decreases subs, 4
  {
    if r.result.Got? && Fits(m, r.result.value) {
      CompleteLocal(w, w', path, m, subs, r.result.value, r.reported);
    }
  }

  lemma {:induction false} CompleteLocal(w: World, w': World, path: Path, m: Marshaller, subs: seq<Sel>, v: Value,
                                         noted: bool)
    requires Agree(w, w', path) && Fits(m, v)
    ensures Complete(w, path, m, subs, v, noted) == Complete(w', path, m, subs, v, noted)
    decreases subs, 3
  {
    match m
    case NPtr(o) => if !v.NilValue? { ObjectLocal(w, w', path, o, subs, v.id); }
    case OPtr(o) => if !v.NilValue? { ObjectLocal(w, w', path, o, subs, v.id); }
    case NList(elem) => ListLocal(w, w', path, elem, subs, v);
    case OList(elem) => if !v.NilValue? { ListLocal(w, w', path, elem, subs, v); }
    case _ =>
  }

  lemma {:induction false} SlotLocal(w: World, w': World, path: Path, o: ObjType, sels: seq<Sel>, id: nat, i: nat)
    requires i < |sels| && Agree(w, w', path + [i])
    ensures SlotRun(w, path, o, sels, id, i) == SlotRun(w', path, o, sels, id, i)
    decreases sels[i], 2
  {
    if HasMethod(o, sels[i].name) {
      FieldLocal(w, w', path + [i], o, sels[i], id);
    }
  }

  lemma {:induction false} ObjectLocal(w: World, w': World, path: Path, o: ObjType, sels: seq<Sel>, id: nat)
    requires Agree(w, w', path)
    ensures ObjectRun(w, path, o, sels, id) == ObjectRun(w', path, o, sels, id)
    decreases sels, 1
  {
    var runs := ObjectAt(w, path, o, sels, id);
    var runs' := ObjectAt(w', path, o, sels, id);
    forall i | 0 <= i < |sels| ensures runs[i] == runs'[i] {
      AgreeBelow(w, w', path, i);
      SlotLocal(w, w', path, o, sels, id, i);
    }
    assert runs == runs';
  }

  lemma {:induction false} ListLocal(w: World, w': World, path: Path, elem: Elem, subs: seq<Sel>, v: Value)
    requires Agree(w, w', path) && Fits(NList(elem), v)
    ensures ListRun(w, path, elem, subs, v) == ListRun(w', path, elem, subs, v)
    decreases subs, 2
  {
    var runs := ListAt(w, path, elem, subs, v);
    var runs' := ListAt(w', path, elem, subs, v);
    forall i | 0 <= i < |runs| ensures runs[i] == runs'[i] {
      AgreeBelow(w, w', path, i);
      if elem.ObjectElem? {
        ObjectLocal(w, w', path + [i], elem.o, subs, v.ids[i]);
      }
    }
    assert runs == runs';
  }

  /** Confinement: what goes wrong under one slot of an object changes no other slot, no error
      outside that slot, and if the slot is nullable it does not decide whether the object is Null. */
  lemma FailureConfined(w: World, w': World, path: Path, o: ObjType, sels: seq<Sel>, id: nat, i: nat)
    requires i < |sels|
    requires forall j :: 0 <= j < |sels| && j != i ==> Agree(w, w', path + [j])
    requires ObjectRun(w, path, o, sels, id).Done? && ObjectRun(w', path, o, sels, id).Done?
    ensures var r, r' := ObjectRun(w, path, o, sels, id), ObjectRun(w', path, o, sels, id);
            && (!NonNullField(o, sels[i].name) ==> (r.out == Null <==> r'.out == Null))
            && (r.out != Null && r'.out != Null ==>
                  |r.out.slots| == |r'.out.slots| == |sels|
                  && forall j :: 0 <= j < |sels| && j != i ==> r.out.slots[j] == r'.out.slots[j])
            && (forall q :: !Through(path, i, q) ==> r.errs[q] == r'.errs[q])
  {
    var runs := ObjectAt(w, path, o, sels, id);
    var runs' := ObjectAt(w', path, o, sels, id);
    forall j | 0 <= j < |sels| && j != i ensures runs[j] == runs'[j] {
      SlotLocal(w, w', path, o, sels, id, j);
    }
    OneSlotDiffers(o, sels, runs, runs', i);
    ObjectOf(o, sels, runs);
    ObjectOf(o, sels, runs');
    ObjectInSlots(w, path, o, sels, id, runs);
    ObjectInSlots(w', path, o, sels, id, runs');
    OneSlotErrs(path, runs, runs', i);
  }

  lemma OneSlotDiffers(o: ObjType, sels: seq<Sel>, runs: seq<Run>, runs': seq<Run>, i: nat)
    requires |runs| == |runs'| == |sels| && i < |sels|
    requires forall j :: 0 <= j < |sels| && j != i ==> runs[j] == runs'[j]
    requires BuildObject(o, sels, Gather(runs)).Done? && BuildObject(o, sels, Gather(runs')).Done?
    ensures var out, out' := BuildObject(o, sels, Gather(runs)).out, BuildObject(o, sels, Gather(runs')).out;
            && (!NonNullField(o, sels[i].name) ==> (out == Null <==> out' == Null))
            && (out != Null && out' != Null ==>
                  |out.slots| == |out'.slots| == |sels|
                  && forall j :: 0 <= j < |sels| && j != i ==> out.slots[j] == out'.slots[j])
  {
    ObjectOf(o, sels, runs);
    ObjectOf(o, sels, runs');
    InvalidIsNonNull(o, sels[i], runs[i].out);
    InvalidIsNonNull(o, sels[i], runs'[i].out);
  }

  lemma OneSlotErrs(path: Path, runs: seq<Run>, runs': seq<Run>, i: nat)
    requires InSlots(path, runs) && InSlots(path, runs') && |runs| == |runs'| && i < |runs|
    requires forall j :: 0 <= j < |runs| && j != i ==> runs[j] == runs'[j]
    ensures Gather(runs).Slots? && Gather(runs').Slots?
    ensures forall q :: !Through(path, i, q) ==> Gather(runs).errs[q] == Gather(runs').errs[q]
  {
    GatherErrors(path, runs, path);
    GatherErrors(path, runs', path);
    forall q | !Through(path, i, q) ensures Gather(runs).errs[q] == Gather(runs').errs[q] {
      GatherErrors(path, runs, q);
      GatherErrors(path, runs', q);
    }
  }

  /** At the root every slot is nullable: whatever fails under `__schema` or `__type` stays there. */
  lemma RootFieldsIndependent(w: World, w': World, sels: seq<Sel>, id: nat, i: nat)
    requires i < |sels|
    requires forall j :: 0 <= j < |sels| && j != i ==> Agree(w, w', [j])
    requires ObjectRun(w, [], QueryObject, sels, id).Done? && ObjectRun(w', [], QueryObject, sels, id).Done?
    ensures var r, r' := ObjectRun(w, [], QueryObject, sels, id), ObjectRun(w', [], QueryObject, sels, id);
            && r.out.Object? && r'.out.Object? && |r.out.slots| == |r'.out.slots| == |sels|
            && (forall j :: 0 <= j < |sels| && j != i ==> r.out.slots[j] == r'.out.slots[j])
            && (forall q :: |q| == 0 || q[0] != i ==> r.errs[q] == r'.errs[q])
  {
    RootNeverNull(w, [], sels, id);
    RootNeverNull(w', [], sels, id);
    forall j | 0 <= j < |sels| ensures [] + [j] == [j] {}
    FailureConfined(w, w', [], QueryObject, sels, id, i);
  }
}
