/** What the generated marshallers compute, as functions of a selection set and of what the
    resolvers answer at each response path. */
module Execution {
  import opened Options
  import opened IntrospectionTables

  /** A response path: slot numbers of fields and indices of list elements. */
  type Path = seq<nat>

  /** A collected field with its argument and its own sub-selections. */
  datatype Sel = Sel(name: FieldName, raw: RawArg, subs: seq<Sel>)

  /** What a resolver hands to a marshaller; a leaf carries its serialisation, None for Null. */
  datatype Value =
    | NilValue
    | LeafValue(text: Option<string>)
    | Ref(id: nat)
    | LeafList(texts: seq<Option<string>>)
    | RefList(ids: seq<nat>)

  datatype Result = Failed | Absent | Got(value: Value)

  /** The outcome of a resolver, and whether it recorded an error of its own at its path. */
  datatype Resolution = Resolution(reported: bool, result: Result)

  /** The resolvers answer per path, so any pattern of failures and any object graph, cyclic ones
      included, is a world. */
  datatype World = World(resolve: (Path, ObjType, FieldName, nat) -> Resolution, introspectionDisabled: bool)

  datatype Out = Null | Scalar(text: string) | Object(o: ObjType, slots: seq<Out>) | Array(elems: seq<Out>)

  /** Errors are counted per path. A panic ends the run. */
  datatype Run = Panic | Done(out: Out, errs: multiset<Path>)

  datatype Slots = SlotPanic | Slots(outs: seq<Out>, errs: multiset<Path>)

  function TypeName(o: ObjType): string {
    match o
    case QueryObject => "Query"
    case DirectiveObject => "__Directive"
    case EnumValueObject => "__EnumValue"
    case FieldObject => "__Field"
    case InputValueObject => "__InputValue"
    case SchemaObject => "__Schema"
    case TypeObject => "__Type"
  }

  /** The names that `__typename` answers. */
  lemma TypeNames()
    ensures TypeName(QueryObject) == "Query" && TypeName(SchemaObject) == "__Schema"
    ensures TypeName(TypeObject) == "__Type" && TypeName(FieldObject) == "__Field"
    ensures TypeName(InputValueObject) == "__InputValue" && TypeName(EnumValueObject) == "__EnumValue"
    ensures TypeName(DirectiveObject) == "__Directive"
  {}

  /** The type assertion of `ResolveField` on the resolver's result. */
  predicate Fits(m: Marshaller, v: Value) {
    match m
    case NLeaf => v.LeafValue?
    case OLeaf => v.LeafValue?
    case OLeafPtr => v.NilValue? || v.LeafValue?
    case NPtr(_) => v.NilValue? || v.Ref?
    case OPtr(_) => v.NilValue? || v.Ref?
    case NList(elem) => v.NilValue? || (if elem.LeafElem? then v.LeafList? else v.RefList?)
    case OList(elem) => v.NilValue? || (if elem.LeafElem? then v.LeafList? else v.RefList?)
  }

  function Resolve(w: World, path: Path, o: ObjType, n: FieldName, id: nat): Resolution {
    if o == QueryObject && w.introspectionDisabled then Resolution(false, Failed) else w.resolve(path, o, n, id)
  }

  function One(path: Path, present: bool): multiset<Path> {
    if present then multiset{path} else multiset{}
  }

  function Text(text: Option<string>): Out {
    match text case None => Null case Some(t) => Scalar(t)
  }

  /** A nil slice has no elements. */
  function Count(v: Value): nat {
    match v
    case LeafList(texts) => |texts|
    case RefList(ids) => |ids|
    case _ => 0
  }

  /** The slots that a loop over these runs fills, or a panic when one of them panics. */
  function Gather(runs: seq<Run>): (r: Slots)
    ensures r.Slots? ==> |r.outs| == |runs|
  {
    if |runs| == 0 then Slots([], multiset{})
    else match Gather(runs[..|runs| - 1])
      case SlotPanic => SlotPanic
      case Slots(outs, errs) =>
        match runs[|runs| - 1]
        case Panic => SlotPanic
        case Done(out, more) => Slots(outs + [out], errs + more)
  }

  /** The scan at the end of a list marshaller. */
  function BuildArray(g: Slots): Run {
    match g
    case SlotPanic => Panic
    case Slots(outs, errs) => Done(if Null in outs then Null else Array(outs), errs)
  }

  predicate Invalid(o: ObjType, sel: Sel, out: Out) {
    Switch(o, sel.name) == Required && out == Null
  }

  /** `FieldSet.Invalids` when the loop is done. */
  function Invalids(o: ObjType, sels: seq<Sel>, outs: seq<Out>): nat
    requires |outs| <= |sels|
  {
    if |outs| == 0 then 0
    else Invalids(o, sels, outs[..|outs| - 1])
         + (if Invalid(o, sels[|outs| - 1], outs[|outs| - 1]) then 1 else 0)
  }

  /** The tail of an object marshaller. */
  function BuildObject(o: ObjType, sels: seq<Sel>, g: Slots): Run
    requires g.Slots? ==> |g.outs| == |sels|
  {
    match g
    case SlotPanic => Panic
    case Slots(outs, errs) =>
      if Invalids(o, sels, outs) > 0 then Done(Null, errs) else Done(Object(o, outs), errs)
  }

  /** A field method: arguments, resolver, then the marshaller on the field's own selections. */
  function FieldRun(w: World, path: Path, o: ObjType, sel: Sel, id: nat): Run
    decreases sel, 1
  {
    var args := ProcessArgs(o, sel.name, sel.raw);
    if args.None? then Done(Null, One(path, true))
    else if !AssertionsHold(o, sel.name, args.value) then Panic
    else
      var r := Resolve(w, path, o, sel.name, id);
      var own := One(path, r.reported);
      match r.result
      case Failed => Done(Null, own + One(path, true))
      case Absent => Done(Null, own + One(path, NonNullFlag(o, sel.name) && !r.reported))
      case Got(v) =>
        if !Fits(MarshallerOf(o, sel.name), v) then Done(Null, own + One(path, true)) else
        match Complete(w, path, MarshallerOf(o, sel.name), sel.subs, v, r.reported)
        case Panic => Panic
        case Done(out, errs) => Done(out, own + errs)
  }

  /** `marshalN…` and `marshalO…`; `noted` says that an error at this very path is on record. */
  function Complete(w: World, path: Path, m: Marshaller, subs: seq<Sel>, v: Value, noted: bool): Run
    requires Fits(m, v)
    decreases subs, 6
  {
    match m
    case NLeaf => Done(Text(v.text), One(path, v.text.None? && !noted))
    case OLeaf => Done(Text(v.text), multiset{})
    case OLeafPtr => Done(if v.NilValue? then Null else Text(v.text), multiset{})
    case NPtr(o) =>
      if v.NilValue? then Done(Null, One(path, !noted)) else ObjectRun(w, path, o, subs, v.id)
    case OPtr(o) =>
      if v.NilValue? then Done(Null, multiset{}) else ObjectRun(w, path, o, subs, v.id)
    case NList(elem) => ListRun(w, path, elem, subs, v)
    case OList(elem) =>
      if v.NilValue? then Done(Null, multiset{}) else ListRun(w, path, elem, subs, v)
  }

  function ElemRun(w: World, path: Path, elem: Elem, subs: seq<Sel>, v: Value, i: nat): Run
    requires Fits(NList(elem), v) && i < Count(v)
    decreases subs, 3
  {
    match elem
    case LeafElem => Done(Text(v.texts[i]), One(path + [i], v.texts[i].None?))
    case ObjectElem(o) => ObjectRun(w, path + [i], o, subs, v.ids[i])
  }

  function ElemRuns(w: World, path: Path, elem: Elem, subs: seq<Sel>, v: Value): (runs: seq<Run>)
    requires Fits(NList(elem), v)
    ensures |runs| == Count(v)
    decreases subs, 4
  {
    seq(Count(v), i requires 0 <= i < Count(v) => ElemRun(w, path, elem, subs, v, i))
  }

  /** A list marshaller: Null when an element is. */
  function ListRun(w: World, path: Path, elem: Elem, subs: seq<Sel>, v: Value): Run
    requires Fits(NList(elem), v)
    decreases subs, 5
  {
    BuildArray(Gather(ElemRuns(w, path, elem, subs, v)))
  }

  /** One turn of an object marshaller's loop. */
  function SlotRun(w: World, path: Path, o: ObjType, sels: seq<Sel>, id: nat, i: nat): Run
    requires i < |sels|
    decreases sels, 0
  {
    match Switch(o, sels[i].name)
    case TypenameCase => Done(Scalar(TypeName(o)), multiset{})
    case Panics => Panic
    case _ => FieldRun(w, path + [i], o, sels[i], id)
  }

  function SlotRuns(w: World, path: Path, o: ObjType, sels: seq<Sel>, id: nat): (runs: seq<Run>)
    ensures |runs| == |sels|
    decreases sels, 1
  {
    seq(|sels|, i requires 0 <= i < |sels| => SlotRun(w, path, o, sels, id, i))
  }

  /** An object marshaller: Null when a required slot is. */
  function ObjectRun(w: World, path: Path, o: ObjType, sels: seq<Sel>, id: nat): Run
    decreases sels, 2
  {
    BuildObject(o, sels, Gather(SlotRuns(w, path, o, sels, id)))
  }

  /** `ResolveField` from the resolver's answer on. */
  function Delivered(w: World, path: Path, m: Marshaller, nonNull: bool, subs: seq<Sel>, r: Resolution): Run {
    var own := One(path, r.reported);
    match r.result
    case Failed => Done(Null, own + One(path, true))
    case Absent => Done(Null, own + One(path, nonNull && !r.reported))
    case Got(v) =>
      if !Fits(m, v) then Done(Null, own + One(path, true)) else
      match Complete(w, path, m, subs, v, r.reported)
      case Panic => Panic
      case Done(out, errs) => Done(out, own + errs)
  }

  lemma FieldIsDelivered(w: World, path: Path, o: ObjType, sel: Sel, id: nat)
    requires ProcessArgs(o, sel.name, sel.raw).Some?
    requires AssertionsHold(o, sel.name, ProcessArgs(o, sel.name, sel.raw).value)
    ensures FieldRun(w, path, o, sel, id)
         == Delivered(w, path, MarshallerOf(o, sel.name), NonNullFlag(o, sel.name), sel.subs,
                      Resolve(w, path, o, sel.name, id))
  {}

  // ----- the loops, slot by slot -----

  lemma {:induction false} GatherAt(runs: seq<Run>)
    ensures Gather(runs).Slots? <==> forall i :: 0 <= i < |runs| ==> runs[i].Done?
    ensures Gather(runs).Slots? ==> (forall i :: 0 <= i < |runs| ==> Gather(runs).outs[i] == runs[i].out)
  {
    if |runs| > 0 {
      var rest := runs[..|runs| - 1];
      GatherAt(rest);
      assert forall i :: 0 <= i < |rest| ==> rest[i] == runs[i];
    }
  }

  lemma {:induction false} InvalidsAt(o: ObjType, sels: seq<Sel>, outs: seq<Out>)
    requires |outs| <= |sels|
    ensures Invalids(o, sels, outs) > 0 <==> exists i :: 0 <= i < |outs| && Invalid(o, sels[i], outs[i])
    decreases |outs|
  {
    if |outs| > 0 {
      var rest := outs[..|outs| - 1];
      InvalidsAt(o, sels, rest);
      assert forall i :: 0 <= i < |rest| ==> rest[i] == outs[i];
    }
  }

  /** The object that slots make: Null when a required one is. */
  lemma ObjectOf(o: ObjType, sels: seq<Sel>, runs: seq<Run>)
    requires |runs| == |sels|
    ensures var r := BuildObject(o, sels, Gather(runs));
            && (r.Done? <==> forall i :: 0 <= i < |runs| ==> runs[i].Done?)
            && (r.Done? ==> (r.out == Null <==> exists i :: 0 <= i < |runs| && Invalid(o, sels[i], runs[i].out)))
            && (r.Done? && r.out != Null ==> r.out.Object? && r.out.o == o && |r.out.slots| == |runs|)
            && (r.Done? && r.out != Null ==> (forall i :: 0 <= i < |runs| ==> r.out.slots[i] == runs[i].out))
  {
    GatherAt(runs);
    if Gather(runs).Slots? {
      InvalidsAt(o, sels, Gather(runs).outs);
    }
  }

  /** The list that elements make: Null when one is. */
  lemma ArrayOf(runs: seq<Run>)
    ensures var r := BuildArray(Gather(runs));
            && (r.Done? <==> forall i :: 0 <= i < |runs| ==> runs[i].Done?)
            && (r.Done? ==> (r.out == Null <==> exists i :: 0 <= i < |runs| && runs[i].out == Null))
            && (r.Done? && r.out != Null ==> r.out.Array? && |r.out.elems| == |runs|)
            && (r.Done? && r.out != Null ==> (forall i :: 0 <= i < |runs| ==> r.out.elems[i] == runs[i].out))
  {
    GatherAt(runs);
    if Gather(runs).Slots? {
      assert forall i :: 0 <= i < |runs| ==> runs[i].out in Gather(runs).outs;
    }
  }

  lemma ObjectAt(w: World, path: Path, o: ObjType, sels: seq<Sel>, id: nat) returns (runs: seq<Run>)
    ensures |runs| == |sels|
    ensures forall i :: 0 <= i < |sels| ==> runs[i] == SlotRun(w, path, o, sels, id, i)
    ensures ObjectRun(w, path, o, sels, id) == BuildObject(o, sels, Gather(runs))
  {
    runs := SlotRuns(w, path, o, sels, id);
  }

  lemma ListAt(w: World, path: Path, elem: Elem, subs: seq<Sel>, v: Value) returns (runs: seq<Run>)
    requires Fits(NList(elem), v)
    ensures |runs| == Count(v)
    ensures forall i :: 0 <= i < Count(v) ==> runs[i] == ElemRun(w, path, elem, subs, v, i)
    ensures ListRun(w, path, elem, subs, v) == BuildArray(Gather(runs))
  {
    runs := ElemRuns(w, path, elem, subs, v);
  }
}
