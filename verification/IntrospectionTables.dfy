/** The generated tables for the introspection types: the switches of the object marshallers, the
    marshaller and non-null flag each field passes to `ResolveField`, the Child tables and the
    arguments. Beside them stands the schema of the introspection system, stated on its own. */
module IntrospectionTables {
  import opened Options

  datatype ObjType =
    | QueryObject | SchemaObject | TypeObject | FieldObject | InputValueObject | EnumValueObject | DirectiveObject

  /** Field names; `MetaSchema` and `MetaType` are `__schema` and `__type`, `TypeField` is `type`. */
  datatype FieldName =
    | Typename | MetaSchema | MetaType
    | Args | DefaultValue | DeprecationReason | Description | Directives | EnumValues | Fields | InputFields
    | Interfaces | IsDeprecated | IsOneOf | IsRepeatable | Kind | Locations | MutationType | Name | OfType
    | PossibleTypes | QueryType | SpecifiedByURL | SubscriptionType | TypeField | Types
    | Other(text: string)

  // ----- the switch of each object marshaller -----

  /** A case may set the slot and count a Null there (Required), set it only (Optional), or be
      missing, which panics. */
  datatype Case = TypenameCase | Optional | Required | Panics

  function Switch(o: ObjType, n: FieldName): Case {
    if n == Typename then TypenameCase else
    match o
    case QueryObject => (
      match n
      case MetaType => Optional
      case MetaSchema => Optional
      case _ => Panics)
    case DirectiveObject => (
      match n
      case Name => Required
      case Description => Optional
      case IsRepeatable => Required
      case Locations => Required
      case Args => Required
      case _ => Panics)
    case EnumValueObject => (
      match n
      case Name => Required
      case Description => Optional
      case IsDeprecated => Required
      case DeprecationReason => Optional
      case _ => Panics)
    case FieldObject => (
      match n
      case Name => Required
      case Description => Optional
      case Args => Required
      case TypeField => Required
      case IsDeprecated => Required
      case DeprecationReason => Optional
      case _ => Panics)
    case InputValueObject => (
      match n
      case Name => Required
      case Description => Optional
      case TypeField => Required
      case DefaultValue => Optional
      case IsDeprecated => Required
      case DeprecationReason => Optional
      case _ => Panics)
    case SchemaObject => (
      match n
      case Description => Optional
      case Types => Required
      case QueryType => Required
      case MutationType => Optional
      case SubscriptionType => Optional
      case Directives => Required
      case _ => Panics)
    case TypeObject => (
      match n
      case Kind => Required
      case Name => Optional
      case Description => Optional
      case SpecifiedByURL => Optional
      case Fields => Optional
      case Interfaces => Optional
      case PossibleTypes => Optional
      case EnumValues => Optional
      case InputFields => Optional
      case OfType => Optional
      case IsOneOf => Optional
      case _ => Panics)
  }

  predicate HasMethod(o: ObjType, n: FieldName) {
    Switch(o, n) == Optional || Switch(o, n) == Required
  }

  // ----- the call of ResolveField in each field method -----

  datatype Elem = LeafElem | ObjectElem(o: ObjType)

  /** `marshalN…` and `marshalO…` for a leaf, a leaf pointer, an object pointer and a slice. */
  datatype Marshaller =
    | NLeaf | OLeaf | OLeafPtr
    | NPtr(o: ObjType) | OPtr(o: ObjType)
    | NList(elem: Elem) | OList(elem: Elem)

  function MarshallerOf(o: ObjType, n: FieldName): Marshaller {
    match o
    case QueryObject => (
      match n
      case MetaSchema => OPtr(SchemaObject)
      case _ => OPtr(TypeObject))
    case DirectiveObject => (
      match n
      case Description => OLeafPtr
      case Locations => NList(LeafElem)
      case Args => NList(ObjectElem(InputValueObject))
      case _ => NLeaf)
    case EnumValueObject => (
      match n
      case Description => OLeafPtr
      case DeprecationReason => OLeafPtr
      case _ => NLeaf)
    case FieldObject => (
      match n
      case Description => OLeafPtr
      case DeprecationReason => OLeafPtr
      case Args => NList(ObjectElem(InputValueObject))
      case TypeField => NPtr(TypeObject)
      case _ => NLeaf)
    case InputValueObject => (
      match n
      case Description => OLeafPtr
      case DefaultValue => OLeafPtr
      case DeprecationReason => OLeafPtr
      case TypeField => NPtr(TypeObject)
      case _ => NLeaf)
    case SchemaObject => (
      match n
      case Types => NList(ObjectElem(TypeObject))
      case QueryType => NPtr(TypeObject)
      case MutationType => OPtr(TypeObject)
      case SubscriptionType => OPtr(TypeObject)
      case Directives => NList(ObjectElem(DirectiveObject))
      case _ => OLeafPtr)
    case TypeObject => (
      match n
      case Kind => NLeaf
      case Fields => OList(ObjectElem(FieldObject))
      case Interfaces => OList(ObjectElem(TypeObject))
      case PossibleTypes => OList(ObjectElem(TypeObject))
      case EnumValues => OList(ObjectElem(EnumValueObject))
      case InputFields => OList(ObjectElem(InputValueObject))
      case OfType => OPtr(TypeObject)
      case IsOneOf => OLeaf
      case _ => OLeafPtr)
  }

  /** The last argument that the field method passes to `ResolveField`. */
  predicate NonNullFlag(o: ObjType, n: FieldName) {
    match o
    case QueryObject => false
    case DirectiveObject => n.Name? || n.IsRepeatable? || n.Locations? || n.Args?
    case EnumValueObject => n.Name? || n.IsDeprecated?
    case FieldObject => n.Name? || n.Args? || n.TypeField? || n.IsDeprecated?
    case InputValueObject => n.Name? || n.TypeField? || n.IsDeprecated?
    case SchemaObject => n.Types? || n.QueryType? || n.Directives?
    case TypeObject => n.Kind?
  }

  // ----- arguments -----

  datatype ArgName = NameArg | IncludeDeprecated

  /** The dynamic type of an unmarshalled argument. */
  datatype ArgType = StringArg | BoolArg | BoolPtrArg

  /** An argument as the query gives it: left out, not coercible to its type, or coercible. */
  datatype RawArg = Missing | Bad | Good

  function ArgSpec(o: ObjType, n: FieldName): Option<(ArgName, ArgType)> {
    match (o, n)
    case (QueryObject, MetaType) => Some((NameArg, StringArg))
    case (DirectiveObject, Args) => Some((IncludeDeprecated, BoolPtrArg))
    case (FieldObject, Args) => Some((IncludeDeprecated, BoolPtrArg))
    case (TypeObject, EnumValues) => Some((IncludeDeprecated, BoolArg))
    case (TypeObject, Fields) => Some((IncludeDeprecated, BoolArg))
    case _ => None
  }

  /** `field_*_args`: the argument map, or None when the argument cannot be coerced. */
  function ProcessArgs(o: ObjType, n: FieldName, raw: RawArg): Option<map<ArgName, ArgType>> {
    match ArgSpec(o, n)
    case None => Some(map[])
    case Some((name, argType)) => if raw == Bad then None else Some(map[name := argType])
  }

  /** The type assertions that the resolvers make on the argument map. */
  predicate AssertionsHold(o: ObjType, n: FieldName, args: map<ArgName, ArgType>) {
    match (o, n)
    case (QueryObject, MetaType) => NameArg in args && args[NameArg] == StringArg
    case (TypeObject, Fields) => IncludeDeprecated in args && args[IncludeDeprecated] == BoolArg
    case (TypeObject, EnumValues) => IncludeDeprecated in args && args[IncludeDeprecated] == BoolArg
    case _ => true
  }

  // ----- the Child tables -----

  /** The cases that the Child functions list for the fields of each object type. */
  function ChildIn(b: ObjType, m: FieldName): Option<(ObjType, FieldName)> {
    match b
    case QueryObject => None
    case TypeObject =>
      if m.Kind? || m.Name? || m.Description? || m.SpecifiedByURL? || m.Fields? || m.Interfaces? || m.PossibleTypes?
         || m.EnumValues? || m.InputFields? || m.OfType? || m.IsOneOf? then Some((TypeObject, m)) else None
    case SchemaObject =>
      if m.Description? || m.Types? || m.QueryType? || m.MutationType? || m.SubscriptionType? || m.Directives?
      then Some((SchemaObject, m)) else None
    case FieldObject =>
      if m.Name? || m.Description? || m.Args? || m.TypeField? || m.IsDeprecated? || m.DeprecationReason?
      then Some((FieldObject, m)) else None
    case InputValueObject =>
      if m.Name? || m.Description? || m.TypeField? || m.DefaultValue? || m.IsDeprecated? || m.DeprecationReason?
      then Some((InputValueObject, m)) else None
    case EnumValueObject =>
      if m.Name? || m.Description? || m.IsDeprecated? || m.DeprecationReason?
      then Some((EnumValueObject, m)) else None
    case DirectiveObject =>
      if m.Name? || m.Description? || m.IsRepeatable? || m.Locations? || m.Args?
      then Some((DirectiveObject, m)) else None
  }

  /** Which of these lists stands in the Child function of a field; leaf fields have none. */
  function ChildList(o: ObjType, n: FieldName): Option<ObjType> {
    match o
    case QueryObject => (
      match n
      case MetaType => Some(TypeObject)
      case MetaSchema => Some(SchemaObject)
      case _ => None)
    case DirectiveObject => if n.Args? then Some(InputValueObject) else None
    case FieldObject => if n.Args? then Some(InputValueObject) else if n.TypeField? then Some(TypeObject) else None
    case InputValueObject => if n.TypeField? then Some(TypeObject) else None
    case EnumValueObject => None
    case SchemaObject => (
      match n
      case Types => Some(TypeObject)
      case QueryType => Some(TypeObject)
      case MutationType => Some(TypeObject)
      case SubscriptionType => Some(TypeObject)
      case Directives => Some(DirectiveObject)
      case _ => None)
    case TypeObject => (
      match n
      case Fields => Some(FieldObject)
      case Interfaces => Some(TypeObject)
      case PossibleTypes => Some(TypeObject)
      case EnumValues => Some(EnumValueObject)
      case InputFields => Some(InputValueObject)
      case OfType => Some(TypeObject)
      case _ => None)
  }

  /** The Child function in the field context of field `n` of object `o`: which field context it
      gives for the sub-field `m`. */
  function Child(o: ObjType, n: FieldName, m: FieldName): Option<(ObjType, FieldName)> {
    ChildOf(ChildList(o, n), m)
  }

  function ChildOf(b: Option<ObjType>, m: FieldName): Option<(ObjType, FieldName)> {
    if b.None? then None else ChildIn(b.value, m)
  }

  // ----- the schema of the introspection system -----

  datatype TypeRef = Leaf | Named(o: ObjType) | ListOf(elem: TypeRef) | NonNull(of: TypeRef)

  function NonNullList(o: ObjType): TypeRef {
    NonNull(ListOf(NonNull(Named(o))))
  }

  /** Section 4.2 of the GraphQL specification, October 2021, with the fields later drafts add. */
  function SpecType(o: ObjType, n: FieldName): Option<TypeRef> {
    match o
    case QueryObject => (
      match n
      case MetaSchema => Some(NonNull(Named(SchemaObject)))
      case MetaType => Some(Named(TypeObject))
      case _ => None)
    case SchemaObject => (
      match n
      case Description => Some(Leaf)
      case Types => Some(NonNullList(TypeObject))
      case QueryType => Some(NonNull(Named(TypeObject)))
      case MutationType => Some(Named(TypeObject))
      case SubscriptionType => Some(Named(TypeObject))
      case Directives => Some(NonNullList(DirectiveObject))
      case _ => None)
    case TypeObject => (
      match n
      case Kind => Some(NonNull(Leaf))
      case Name => Some(Leaf)
      case Description => Some(Leaf)
      case SpecifiedByURL => Some(Leaf)
      case Fields => Some(ListOf(NonNull(Named(FieldObject))))
      case Interfaces => Some(ListOf(NonNull(Named(TypeObject))))
      case PossibleTypes => Some(ListOf(NonNull(Named(TypeObject))))
      case EnumValues => Some(ListOf(NonNull(Named(EnumValueObject))))
      case InputFields => Some(ListOf(NonNull(Named(InputValueObject))))
      case OfType => Some(Named(TypeObject))
      case IsOneOf => Some(Leaf)
      case _ => None)
    case FieldObject => (
      match n
      case Name => Some(NonNull(Leaf))
      case Description => Some(Leaf)
      case Args => Some(NonNullList(InputValueObject))
      case TypeField => Some(NonNull(Named(TypeObject)))
      case IsDeprecated => Some(NonNull(Leaf))
      case DeprecationReason => Some(Leaf)
      case _ => None)
    case InputValueObject => (
      match n
      case Name => Some(NonNull(Leaf))
      case Description => Some(Leaf)
      case TypeField => Some(NonNull(Named(TypeObject)))
      case DefaultValue => Some(Leaf)
      case IsDeprecated => Some(NonNull(Leaf))
      case DeprecationReason => Some(Leaf)
      case _ => None)
    case EnumValueObject => (
      match n
      case Name => Some(NonNull(Leaf))
      case Description => Some(Leaf)
      case IsDeprecated => Some(NonNull(Leaf))
      case DeprecationReason => Some(Leaf)
      case _ => None)
    case DirectiveObject => (
      match n
      case Name => Some(NonNull(Leaf))
      case Description => Some(Leaf)
      case IsRepeatable => Some(NonNull(Leaf))
      case Locations => Some(NonNull(ListOf(NonNull(Leaf))))
      case Args => Some(NonNullList(InputValueObject))
      case _ => None)
  }

  /** The type that the code gives a field: the specification's, but `__schema` may be null. */
  function EngineType(o: ObjType, n: FieldName): Option<TypeRef> {
    if o == QueryObject && n == MetaSchema then Some(Named(SchemaObject)) else SpecType(o, n)
  }

  /** The fields that take an argument: `__type(name:)`, and with `includeDeprecated:` the fields and
      enum values of a type and the arguments of a field or a directive. */
  predicate TakesArgument(o: ObjType, n: FieldName) {
    || (o == QueryObject && n.MetaType?)
    || (o == TypeObject && (n.Fields? || n.EnumValues?))
    || ((o == FieldObject || o == DirectiveObject) && n.Args?)
  }

  predicate Uncoercible(o: ObjType, n: FieldName, raw: RawArg) {
    TakesArgument(o, n) && raw == Bad
  }

  function ElemType(elem: Elem): TypeRef {
    match elem
    case LeafElem => NonNull(Leaf)
    case ObjectElem(o) => NonNull(Named(o))
  }

  /** The type whose values a marshaller completes. */
  function TypeOfMarshaller(m: Marshaller): TypeRef {
    match m
    case NLeaf => NonNull(Leaf)
    case OLeaf => Leaf
    case OLeafPtr => Leaf
    case NPtr(o) => NonNull(Named(o))
    case OPtr(o) => Named(o)
    case NList(elem) => NonNull(ListOf(ElemType(elem)))
    case OList(elem) => ListOf(ElemType(elem))
  }

  /** The object type that a selection set under a value of this type applies to. */
  function BaseObject(t: TypeRef): Option<ObjType> {
    match t
    case Leaf => None
    case Named(o) => Some(o)
    case ListOf(elem) => BaseObject(elem)
    case NonNull(of) => BaseObject(of)
  }

  lemma SwitchAgrees(o: ObjType, n: FieldName)
    ensures Switch(o, n) == match EngineType(o, n)
                            case None => if n == Typename then TypenameCase else Panics
                            case Some(t) => if t.NonNull? then Required else Optional
  {
    match o
    case QueryObject =>
    case DirectiveObject =>
    case EnumValueObject =>
    case FieldObject =>
    case InputValueObject =>
    case SchemaObject =>
    case TypeObject =>
  }

  lemma MarshallersAgree(o: ObjType, n: FieldName)
    ensures EngineType(o, n).Some? ==> TypeOfMarshaller(MarshallerOf(o, n)) == EngineType(o, n).value
  {
    match o
    case QueryObject =>
    case DirectiveObject =>
    case EnumValueObject =>
    case FieldObject =>
    case InputValueObject =>
    case SchemaObject =>
    case TypeObject =>
  }

  lemma FlagsAgree(o: ObjType, n: FieldName)
    ensures NonNullFlag(o, n) <==> EngineType(o, n).Some? && EngineType(o, n).value.NonNull?
  {
    match o
    case QueryObject =>
    case DirectiveObject =>
    case EnumValueObject =>
    case FieldObject =>
    case InputValueObject =>
    case SchemaObject =>
    case TypeObject =>
  }

  /** The tables describe one schema: a case exists for exactly the fields of the type, it counts
      nulls exactly for the non-null ones, and flag and marshaller agree with it. */
  lemma TablesAgree(o: ObjType, n: FieldName)
    ensures Switch(o, n) == match EngineType(o, n)
                            case None => if n == Typename then TypenameCase else Panics
                            case Some(t) => if t.NonNull? then Required else Optional
    ensures EngineType(o, n).Some? ==> TypeOfMarshaller(MarshallerOf(o, n)) == EngineType(o, n).value
    ensures NonNullFlag(o, n) <==> EngineType(o, n).Some? && EngineType(o, n).value.NonNull?
  {
    SwitchAgrees(o, n);
    MarshallersAgree(o, n);
    FlagsAgree(o, n);
  }

  /** Which arguments fail, what the others become, and what the resolvers assert of them. */
  lemma ArgumentsAgree(o: ObjType, n: FieldName, raw: RawArg)
    ensures ProcessArgs(o, n, raw).None? <==> Uncoercible(o, n, raw)
    ensures !TakesArgument(o, n) ==>
              ProcessArgs(o, n, raw) == Some(map[]) && forall args :: AssertionsHold(o, n, args)
    ensures o == QueryObject && n.MetaType? ==>
              && (raw != Bad ==> ProcessArgs(o, n, raw) == Some(map[NameArg := StringArg]))
              && forall args :: AssertionsHold(o, n, args) <==> (NameArg, StringArg) in args.Items
    ensures o == TypeObject && TakesArgument(o, n) ==>
              && (raw != Bad ==> ProcessArgs(o, n, raw) == Some(map[IncludeDeprecated := BoolArg]))
              && forall args :: AssertionsHold(o, n, args) <==> (IncludeDeprecated, BoolArg) in args.Items
    ensures n.Args? && TakesArgument(o, n) ==>
              && (raw != Bad ==> ProcessArgs(o, n, raw) == Some(map[IncludeDeprecated := BoolPtrArg]))
              && forall args :: AssertionsHold(o, n, args)
  {}

  lemma ChildListsAgree(o: ObjType, n: FieldName)
    requires EngineType(o, n).Some?
    ensures ChildList(o, n) == BaseObject(EngineType(o, n).value)
    ensures ChildList(o, n) != Some(QueryObject)
  {
    match o
    case QueryObject =>
    case DirectiveObject =>
    case EnumValueObject =>
    case FieldObject =>
    case InputValueObject =>
    case SchemaObject =>
    case TypeObject =>
  }

  lemma ChildInAgrees(b: ObjType, m: FieldName)
    requires b != QueryObject
    ensures ChildIn(b, m) == if EngineType(b, m).Some? then Some((b, m)) else None
  {
    match b
    case DirectiveObject =>
    case EnumValueObject =>
    case FieldObject =>
    case InputValueObject =>
    case SchemaObject =>
    case TypeObject =>
  }

  /** The field context of field `m` of the type, if the type has that field. */
  function FieldIn(b: Option<ObjType>, m: FieldName): Option<(ObjType, FieldName)> {
    if b.Some? && EngineType(b.value, m).Some? then Some((b.value, m)) else None
  }

  lemma ChildOfAgrees(b: Option<ObjType>, m: FieldName)
    requires b != Some(QueryObject)
    ensures ChildOf(b, m) == FieldIn(b, m)
  {
    if b.Some? {
      ChildInAgrees(b.value, m);
    }
  }

  /** A field's Child table accepts exactly the fields of the object type its marshaller yields,
      and hands out the field context of that very field. */
  lemma ChildrenAgree(o: ObjType, n: FieldName, m: FieldName)
    requires EngineType(o, n).Some?
    ensures Child(o, n, m) == FieldIn(BaseObject(EngineType(o, n).value), m)
  {
    ChildListsAgree(o, n);
    ChildOfAgrees(ChildList(o, n), m);
  }
}
