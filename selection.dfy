/** Which fields one schema instance works with: the names chosen by the
    only / fields / additional / declared rules minus the excludes, each
    mapped to its declared field or to a field inferred from a
    representative object, and the load_only / dump_only flags applied
    when the fields are bound. */
module Selection {
  import opened Types

  function SetOf(xs: seq<string>): set<string> {
    set x | x in xs
  }

  /** The names `_update_fields` keeps. Empty sequences count as unset,
      as Python's truth test on `only`, `fields` and `additional` does. */
  function SelectFieldNames(only: seq<string>, optFields: seq<string>, additional: seq<string>,
                            declared: set<string>, excludes: set<string>): (names: set<string>)
    ensures names !! excludes
    ensures |only| > 0 && |optFields| > 0 ==>
      forall n :: n in names <==> n in only && n in optFields && n !in excludes
    ensures |only| > 0 && |optFields| == 0 ==>
      forall n :: n in names <==> n in only && n !in excludes
    ensures |only| == 0 && |optFields| > 0 ==>
      forall n :: n in names <==> n in optFields && n !in excludes
    ensures |only| == 0 && |optFields| == 0 ==>
      forall n :: n in names <==> (n in declared || n in additional) && n !in excludes
  {
    var chosen :=
      if |only| > 0 then
        (if |optFields| > 0 then SetOf(optFields) * SetOf(only) else SetOf(only))
      else if |optFields| > 0 then SetOf(optFields)
      else if |additional| > 0 then declared + SetOf(additional)
      else declared;
    if excludes != {} then chosen - excludes else chosen
  }

  /** BaseSchema.TYPE_MAPPING, with `fields.Field` for every other type. */
  function FieldClassFor(t: TypeTag): (k: FieldKind)
    ensures !k.Custom?
    ensures k == Generic <==> t.NoneType? || t.DictType? || t.InstanceType?
    ensures k == Raw <==> t.TupleType? || t.ListType? || t.SetType?
    ensures k == String <==> t.TextType? || t.BinaryType?
  {
    match t
    case TextType => String
    case BinaryType => String
    case DateTimeType => DateTime
    case FloatType => Float
    case BoolType => Boolean
    case TupleType => Raw
    case ListType => Raw
    case SetType => Raw
    case IntType => Integer
    case UuidType => Uuid
    case TimeType => Time
    case DateType => Date
    case TimeDeltaType => TimeDelta
    case DecimalType => Decimal
    case NoneType => Generic
    case DictType => Generic
    case InstanceType => Generic
  }

  /** A freshly constructed field of the given class. */
  function NewField(kind: FieldKind): Field {
    Field(kind, false, false, 0)
  }

  /** `obj[key]` for a mapping, `getattr(obj, key)` otherwise. */
  function AttributeOf(obj: Data, key: string): Option<Data> {
    match obj
    case Mapping(e) => if key in e then Some(e[key]) else None
    case Object(a) => if key in a then Some(a[key]) else None
    case _ => None
  }

  /** The field `__filter_fields` creates for an undeclared name. */
  function ImplicitField(proto: Data, key: string): (r: Result<Field, SchemaError>)
    ensures r.Failure? <==> Truthy(proto) && AttributeOf(proto, key).None?
    ensures r.Failure? ==> r.error == (if proto.Mapping? then KeyMissing(key) else AttributeMissing(key))
    ensures r.Success? ==> !r.value.loadOnly && !r.value.dumpOnly && r.value.creationIndex == 0
    ensures r.Success? && !Truthy(proto) ==> r.value.kind == Generic
    ensures r.Success? && Truthy(proto) ==> r.value.kind == FieldClassFor(TypeOf(AttributeOf(proto, key).value))
  {
    if !Truthy(proto) then Success(NewField(Generic))
    else match AttributeOf(proto, key)
      case Some(v) => Success(NewField(FieldClassFor(TypeOf(v))))
      case None => Failure(if proto.Mapping? then KeyMissing(key) else AttributeMissing(key))
  }

  /** What the object passed to `__filter_fields` resolves implicit
      fields against: in many-mode a truthy collection gives its first
      item, an iterable that yields nothing gives up on filtering. */
  datatype ProtoChoice = AllDeclared | Representative(obj: Data)

  function PrototypeOf(obj: Data, many: bool): (r: Result<ProtoChoice, SchemaError>)
    ensures !(Truthy(obj) && many) ==> r == Success(Representative(obj))
    ensures r == Success(AllDeclared) <==> many && obj == Cursor([])
    ensures many && Items(obj).Some? && |Items(obj).value| > 0 ==> r == Success(Representative(Items(obj).value[0]))
    ensures r.Failure? ==> many && Truthy(obj) && Items(obj).None?
  {
    if Truthy(obj) && many then
      match obj
      case List(xs) => Success(Representative(xs[0]))
      case Cursor(xs) => if xs == [] then Success(AllDeclared) else Success(Representative(xs[0]))
      case Scalar(TextType, _) => Success(Representative(obj))  // a string's first character
      case Mapping(_) => Failure(KeyMissing("0"))
      case _ => Failure(NotIterable)
    else Success(Representative(obj))
  }

  predicate Resolvable(declared: map<string, Field>, names: set<string>, proto: Data) {
    forall n :: n in names && n !in declared ==> ImplicitField(proto, n).Success?
  }

  function Resolve(declared: map<string, Field>, names: set<string>, proto: Data): map<string, Field>
    requires Resolvable(declared, names, proto)
  {
    map n | n in names :: if n in declared then declared[n] else ImplicitField(proto, n).value
  }

  /** The field dictionary `__filter_fields` returns, or None when it raises. */
  function Filtered(declared: map<string, Field>, names: set<string>, obj: Data, many: bool): (r: Option<map<string, Field>>)
    ensures r.Some? ==> r.value.Keys == names || (r.value == declared && PrototypeOf(obj, many) == Success(AllDeclared))
    ensures r.Some? ==> forall n :: n in r.value && n in declared ==> r.value[n] == declared[n]
    ensures r.None? <==>
      (PrototypeOf(obj, many).Failure? ||
       (PrototypeOf(obj, many).value.Representative? && !Resolvable(declared, names, PrototypeOf(obj, many).value.obj)))
    ensures r.Some? && PrototypeOf(obj, many).Success? && PrototypeOf(obj, many).value.Representative? ==>
      forall n :: n in names && n !in declared ==>
        n in r.value && ImplicitField(PrototypeOf(obj, many).value.obj, n) == Success(r.value[n])
  {
    match PrototypeOf(obj, many)
    case Failure(_) => None
    case Success(AllDeclared) => Some(declared)
    case Success(Representative(p)) =>
      if Resolvable(declared, names, p) then Some(Resolve(declared, names, p)) else None
  }

  /** The errors `__filter_fields` may raise: the one from picking the
      prototype, or the lookup error of some undeclared name (which one
      depends on the iteration order of the name set). */
  predicate FilterError(declared: map<string, Field>, names: set<string>, obj: Data, many: bool, e: SchemaError) {
    match PrototypeOf(obj, many)
    case Failure(e0) => e == e0
    case Success(AllDeclared) => false
    case Success(Representative(p)) =>
      exists n :: n in names && n !in declared && ImplicitField(p, n) == Failure(e)
  }

  /** A declared name keeps its declared field; with a falsy object every
      undeclared name gets a generic `Field`. */
  lemma FalsyObjectGivesGenericFields(declared: map<string, Field>, names: set<string>, obj: Data, many: bool)
    requires !Truthy(obj)
    ensures Filtered(declared, names, obj, many) ==
      Some(map n | n in names :: if n in declared then declared[n] else NewField(Generic))
  {
    var expected := map n | n in names :: if n in declared then declared[n] else NewField(Generic);
    assert PrototypeOf(obj, many) == Success(Representative(obj));
    assert forall n :: n !in declared ==> ImplicitField(obj, n) == Success(NewField(Generic));
    assert Resolve(declared, names, obj) == expected;
  }

  /** An undeclared name that a present object lacks makes filtering
      fail with KeyError for a mapping and AttributeError otherwise. */
  lemma MissingAttributeRaises(declared: map<string, Field>, names: set<string>, obj: Data, n: string)
    requires Truthy(obj) && n in names && n !in declared && AttributeOf(obj, n).None?
    ensures Filtered(declared, names, obj, false).None?
    ensures FilterError(declared, names, obj, false, if obj.Mapping? then KeyMissing(n) else AttributeMissing(n))
  {
  }

  /** In many-mode the first item of a non-empty list stands for all. */
  lemma ManyModeUsesFirstItem(declared: map<string, Field>, names: set<string>, xs: seq<Data>)
    requires |xs| > 0
    ensures Filtered(declared, names, List(xs), true) == Filtered(declared, names, xs[0], false)
  {
  }

  /** In many-mode an iterable that yields nothing keeps every declared
      field, whatever the names. */
  lemma EmptyIterableKeepsDeclared(declared: map<string, Field>, names: set<string>)
    ensures Filtered(declared, names, Cursor([]), true) == Some(declared)
  {
  }

  /** `__set_field_attrs` on one field. */
  function Bind(f: Field, name: string, loadOnly: set<string>, dumpOnly: set<string>): Field {
    f.(loadOnly := f.loadOnly || name in loadOnly, dumpOnly := f.dumpOnly || name in dumpOnly)
  }

  /** The instance-level option when non-empty, the Meta one otherwise. */
  function InstanceOrMeta(instance: seq<string>, meta: seq<string>): (s: set<string>)
    ensures s == SetOf(instance) || s == SetOf(meta)
    ensures |instance| > 0 ==> s == SetOf(instance)
    ensures |instance| == 0 ==> s == SetOf(meta)
  {
    assert |instance| > 0 ==> instance[0] in SetOf(instance);
    if SetOf(instance) != {} then SetOf(instance) else SetOf(meta)
  }
}
