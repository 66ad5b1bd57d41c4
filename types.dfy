/** Values the schema engine works on: the data it converts, the field
    records it binds, the error maps it accumulates, and the hooks and
    converters it calls but does not define. */
module Types {

  datatype Option<T> = None | Some(value: T)

  datatype Result<T, E> = Success(value: T) | Failure(error: E)

  /** The runtime type of a value, as `type(value)` is looked up in the
      schema's TYPE_MAPPING. */
  datatype TypeTag =
    | TextType | BinaryType | DateTimeType | FloatType | BoolType
    | TupleType | ListType | SetType | IntType | UuidType
    | TimeType | DateType | TimeDeltaType | DecimalType
    | NoneType | DictType | InstanceType

  /** The runtime types of leaf values: everything but collections,
      dicts, `None` and plain objects, which `Data` represents by their
      own variants. */
  type LeafTag = t: TypeTag
    | !t.ListType? && !t.TupleType? && !t.SetType? && !t.DictType? && !t.NoneType? && !t.InstanceType?
    witness TextType

  /** The data handed to dump and load, and returned by them.
      `Scalar` is a leaf value with its type and its Python truth value;
      `Mapping` is a dict (looked up by key); `Object` is an object with
      attributes (looked up by getattr); `List` is an indexable collection;
      `Cursor` is an iterable that cannot be indexed (an object, so always
      truthy, like a database cursor). */
  datatype Data =
    | Null
    | Scalar(tag: LeafTag, truthy: bool)
    | Mapping(entries: map<string, Data>)
    | Object(attrs: map<string, Data>)
    | List(items: seq<Data>)
    | Cursor(elements: seq<Data>)

  /** Python's truth value of a piece of data (`if obj:`). */
  predicate Truthy(d: Data) {
    match d
    case Null => false
    case Scalar(_, t) => t
    case Mapping(e) => |e| > 0
    case Object(_) => true
    case List(xs) => |xs| > 0
    case Cursor(_) => true
  }

  /** `type(d)`. */
  function TypeOf(d: Data): TypeTag {
    match d
    case Null => NoneType
    case Scalar(t, _) => t
    case Mapping(_) => DictType
    case Object(_) => InstanceType
    case List(_) => ListType
    case Cursor(_) => InstanceType
  }

  /** The items `for item in d` visits, when `d` is a collection. */
  function Items(d: Data): Option<seq<Data>> {
    match d
    case List(xs) => Some(xs)
    case Cursor(xs) => Some(xs)
    case _ => None
  }

  /** `item[key]` on an item the unmarshaller produced; `None` stands for
      the KeyError that the validators catch. */
  function Lookup(item: Data, key: string): Option<Data> {
    if item.Mapping? && key in item.entries then Some(item.entries[key]) else None
  }

  /** The field classes the engine itself creates; `Custom` is any field
      class a schema author declares. */
  datatype FieldKind =
    | Generic | Raw | String | Integer | Float | Boolean | DateTime
    | Time | Date | TimeDelta | Decimal | Uuid | Custom(className: string)

  /** A field object: its class, the two flags the schema sets at bind
      time, and the creation counter used to order declarations. */
  datatype Field = Field(kind: FieldKind, loadOnly: bool, dumpOnly: bool, creationIndex: nat)

  /** A key of an error map: a field name (or `_schema`), or the index of
      an item of a collection whose per-field errors sit under it. */
  datatype ErrorKey = FieldKey(name: string) | IndexKey(index: nat)

  datatype ErrorEntry =
    | Messages(msgs: seq<string>)
    | ItemErrors(byField: map<string, seq<string>>)

  type ErrorMap = map<ErrorKey, ErrorEntry>

  /** Everything dump and load can raise. */
  datatype SchemaError =
    | ValidationFailed(messages: ErrorMap, fieldNames: seq<string>, fields: seq<Field>, data: Data)
    | AttributeMissing(attribute: string)   // AttributeError from getattr
    | KeyMissing(key: string)               // KeyError from obj[key]
    | NotIterable                           // TypeError from iterating a non-collection
    | FieldDoesNotExist(fieldName: string)  // ValueError from a field validator

  /** The arguments a processor receives: the data, `many` when it is a
      batch (pass_many) processor, the original input when it asked for it. */
  datatype ProcessorCall = ProcessorCall(data: Data, many: Option<bool>, original: Option<Data>)

  /** A pre/post dump/load hook; a `None` result leaves the data as it was. */
  datatype Processor = Processor(name: string, passOriginal: bool, fn: ProcessorCall -> Option<Data>)

  datatype Phase = PreDump | PostDump | PreLoad | PostLoad

  /** A validator for one field; `Some(msgs)` is the ValidationError it raises. */
  datatype FieldValidator = FieldValidator(name: string, fieldName: string, check: Data -> Option<seq<string>>)

  /** The arguments of one schema-validator run. */
  datatype ValidatorCall = ValidatorCall(data: Data, original: Option<Data>, many: Option<bool>, index: Option<nat>)

  /** A schema-level validator together with the unmarshaller's
      run_validator: `check` gives the messages of the ValidationError the
      run raises, the empty map when it does not raise. */
  datatype SchemaValidator = SchemaValidator(name: string, passOriginal: bool, check: ValidatorCall -> ErrorMap)

  /** The processor registry of a schema class: processors per
      (phase, pass_many), field validators, schema validators per pass_many. */
  datatype Hooks = Hooks(
    processors: (Phase, bool) -> seq<Processor>,
    fieldValidators: seq<FieldValidator>,
    schemaValidators: bool -> seq<SchemaValidator>)

  /** The arguments given to the marshaller and to the unmarshaller. */
  datatype MarshalCall = MarshalCall(data: Data, fields: map<string, Field>, many: bool, indexErrors: bool)
  datatype UnmarshalCall = UnmarshalCall(data: Data, fields: map<string, Field>, many: bool, partial: bool, indexErrors: bool)

  /** What a conversion leaves behind: its (partial) result, its error map,
      and the names and field objects that failed. */
  datatype Conversion = Conversion(data: Data, errors: ErrorMap, errorFieldNames: seq<string>, errorFields: seq<Field>)
}
