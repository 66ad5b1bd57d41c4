# marshmallow schema engine, modelled in Dafny

This project models the orchestration core of marshmallow 2's `Schema`
(`marshmallow/schema.py`). It covers four parts:

- **Class creation.** How a schema class is built: `SchemaOpts`
  validation of `class Meta`, `_get_fields`, `_get_fields_by_mro`,
  `get_declared_fields`, and how `SchemaMeta.__new__` inherits `ordered`.
- **Field selection.** How an instance selects and binds its fields:
  `_update_fields`, `__filter_fields` and `__set_field_attrs`.
- **Processors.** How pre/post dump/load processors run:
  `_invoke_processors`, `_invoke_dump_processors` and
  `_invoke_load_processors`.
- **Loading and validation.** How `_do_load` combines everything. It runs
  the field validators (`_invoke_field_validators`) and the schema
  validators (`_invoke_validators`), aggregates their errors, raises when
  strict, and runs post-load only on clean data. `dump`, `load` and
  `validate` are modelled on top of it.

The modules are:

- `types.dfy` (`Types`): the data model. Data are Python values with
  their truth value. Fields are value records with a class, the two
  bind-time flags and a creation index. The file also defines error maps,
  and the hooks and converters the engine calls.
- `declaration.dfy` (`Declaration`): class creation.
- `selection.dfy` (`Selection`): the field-name set algebra, `TYPE_MAPPING`,
  implicit field creation and the flags applied at bind time.
- `processors.dfy` (`Processors`): what a group of processors does to the
  data, and the two group orders.
- `errors.dfy` (`Errors`): how messages are stored, and how error maps
  are merged with `dict.update`.
- `validation.dfy` (`Validation`): what the field validators and the
  schema validators do.
- `schema.dfy` (`Schemas`): the class `BaseSchema`. Its fields are
  `declaredFields` and `fields`. Its loops are proved against the
  functions of the other modules.

The marshaller, the unmarshaller and the schema's registered hooks are
given to the model as functions. The marshaller and unmarshaller are
`Marshaller`/`Unmarshaller` in `marshalling.py`. The hooks are the
`__processors__` registry that `_resolve_processors` builds. The model
decides what these functions receive and what the schema does with their
results, as the source does.

Post-dump ordering follows the code: `_invoke_dump_processors`
(schema.py:741-749) runs the non-batch group before the batch group for
both pre-dump and post-dump. It does not run the batch group first.

In many-mode, `__filter_fields` returns the declared fields unchanged
only when the object is truthy yet yields no first item. The test is
`if obj and many`, so an empty list is falsy and goes through ordinary
filtering instead. Only a truthy empty iterable takes this path, which
the model calls a `Cursor`. On that path `only` and `exclude` are not
applied (`Selection.EmptyIterableKeepsDeclared`).

## Model

| member | source | states |
|---|---|---|
| Declaration.FieldsOf | marshmallow/schema.py:38-42 | a pair is collected exactly when the namespace holds that name bound to a field object |
| Declaration.GetFields | marshmallow/schema.py:31-49 | the collected pairs are a permutation of the namespace's field attributes, sorted by creation index when ordered and in namespace order otherwise; with pop the remaining namespace is exactly the non-field attributes |
| Declaration.SortByCreation | marshmallow/schema.py:44-47 | the result is sorted by creation index and is a permutation of the input |
| Declaration.InsertByCreation | marshmallow/schema.py:44-47 | inserting into a sorted list keeps it sorted and adds exactly the one pair |
| Declaration.InheritedNames | marshmallow/schema.py:54-74 | a name is inherited exactly when some class of the MRO other than the class itself declares it |
| Declaration.MostDerivedBaseWins | marshmallow/schema.py:54-74 | among the bases declaring a name, the most derived one provides the inherited field |
| Declaration.FieldsByMro | marshmallow/schema.py:54-74 | a pair is collected exactly when some class of the MRO other than the class itself declares that field |
| Declaration.DictOf | marshmallow/schema.py:133 | the dict built from pairs has exactly the names of the pairs |
| Declaration.DictOfConcat | marshmallow/schema.py:133 | a dict built from two concatenated lists is the union of the two dicts, the later list winning |
| Declaration.DictOfLastWins | marshmallow/schema.py:133 | each name holds the field of its last pair |
| Declaration.DictOfMember | marshmallow/schema.py:133 | every entry of the dict is one of the pairs |
| Declaration.DeclaredFields | marshmallow/schema.py:121-133 | the declared fields are the inherited names plus the class's own; a class field replaces an inherited one |
| Declaration.MakeOpts | marshmallow/schema.py:180-206 | options are accepted exactly when fields, additional and exclude are lists or tuples and fields and additional are not both set; each ValueError is raised in source order; the defaults are strict false, ordered false, index_errors true and empty include/load_only/dump_only |
| Declaration.InheritOrdered | marshmallow/schema.py:85-97 | the class is ordered exactly when its own Meta says so, or otherwise when the first direct base whose Meta sets `ordered` sets it true |
| Declaration.NewSchemaClass | marshmallow/schema.py:84-117 | class creation fails exactly when the Meta options are invalid; otherwise the declared fields are inherited, own and included fields with included over own over inherited, and the namespace keeps only the non-field attributes |
| Selection.SelectFieldNames | marshmallow/schema.py:642-660 | the names are only ∩ fields, only, fields, or declared ∪ additional (first applicable rule), minus every excluded name |
| Selection.InstanceOrMeta | marshmallow/schema.py:334-335 | the instance's load_only/dump_only set wins when non-empty; an empty instance set falls back to the Meta one |
| Selection.FieldClassFor | marshmallow/schema.py:262-277 | text and bytes map exactly to String; tuple, list and set map exactly to Raw; None, dict and other objects, which the mapping does not list, map exactly to the generic Field; no type maps to a custom field class |
| Selection.PrototypeOf | marshmallow/schema.py:706-716 | outside many-mode or for a falsy object the object is its own prototype; in many-mode a non-empty collection gives its first item, exactly a truthy empty iterable gives back the declared fields; it fails only for a truthy non-collection |
| Selection.ImplicitField | marshmallow/schema.py:722-736 | an undeclared name fails exactly when the object is truthy and lacks the attribute, with KeyError for a mapping and AttributeError otherwise; otherwise a falsy object gives a generic field and a truthy one the TYPE_MAPPING class of the attribute's type, with no flags set |
| Selection.Filtered | marshmallow/schema.py:698-739 | filtering yields exactly the requested names, or the declared fields on the empty-iterable path; each declared name maps to its declared field and, on a representative object, each undeclared name to the field `ImplicitField` infers from it; it fails exactly when the prototype cannot be taken or some undeclared name cannot be resolved |
| Selection.FalsyObjectGivesGenericFields | marshmallow/schema.py:718-736 | with a falsy object, declared names keep their declared field and every other name gets a generic `Field` |
| Selection.MissingAttributeRaises | marshmallow/schema.py:724-732 | an undeclared name missing from a truthy object makes filtering raise KeyError for a mapping and AttributeError otherwise |
| Selection.ManyModeUsesFirstItem | marshmallow/schema.py:706-716 | in many-mode a non-empty list is filtered as its first item |
| Selection.EmptyIterableKeepsDeclared | marshmallow/schema.py:706-715 | in many-mode an iterable yielding nothing gives back all declared fields |
| Schemas.SelectedFieldsHonourExclude | marshmallow/schema.py:640-666 | outside the empty-iterable path, the fields in use are exactly the selected names and contain no excluded name |
| Schemas.BindFields | marshmallow/schema.py:672-696 | binding keeps every field's class and creation index and sets load_only/dump_only exactly for names in those sets |
| Schemas.BaseSchema.constructor | marshmallow/schema.py:323-353 | strict is the instance flag or the Meta one, load_only/dump_only come from the instance or Meta, and the fields are the selected names bound, undeclared ones as generic fields |
| Schemas.BaseSchema.FilterFields | marshmallow/schema.py:698-739 | the loop succeeds exactly when filtering can resolve every name, returns that map, and otherwise raises one of the possible lookup errors |
| Schemas.BaseSchema.SetFieldAttrs | marshmallow/schema.py:672-696 | every field of the result is bound, and the declared fields shared with it are bound in place too |
| Schemas.BaseSchema.UpdateFields | marshmallow/schema.py:640-666 | on success the fields in use are the filtered selection, bound, and the class invariant holds; on a lookup error nothing changes |
| Processors.ManyModeMapsItems | marshmallow/schema.py:840-845 | in many-mode a non-batch group maps the collection to a list of the same length, each item run through the whole chain |
| Processors.SingleModeIsChain | marshmallow/schema.py:846-850 | outside many-mode a non-batch group is the plain chain and never fails |
| Processors.DecliningProcessorsKeepData | marshmallow/schema.py:834-850 | processors returning None leave the data as it was, except that a non-empty non-batch group in many-mode turns a collection into a list of the same items |
| Schemas.ProcessorsFailOnlyNotIterable | marshmallow/schema.py:827-851 | a processor group fails only by iterating a non-collection |
| Schemas.PostProcessingNeverRaisesValidation | marshmallow/schema.py:741-758 | dump and load processing fail only with that error, never with a validation error |
| Schemas.BaseSchema.InvokeProcessors | marshmallow/schema.py:827-851 | the loop computes the chain of the (phase, pass_many) group |
| Schemas.BaseSchema.InvokeDumpProcessors | marshmallow/schema.py:741-749 | the non-batch group runs, then the batch group |
| Schemas.BaseSchema.InvokeLoadProcessors | marshmallow/schema.py:751-758 | the batch group runs, then the non-batch group |
| Errors.StoreMessages | marshmallow/schema.py:781-797 | storing appends the messages under the field (under the item's index when given), keeps every earlier message, leaves other keys alone and leaves the messages of every other field at that place unchanged |
| Errors.KeepsTransitive | marshmallow/schema.py:760-798 | keeping earlier messages is transitive across validators |
| Errors.MergeLastWins | marshmallow/schema.py:800-825 | a merged error map holds a key exactly when some raised map does, with the value of the last one |
| Validation.ValidateItemsRecordsRejections | marshmallow/schema.py:772-788 | in many-mode a field validator records one failure, under its field name, per item that has the key and fails; items without the key, or which pass, change nothing; earlier errors are kept |
| Validation.UnindexedMessagesInItemOrder | marshmallow/schema.py:772-788 | without index_errors, the messages of the failing items are appended under the field in item order |
| Validation.CallAndStore | marshmallow/schema.py:781-797 | a passing validator changes nothing; a failing one appends its messages under the field (under the item's index when given) and records the field's name and object, keeping every earlier message |
| Validation.RejectedItemIsIndexed | marshmallow/schema.py:781-791 | with index_errors, the messages of a failing item end its list under that item's index |
| Validation.FieldValidatorsKeepErrors | marshmallow/schema.py:760-798 | field validators never drop a stored message |
| Validation.UnknownFieldFails | marshmallow/schema.py:766-771 | a validator for a name neither selected nor declared makes the run fail |
| Validation.RunsPerItemInManyMode | marshmallow/schema.py:808-817 | in many-mode a non-batch schema validator runs once per item, every other validator once |
| Schemas.BaseSchema.InvokeFieldValidators | marshmallow/schema.py:760-798 | the loop computes the field-validator run |
| Schemas.BaseSchema.RunSchemaValidator | marshmallow/schema.py:803-823 | one validator's runs update the collected errors with each map it raises, in order |
| Schemas.BaseSchema.InvokeValidators | marshmallow/schema.py:800-825 | the loop returns the merge of every map raised by the group |
| Schemas.FinishLoad | marshmallow/schema.py:621-638 | a strict load raises a validation error exactly when errors were collected, carrying them and the input; otherwise it returns them; when errors were collected or postprocess is off, a load that does not raise returns exactly the unmarshalled data with the errors; with no errors and postprocess set, the result is the post-load processors' output |
| Schemas.LoadAfterUnmarshal | marshmallow/schema.py:609-638 | loading after unmarshalling fails only for a field validator on an unknown field, for collected errors on a strict schema (carrying the input), or for a post-load processor iterating a non-collection |
| Schemas.BaseSchema.ConcludeLoad | marshmallow/schema.py:622-638 | the method computes the specified ending of `_do_load` |
| Schemas.ValidateNeverPostLoads | marshmallow/schema.py:563-576 | without postprocessing a load raises only the strict validation error and otherwise returns the unmarshalled data with its errors |
| Schemas.LoadCollectsAllErrors | marshmallow/schema.py:609-638 | on a schema that is not strict, for load and for validate alike, any key the unmarshaller or the field validators stored, or a schema validator raised, makes loading succeed with that key in the returned errors; validate always succeeds |
| Schemas.LoadRejectsUnknownValidatorField | marshmallow/schema.py:766-771 | a field validator on an unknown name makes loading fail with that error |
| Schemas.FieldValidatorErrors | marshmallow/schema.py:760-798 | field validators fail only with the unknown-field error |
| Schemas.BaseSchema.LoadConverted | marshmallow/schema.py:609-638 | after unmarshalling, the method runs the validators then raises, post-loads or returns as specified |
| Schemas.BaseSchema.DoLoad | marshmallow/schema.py:580-638 | on a schema whose fields in use are bound (the class invariant), `_do_load` is pre-load, unmarshal, then the specified validation and ending, with many/partial defaulting to the instance's |
| Schemas.BaseSchema.Load | marshmallow/schema.py:525-540 | load is `_do_load` with postprocessing |
| Schemas.BaseSchema.Validate | marshmallow/schema.py:563-576 | validate returns exactly the errors of `_do_load` without postprocessing |
| Schemas.FinishDump | marshmallow/schema.py:483-505 | a strict dump raises exactly when the marshaller reported errors, carrying them and its partial data; otherwise the marshaller's errors are returned and the result is the post-dump processors' output, even when there were errors |
| Schemas.BaseSchema.MarshalAndFinish | marshmallow/schema.py:483-505 | on a schema whose fields in use are bound (the class invariant), the method marshals the processed object with those fields and computes the specified ending of `dump` |
| Schemas.BaseSchema.Dump | marshmallow/schema.py:454-505 | pre-dump, optional field update against the processed object, marshal, then raise or post-dump; the fields change only through `_update_fields` and the class invariant holds |

## Left out

- Tuples and sets are not `Data` values: a Python list is `List`, any
  other truthy iterable without indexing is `Cursor`, and `Scalar` is
  restricted to leaf types (`LeafTag`). The tuple and set entries of
  `TYPE_MAPPING` are therefore reached only through `FieldClassFor`, not
  through a value's type.
- Many-mode on a non-collection differs from the source. Processors fail
  with the not-iterable error. Field and schema validators see no items:
  the unmarshaller's many-mode result is a list.
- Iterating a string or a mapping as a collection is not modelled: a
  string's characters, a mapping's keys. In `__filter_fields` the
  prototype of a truthy string is the string itself, and a mapping
  raises KeyError for index 0.
- `Lookup` does not model an item that is not a mapping: it counts as
  lacking the key. Python would raise TypeError from `item[field_name]`.
- The internals of the marshaller and the unmarshaller
  (`marshalling.py`) are not modelled. That file is not part of this
  model, so they are functions of their arguments. The model also omits
  their `prefix`, `accessor` (`get_attribute`) and `dict_class`
  arguments.
- The marshaller is assumed to raise its ValidationError exactly when
  its error map is non-empty (schema.py:483-500). Its raising rule lives
  in `marshalling.py`, which is not part of this model.
- `Unmarshaller.run_validator` is folded into each schema validator's
  `check`. Its in-place storing into the unmarshaller's errors, and its
  overwriting of `error_field_names`/`error_fields`, are not modelled.
- `call_and_store` is modelled by its storing rule: messages are
  appended under the field, inside the item's map when indexed. Nested
  error dicts under a field are not modelled.
- `_resolve_processors` and the `__processors__` registry are not
  modelled: the resolved processors and validators are given (`Hooks`).
- `dumps` and `loads` are left out: they are JSON encoding around
  `dump` and `load`.
- The `extra` argument and `_postprocess`'s extra merging are left out.
  So are `context`, `prefix`, `__error_handler__`, `__accessor__`, the
  deprecated decorators and the deprecation warnings.
- `handle_error` and `on_bind_field` are no-ops in the source and are
  not modelled.
- `Field._add_to_schema` is not modelled. It sets the field's name and
  parent, which the model does not represent.
- The TypeError re-raised in `__set_field_attrs` for a field declared as
  a class is left out. Every field in the model is an instance.
- Turning a generator into a list in `dump` is left out.
- `copy.deepcopy` of the declared fields is not modelled. A fresh
  instance simply starts from the class's map.
- class_registry registration is left out.
- The iteration order of `OrderedDict`/`OrderedSet` when `ordered` is set
  is not modelled. Field maps and name sets are unordered. Which lookup
  error `__filter_fields` raises first therefore depends on set order,
  and the model states it as "one of the missing names".
- Schemas.BaseSchema.SetFieldAttrs: object identity between a field in
  use and a declared field is approximated. The model treats them as the
  same object when they sit under the same name with equal values. A
  field object shared under two different names is not modelled.
- Implicit fields are created with creation index 0. The global creation
  counter is not modelled.
- Declaration.SortByCreation does not state that sorting is stable
  (Python's `sorted` is).
- Schemas.ProcessorsFailOnlyNotIterable: a processor cannot raise in
  the model. Its function returns `None` to keep the data
  (`utils.if_none`) or returns the new data. An exception that a
  processor raises is not modelled. The source lets such an exception
  propagate out of `dump` (schema.py:478, 503) and `_do_load`
  (schema.py:595, 636).
- Schemas.PostProcessingNeverRaisesValidation: for the same reason, a
  ValidationError raised by a post-dump or post-load processor is not
  modelled. This lemma rests on that, and so do the "raises a validation
  error exactly when" clauses of FinishDump, FinishLoad and
  LoadAfterUnmarshal.
- Exceptions other than ValidationError raised by validators are not
  modelled. A validator's failure is its messages.
