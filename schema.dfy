/** A schema instance: its options, the declared fields it copied from its
    class, the fields it currently works with, and the dump / load / validate
    pipelines that run the processors, the (un)marshaller and the
    validators in order. The marshaller and the unmarshaller are given as
    functions; the schema only decides what they receive and what happens
    to what they return. */
module Schemas {
  import opened Types
  import opened Declaration
  import opened Selection
  import opened Processors
  import opened Errors
  import opened Validation

  /** `many = self.many if many is None else bool(many)`. */
  function OrDefault(given: Option<bool>, default: bool): bool {
    if given.Some? then given.value else default
  }

  /** The fields of `m` after `__set_field_attrs` bound those named in
      `names`: each keeps its class and creation index, and gets the
      load_only / dump_only flag when its name is listed. */
  function BindFields(m: map<string, Field>, names: set<string>, loadOnly: set<string>, dumpOnly: set<string>): (r: map<string, Field>)
    ensures r.Keys == m.Keys
    ensures forall n :: n in m ==>
      r[n].kind == m[n].kind && r[n].creationIndex == m[n].creationIndex &&
      (r[n].loadOnly <==> m[n].loadOnly || (n in names && n in loadOnly)) &&
      (r[n].dumpOnly <==> m[n].dumpOnly || (n in names && n in dumpOnly))
  {
    map n | n in m :: if n in names then Bind(m[n], n, loadOnly, dumpOnly) else m[n]
  }

  /** The names under which `ret` holds the very field object that the
      declared-field dictionary holds (so binding one binds the other). */
  function SharedWith(ret: map<string, Field>, declared: map<string, Field>): set<string> {
    set n | n in ret && n in declared && ret[n] == declared[n]
  }

  /** Unless an iterable that yields nothing made filtering give up, the
      fields in use after `_update_fields` are exactly the selected names,
      so no excluded name is among them. */
  lemma SelectedFieldsHonourExclude(only: seq<string>, optFields: seq<string>, additional: seq<string>,
                                    declared: map<string, Field>, excludes: set<string>, obj: Data, many: bool)
    requires PrototypeOf(obj, many) != Success(AllDeclared)
    requires Filtered(declared, SelectFieldNames(only, optFields, additional, declared.Keys, excludes), obj, many).Some?
    ensures var names := SelectFieldNames(only, optFields, additional, declared.Keys, excludes);
            var m := Filtered(declared, names, obj, many).value;
            m.Keys == names && m.Keys !! excludes
  {
  }

  // ----- what dump and load do once the converter has run -----

  /** The end of `dump`: a strict schema re-raises the marshaller's error,
      which it raises exactly when its error map is not empty; otherwise
      the post-dump processors run on the (partial) result whether or not
      there were errors, and the marshaller's errors are returned. */
  function FinishDump(hooks: Hooks, strict: bool, conv: Conversion, many: bool, obj: Data): (r: Result<(Data, ErrorMap), SchemaError>)
    ensures r.Failure? && r.error.ValidationFailed? <==> strict && conv.errors != map[]
    ensures r.Failure? && r.error.ValidationFailed? ==> r.error.messages == conv.errors && r.error.data == conv.data
    ensures r.Success? ==> r.value.1 == conv.errors &&
                           Success(r.value.0) == DumpProcessing(hooks, PostDump, conv.data, many, obj)
    ensures !(strict && conv.errors != map[]) ==>
              (r.Success? <==> DumpProcessing(hooks, PostDump, conv.data, many, obj).Success?)
  {
    PostProcessingNeverRaisesValidation(hooks, PostDump, conv.data, many, obj);
    if strict && conv.errors != map[] then
      Failure(ValidationFailed(conv.errors, conv.errorFieldNames, conv.errorFields, conv.data))
    else match DumpProcessing(hooks, PostDump, conv.data, many, obj)
      case Failure(e) => Failure(e)
      case Success(d) => Success((d, conv.errors))
  }

  /** The end of `_do_load`: a strict schema raises a ValidationError
      exactly when errors were collected, carrying them and the input; a
      schema that is not strict returns them; the result is the
      unmarshalled data, changed only by the post-load processors, which
      run only when nothing failed and postprocessing was asked for. */
  function FinishLoad(hooks: Hooks, strict: bool, data: Data, result: Data, errors: ErrorMap,
                      names: seq<string>, failed: seq<Field>, many: bool, postprocess: bool): (r: Result<(Data, ErrorMap), SchemaError>)
    ensures r.Failure? && r.error.ValidationFailed? <==> strict && errors != map[]
    ensures r.Failure? && r.error.ValidationFailed? ==> r.error.messages == errors && r.error.data == data
    ensures r.Success? ==> r.value.1 == errors
    ensures errors != map[] || !postprocess ==> r.Success? ==> r.value.0 == result
    ensures errors == map[] && postprocess ==>
              (r.Success? <==> LoadProcessing(hooks, PostLoad, result, many, data).Success?)
    ensures errors == map[] && postprocess && r.Success? ==>
              Success(r.value.0) == LoadProcessing(hooks, PostLoad, result, many, data)
    ensures !(strict && errors != map[]) && !(errors == map[] && postprocess) ==> r == Success((result, errors))
  {
    PostProcessingNeverRaisesValidation(hooks, PostLoad, result, many, data);
    if errors != map[] && strict then Failure(ValidationFailed(errors, names, failed, data))
    else if errors == map[] && postprocess then
      match LoadProcessing(hooks, PostLoad, result, many, data)
      case Failure(e) => Failure(e)
      case Success(d) => Success((d, errors))
    else Success((result, errors))
  }

  /** `_do_load` after the unmarshaller returned `u`: field validators on
      its result, then batch and non-batch schema validators, whose error
      maps update the unmarshaller's. Loading then fails only for a field
      validator on an unknown field, for collected errors on a strict
      schema, or for a post-load processor iterating a non-collection. */
  function LoadAfterUnmarshal(hooks: Hooks, fields: map<string, Field>, declared: map<string, Field>, indexErrors: bool,
                              strict: bool, u: Conversion, data: Data, many: bool, postprocess: bool): (r: Result<(Data, ErrorMap), SchemaError>)
    ensures RunFieldValidators(hooks.fieldValidators, u, fields, declared, u.data, many, indexErrors).Failure? ==>
              r.Failure? && r.error.FieldDoesNotExist?
    ensures r.Failure? ==>
              r.error.FieldDoesNotExist? ||
              (strict && r.error.ValidationFailed? && r.error.data == data) ||
              (postprocess && r.error == NotIterable)
  {
    FieldValidatorErrors(hooks.fieldValidators, u, fields, declared, u.data, many, indexErrors);
    match RunFieldValidators(hooks.fieldValidators, u, fields, declared, u.data, many, indexErrors)
    case Failure(e) => Failure(e)
    case Success(st) =>
      var errors := st.errors + SchemaValidation(hooks.schemaValidators(true), true, u.data, data, many)
                              + SchemaValidation(hooks.schemaValidators(false), false, u.data, data, many);
      PostProcessingNeverRaisesValidation(hooks, PostLoad, u.data, many, data);
      FinishLoad(hooks, strict, data, u.data, errors, st.errorFieldNames, st.errorFields, many, postprocess)
  }

  /** Processors only ever fail by iterating over something that is not
      a collection; they never raise a ValidationError. */
  lemma PostProcessingNeverRaisesValidation(hooks: Hooks, phase: Phase, data: Data, many: bool, original: Data)
    ensures DumpProcessing(hooks, phase, data, many, original).Failure? ==>
            DumpProcessing(hooks, phase, data, many, original).error == NotIterable
    ensures LoadProcessing(hooks, phase, data, many, original).Failure? ==>
            LoadProcessing(hooks, phase, data, many, original).error == NotIterable
  {
    ProcessorsFailOnlyNotIterable(hooks.processors(phase, false), false, data, many, original);
    ProcessorsFailOnlyNotIterable(hooks.processors(phase, true), true, data, many, original);
    var a := ApplyProcessors(hooks.processors(phase, false), false, data, many, original);
    if a.Success? {
      ProcessorsFailOnlyNotIterable(hooks.processors(phase, true), true, a.value, many, original);
    }
    var b := ApplyProcessors(hooks.processors(phase, true), true, data, many, original);
    if b.Success? {
      ProcessorsFailOnlyNotIterable(hooks.processors(phase, false), false, b.value, many, original);
    }
  }

  lemma {:induction false} ProcessorsFailOnlyNotIterable(ps: seq<Processor>, passMany: bool, data: Data, many: bool, original: Data)
    ensures ApplyProcessors(ps, passMany, data, many, original).Failure? ==>
            ApplyProcessors(ps, passMany, data, many, original).error == NotIterable
    decreases |ps|
  {
    if ps != [] {
      var s := Step(ps[0], passMany, data, many, original);
      if s.Success? {
        ProcessorsFailOnlyNotIterable(ps[1..], passMany, s.value, many, original);
      }
    }
  }

  /** `validate` (postprocess off) never runs a post-load processor: it
      cannot fail except by raising the collected errors when strict, and
      it hands back exactly the collected errors. */
  lemma ValidateNeverPostLoads(hooks: Hooks, strict: bool, data: Data, result: Data, errors: ErrorMap,
                               names: seq<string>, failed: seq<Field>, many: bool)
    ensures var r := FinishLoad(hooks, strict, data, result, errors, names, failed, many, false);
            r == if strict && errors != map[] then Failure(ValidationFailed(errors, names, failed, data))
                 else Success((result, errors))
  {
  }

  /** On a schema that is not strict, with or without postprocessing, the
      error map `_do_load` returns holds the key of every message the
      unmarshaller or the field validators stored, and every key a schema
      validator raised; any such key means loading returns its errors
      rather than running the post-load processors. */
  lemma {:induction false} LoadCollectsAllErrors(hooks: Hooks, fields: map<string, Field>, declared: map<string, Field>,
                                                 indexErrors: bool, u: Conversion, data: Data, many: bool,
                                                 postprocess: bool, k: ErrorKey)
    requires WellShaped(u.errors)
    requires RunFieldValidators(hooks.fieldValidators, u, fields, declared, u.data, many, indexErrors).Success?
    ensures var r := LoadAfterUnmarshal(hooks, fields, declared, indexErrors, false, u, data, many, postprocess);
            var batch := ValidatorOutcomes(hooks.schemaValidators(true), true, u.data, data, many);
            var single := ValidatorOutcomes(hooks.schemaValidators(false), false, u.data, data, many);
            var st := RunFieldValidators(hooks.fieldValidators, u, fields, declared, u.data, many, indexErrors);
            (!postprocess ==> r.Success?) &&
            (k in u.errors || k in st.value.errors ||
             (exists i :: 0 <= i < |batch| && k in batch[i]) ||
             (exists i :: 0 <= i < |single| && k in single[i]) ==>
               r.Success? && k in r.value.1)
  {
    FieldValidatorsKeepErrors(hooks.fieldValidators, u, fields, declared, u.data, many, indexErrors);
    MergeLastWins(ValidatorOutcomes(hooks.schemaValidators(true), true, u.data, data, many), k);
    MergeLastWins(ValidatorOutcomes(hooks.schemaValidators(false), false, u.data, data, many), k);
    var st := RunFieldValidators(hooks.fieldValidators, u, fields, declared, u.data, many, indexErrors).value;
    var errors := st.errors + SchemaValidation(hooks.schemaValidators(true), true, u.data, data, many)
                            + SchemaValidation(hooks.schemaValidators(false), false, u.data, data, many);
    if k in errors {
      assert errors != map[];
    }
  }

  /** A field validator registered for a name that is neither selected
      nor declared makes loading fail with that error. */
  lemma LoadRejectsUnknownValidatorField(hooks: Hooks, fields: map<string, Field>, declared: map<string, Field>,
                                         indexErrors: bool, strict: bool, u: Conversion, data: Data, many: bool,
                                         postprocess: bool, k: nat)
    requires k < |hooks.fieldValidators|
    requires hooks.fieldValidators[k].fieldName !in fields && hooks.fieldValidators[k].fieldName !in declared
    ensures var r := LoadAfterUnmarshal(hooks, fields, declared, indexErrors, strict, u, data, many, postprocess);
            r.Failure? && r.error.FieldDoesNotExist?
  {
    UnknownFieldFails(hooks.fieldValidators, u, fields, declared, u.data, many, indexErrors, k);
    FieldValidatorErrors(hooks.fieldValidators, u, fields, declared, u.data, many, indexErrors);
  }

  lemma {:induction false} FieldValidatorErrors(vs: seq<FieldValidator>, st: Conversion, fields: map<string, Field>,
                                                declared: map<string, Field>, data: Data, many: bool, indexErrors: bool)
    ensures var r := RunFieldValidators(vs, st, fields, declared, data, many, indexErrors);
            r.Failure? ==> r.error.FieldDoesNotExist?
    decreases |vs|
  {
    if vs != [] {
      var one := RunFieldValidator(st, vs[0], fields, declared, data, many, indexErrors);
      if one.Success? {
        FieldValidatorErrors(vs[1..], one.value, fields, declared, data, many, indexErrors);
      }
    }
  }

  class BaseSchema {
    const opts: SchemaOpts
    const hooks: Hooks
    const many: bool
    const only: seq<string>
    const exclude: seq<string>
    const strict: bool
    const loadOnly: set<string>
    const dumpOnly: set<string>
    const partial: bool
    /** The marshaller and the unmarshaller, as functions of their arguments. */
    const marshal: MarshalCall -> Conversion
    const unmarshal: UnmarshalCall -> Conversion

    var declaredFields: map<string, Field>
    var fields: map<string, Field>

    /** The fields in use are bound: a field in use under a declared name
        is that declared field, and it carries the load_only / dump_only
        flags its name calls for. */
    ghost predicate Valid()
      reads this
    {
      (forall n :: n in fields && n in declaredFields ==> fields[n] == declaredFields[n]) &&
      (forall n :: n in fields ==> (n in loadOnly ==> fields[n].loadOnly) && (n in dumpOnly ==> fields[n].dumpOnly))
    }

    /** The names `_update_fields` selects with the current declared fields. */
    function SelectedNames(): set<string>
      reads this
    {
      SelectFieldNames(only, opts.fields, opts.additional, declaredFields.Keys, SetOf(opts.exclude) + SetOf(exclude))
    }

    /** `Schema(only=..., exclude=..., strict=..., many=..., load_only=...,
        dump_only=..., partial=...)`: copies the class's declared fields,
        resolves the options against Meta, and selects and binds the
        fields with no object to look at. */
    constructor (cls: SchemaClass, many: bool, only: seq<string>, exclude: seq<string>, strict: bool,
                 loadOnly: seq<string>, dumpOnly: seq<string>, partial: bool,
                 marshal: MarshalCall -> Conversion, unmarshal: UnmarshalCall -> Conversion)
      ensures this.opts == cls.opts && this.hooks == cls.hooks
      ensures this.many == many && this.only == only && this.exclude == exclude && this.partial == partial
      ensures this.strict == (strict || cls.opts.strict)
      ensures this.loadOnly == InstanceOrMeta(loadOnly, cls.opts.loadOnly)
      ensures this.dumpOnly == InstanceOrMeta(dumpOnly, cls.opts.dumpOnly)
      ensures this.marshal == marshal && this.unmarshal == unmarshal
      ensures Valid()
      ensures var names := SelectFieldNames(only, cls.opts.fields, cls.opts.additional, cls.declaredFields.Keys,
                                            SetOf(cls.opts.exclude) + SetOf(exclude));
              var chosen := map n | n in names :: if n in cls.declaredFields then cls.declaredFields[n] else NewField(Generic);
              fields == BindFields(chosen, names, this.loadOnly, this.dumpOnly) &&
              declaredFields == BindFields(cls.declaredFields, SharedWith(chosen, cls.declaredFields), this.loadOnly, this.dumpOnly)
    {
      this.opts := cls.opts;
      this.hooks := cls.hooks;
      this.declaredFields := cls.declaredFields;
      this.many := many;
      this.only := only;
      this.exclude := exclude;
      this.strict := strict || cls.opts.strict;
      this.loadOnly := InstanceOrMeta(loadOnly, cls.opts.loadOnly);
      this.dumpOnly := InstanceOrMeta(dumpOnly, cls.opts.dumpOnly);
      this.partial := partial;
      this.fields := map[];
      this.marshal := marshal;
      this.unmarshal := unmarshal;
      new;
      FalsyObjectGivesGenericFields(declaredFields, SelectedNames(), Null, many);
      var _ := UpdateFields(Null, many);
    }

    /** `__filter_fields`: the selected names mapped to their declared
        field, or to a field inferred from the representative object. */
    method FilterFields(names: set<string>, obj: Data, many: bool) returns (r: Result<map<string, Field>, SchemaError>)
      ensures r.Success? <==> Filtered(declaredFields, names, obj, many).Some?
      ensures r.Success? ==> r.value == Filtered(declaredFields, names, obj, many).value
      ensures r.Failure? ==> FilterError(declaredFields, names, obj, many, r.error)
    {
      var choice := PrototypeOf(obj, many);
      if choice.Failure? {
        return Failure(choice.error);
      }
      if choice.value.AllDeclared? {
        return Success(declaredFields);
      }
      var proto := choice.value.obj;
      var ret: map<string, Field> := map[];
      var todo := names;
      while todo != {}
        invariant todo <= names
        invariant ret.Keys == names - todo
        invariant forall n :: n in ret && n !in declaredFields ==> ImplicitField(proto, n).Success?
        invariant forall n :: n in ret ==>
          ret[n] == if n in declaredFields then declaredFields[n] else ImplicitField(proto, n).value
        decreases todo
      {
        var key :| key in todo;
        if key in declaredFields {
          ret := ret[key := declaredFields[key]];
        } else {
          var f := ImplicitField(proto, key);
          if f.Failure? {
            return Failure(f.error);
          }
          ret := ret[key := f.value];
        }
        todo := todo - {key};
      }
      assert Resolvable(declaredFields, names, proto);
      assert ret == Resolve(declaredFields, names, proto);
      r := Success(ret);
    }

    /** `__set_field_attrs`: sets the flags on every field of `ret`; a
        field shared with the declared fields is updated there too. */
    method SetFieldAttrs(ret: map<string, Field>) returns (bound: map<string, Field>)
      modifies this`declaredFields
      ensures bound == BindFields(ret, ret.Keys, loadOnly, dumpOnly)
      ensures declaredFields == BindFields(old(declaredFields), SharedWith(ret, old(declaredFields)), loadOnly, dumpOnly)
    {
      ghost var declared0 := declaredFields;
      var shared := SharedWith(ret, declaredFields);
      bound := ret;
      var todo := ret.Keys;
      while todo != {}
        invariant todo <= ret.Keys
        invariant bound.Keys == ret.Keys && declaredFields.Keys == declared0.Keys
        invariant forall n :: n in ret ==> bound[n] == if n in todo then ret[n] else Bind(ret[n], n, loadOnly, dumpOnly)
        invariant forall n :: n in declared0 ==>
          declaredFields[n] == if n in shared && n !in todo then Bind(declared0[n], n, loadOnly, dumpOnly) else declared0[n]
        decreases todo
      {
        var name :| name in todo;
        var f := bound[name];
        if name in loadOnly {
          f := f.(loadOnly := true);
        }
        if name in dumpOnly {
          f := f.(dumpOnly := true);
        }
        bound := bound[name := f];
        if name in shared {
          declaredFields := declaredFields[name := f];
        }
        todo := todo - {name};
      }
    }

    /** `_update_fields`: select the names, filter them against `obj`,
        bind the result and make it the fields in use. When filtering
        raises, nothing changes. */
    method UpdateFields(obj: Data, many: bool) returns (r: Result<map<string, Field>, SchemaError>)
      requires Valid()
      modifies this`declaredFields, this`fields
      ensures Valid()
      ensures var names := old(SelectedNames());
              var f := Filtered(old(declaredFields), names, obj, many);
              (r.Success? <==> f.Some?) &&
              (r.Success? ==>
                 r.value == fields &&
                 fields == BindFields(f.value, f.value.Keys, loadOnly, dumpOnly) &&
                 declaredFields == BindFields(old(declaredFields), SharedWith(f.value, old(declaredFields)), loadOnly, dumpOnly)) &&
              (r.Failure? ==>
                 FilterError(old(declaredFields), names, obj, many, r.error) &&
                 fields == old(fields) && declaredFields == old(declaredFields))
    {
      var excludes := SetOf(opts.exclude) + SetOf(exclude);
      var names := SelectFieldNames(only, opts.fields, opts.additional, declaredFields.Keys, excludes);
      var ret := FilterFields(names, obj, many);
      if ret.Failure? {
        return Failure(ret.error);
      }
      ghost var declared0 := declaredFields;
      var bound := SetFieldAttrs(ret.value);
      fields := bound;
      r := Success(fields);
    }

    /** `_invoke_processors` for one (phase, pass_many) group. */
    method InvokeProcessors(phase: Phase, passMany: bool, data: Data, many: bool, original: Data)
      returns (r: Result<Data, SchemaError>)
      ensures r == ApplyProcessors(hooks.processors(phase, passMany), passMany, data, many, original)
    {
      var ps := hooks.processors(phase, passMany);
      var d := data;
      var i := 0;
      while i < |ps|
        invariant 0 <= i <= |ps|
        invariant ApplyProcessors(ps[i..], passMany, d, many, original) == ApplyProcessors(ps, passMany, data, many, original)
      {
        var p := ps[i];
        assert ps[i..][0] == p && ps[i..][1..] == ps[i + 1..];
        if passMany {
          d := IfNone(p.fn(ProcessorCall(d, Some(many), OriginalArg(p, original))), d);
        } else if many {
          var xs := Items(d);
          if xs.None? {
            return Failure(NotIterable);
          }
          var items := xs.value;
          var out: seq<Data> := [];
          var j := 0;
          while j < |items|
            invariant 0 <= j <= |items| && |out| == j
            invariant forall k :: 0 <= k < j ==> out[k] == ApplyToItem(p, items[k], original)
          {
            out := out + [ApplyToItem(p, items[j], original)];
            j := j + 1;
          }
          assert out == seq(|items|, k requires 0 <= k < |items| => ApplyToItem(p, items[k], original));
          d := List(out);
        } else {
          d := ApplyToItem(p, d, original);
        }
        i := i + 1;
      }
      r := Success(d);
    }

    /** `_invoke_dump_processors`: the non-batch group, then the batch group. */
    method InvokeDumpProcessors(phase: Phase, data: Data, many: bool, original: Data) returns (r: Result<Data, SchemaError>)
      ensures r == DumpProcessing(hooks, phase, data, many, original)
    {
      r := InvokeProcessors(phase, false, data, many, original);
      if r.Success? {
        r := InvokeProcessors(phase, true, r.value, many, original);
      }
    }

    /** `_invoke_load_processors`: the batch group, then the non-batch group. */
    method InvokeLoadProcessors(phase: Phase, data: Data, many: bool, original: Data) returns (r: Result<Data, SchemaError>)
      ensures r == LoadProcessing(hooks, phase, data, many, original)
    {
      r := InvokeProcessors(phase, true, data, many, original);
      if r.Success? {
        r := InvokeProcessors(phase, false, r.value, many, original);
      }
    }

    /** `_invoke_field_validators`, threading the unmarshaller's state. */
    method InvokeFieldValidators(st: Conversion, data: Data, many: bool) returns (r: Result<Conversion, SchemaError>)
      ensures r == RunFieldValidators(hooks.fieldValidators, st, fields, declaredFields, data, many, opts.indexErrors)
    {
      var vs := hooks.fieldValidators;
      var cur := st;
      var i := 0;
      while i < |vs|
        invariant 0 <= i <= |vs|
        invariant RunFieldValidators(vs[i..], cur, fields, declaredFields, data, many, opts.indexErrors) ==
                  RunFieldValidators(vs, st, fields, declaredFields, data, many, opts.indexErrors)
      {
        var v := vs[i];
        assert vs[i..][0] == v && vs[i..][1..] == vs[i + 1..];
        ghost var before := cur;
        if v.fieldName !in fields {
          if v.fieldName !in declaredFields {
            return Failure(FieldDoesNotExist(v.fieldName));
          }
        } else {
          var field := fields[v.fieldName];
          if many {
            var items := ItemsOrEmpty(data);
            var idx := 0;
            while idx < |items|
              invariant 0 <= idx <= |items|
              invariant cur == ValidateItems(before, v, field, items[..idx], opts.indexErrors)
            {
              assert items[..idx + 1][..idx] == items[..idx];
              var value := Lookup(items[idx], v.fieldName);
              if value.Some? {
                cur := CallAndStore(cur, v, value.value, field, if opts.indexErrors then Some(idx) else None);
              }
              idx := idx + 1;
            }
            assert items[..|items|] == items;
          } else {
            var value := Lookup(data, v.fieldName);
            if value.Some? {
              cur := CallAndStore(cur, v, value.value, field, None);
            }
          }
        }
        assert RunFieldValidator(before, v, fields, declaredFields, data, many, opts.indexErrors) == Success(cur);
        i := i + 1;
      }
      r := Success(cur);
    }

    /** One iteration of `_invoke_validators`: every run of `v` updates
        the errors collected so far (`done` are the maps raised before). */
    method RunSchemaValidator(v: SchemaValidator, passMany: bool, data: Data, original: Data, many: bool,
                              collected: ErrorMap, ghost done: seq<ErrorMap>) returns (errors: ErrorMap)
      requires collected == MergeAll(done)
      ensures errors == MergeAll(done + Outcomes(v, ValidatorCalls(v, passMany, data, original, many)))
    {
      var orig := if v.passOriginal then Some(original) else None;
      ghost var calls := ValidatorCalls(v, passMany, data, original, many);
      errors := collected;
      if many && !passMany {
        var items := ItemsOrEmpty(data);
        assert |calls| == |items|;
        assert Outcomes(v, calls[..0]) == [];
        assert done + [] == done;
        var idx := 0;
        while idx < |items|
          invariant 0 <= idx <= |items|
          invariant errors == MergeAll(done + Outcomes(v, calls[..idx]))
        {
          assert calls[idx] == ValidatorCall(items[idx], orig, None, Some(idx));
          assert Outcomes(v, calls[..idx + 1]) == Outcomes(v, calls[..idx]) + [v.check(calls[idx])];
          assert done + Outcomes(v, calls[..idx + 1]) == (done + Outcomes(v, calls[..idx])) + [v.check(calls[idx])];
          MergeAllSnoc(done + Outcomes(v, calls[..idx]), v.check(calls[idx]));
          errors := errors + v.check(ValidatorCall(items[idx], orig, None, Some(idx)));
          idx := idx + 1;
        }
        assert calls[..|items|] == calls;
      } else {
        var call := ValidatorCall(data, orig, if passMany then Some(many) else None, None);
        assert calls == [call];
        assert Outcomes(v, calls) == [v.check(call)];
        MergeAllSnoc(done, v.check(call));
        errors := errors + v.check(call);
      }
    }

    /** `_invoke_validators`: the merged error map the schema validators of
        one group raise (empty when none raised). */
    method InvokeValidators(passMany: bool, data: Data, original: Data, many: bool) returns (errors: ErrorMap)
      ensures errors == SchemaValidation(hooks.schemaValidators(passMany), passMany, data, original, many)
    {
      var vs := hooks.schemaValidators(passMany);
      errors := map[];
      var i := 0;
      while i < |vs|
        invariant 0 <= i <= |vs|
        invariant errors == MergeAll(ValidatorOutcomes(vs[..i], passMany, data, original, many))
      {
        OutcomesOfPrefix(vs, i, passMany, data, original, many);
        errors := RunSchemaValidator(vs[i], passMany, data, original, many, errors,
                                     ValidatorOutcomes(vs[..i], passMany, data, original, many));
        i := i + 1;
      }
      assert vs[..|vs|] == vs;
    }

    /** What `_do_load` returns or raises. */
    function LoadSpec(data: Data, many: Option<bool>, partial: Option<bool>, postprocess: bool): Result<(Data, ErrorMap), SchemaError>
      reads this
    {
      var m := OrDefault(many, this.many);
      match LoadProcessing(hooks, PreLoad, data, m, data)
      case Failure(e) => Failure(e)
      case Success(processed) =>
        var u := unmarshal(UnmarshalCall(processed, fields, m, OrDefault(partial, this.partial), opts.indexErrors));
        LoadAfterUnmarshal(hooks, fields, declaredFields, opts.indexErrors, strict, u, data, m, postprocess)
    }

    /** The part of `_do_load` after the unmarshaller returned `u`, on a
        schema whose fields in use are bound. */
    method LoadConverted(u: Conversion, data: Data, many: bool, postprocess: bool)
      returns (r: Result<(Data, ErrorMap), SchemaError>)
      requires Valid()
      ensures r == LoadAfterUnmarshal(hooks, fields, declaredFields, opts.indexErrors, strict, u, data, many, postprocess)
    {
      var st := InvokeFieldValidators(u, u.data, many);
      if st.Failure? {
        return Failure(st.error);
      }
      var errors := st.value.errors;
      var batch := InvokeValidators(true, u.data, data, many);
      errors := errors + batch;
      var single := InvokeValidators(false, u.data, data, many);
      errors := errors + single;
      r := ConcludeLoad(data, u.data, errors, st.value.errorFieldNames, st.value.errorFields, many, postprocess);
    }

    /** The end of `_do_load`: raise when strict and errors were
        collected, post-load only on clean data when asked to, return. */
    method ConcludeLoad(data: Data, result: Data, errors: ErrorMap, names: seq<string>, failed: seq<Field>,
                        many: bool, postprocess: bool) returns (r: Result<(Data, ErrorMap), SchemaError>)
      ensures r == FinishLoad(hooks, strict, data, result, errors, names, failed, many, postprocess)
    {
      if errors != map[] && strict {
        return Failure(ValidationFailed(errors, names, failed, data));
      }
      var out := result;
      if errors == map[] && postprocess {
        var post := InvokeLoadProcessors(PostLoad, result, many, data);
        if post.Failure? {
          return Failure(post.error);
        }
        out := post.value;
      }
      r := Success((out, errors));
    }

    /** `_do_load`: pre-load processors, the unmarshaller, the field and
        schema validators, then raise, post-load or return. */
    method DoLoad(data: Data, many: Option<bool>, partial: Option<bool>, postprocess: bool)
      returns (r: Result<(Data, ErrorMap), SchemaError>)
      requires Valid()
      ensures r == LoadSpec(data, many, partial, postprocess)
    {
      var m := OrDefault(many, this.many);
      var p := OrDefault(partial, this.partial);
      var processed := InvokeLoadProcessors(PreLoad, data, m, data);
      if processed.Failure? {
        return Failure(processed.error);
      }
      var u := unmarshal(UnmarshalCall(processed.value, fields, m, p, opts.indexErrors));
      r := LoadConverted(u, data, m, postprocess);
    }

    /** `load`: `_do_load` with postprocessing. */
    method Load(data: Data, many: Option<bool>, partial: Option<bool>) returns (r: Result<(Data, ErrorMap), SchemaError>)
      requires Valid()
      ensures r == LoadSpec(data, many, partial, true)
    {
      r := DoLoad(data, many, partial, true);
    }

    /** `validate`: the errors of `_do_load` without postprocessing; it
        never fails because of a post-load processor. */
    method Validate(data: Data, many: Option<bool>) returns (r: Result<ErrorMap, SchemaError>)
      requires Valid()
      ensures var l := LoadSpec(data, many, None, false);
              (r.Success? <==> l.Success?) &&
              (r.Success? ==> r.value == l.value.1) &&
              (r.Failure? ==> r.error == l.error)
    {
      var loaded := DoLoad(data, many, None, false);
      if loaded.Failure? {
        return Failure(loaded.error);
      }
      r := Success(loaded.value.1);
    }

    /** `dump`: pre-dump processors, optionally re-selecting the fields
        against the processed object, the marshaller, then raise or
        post-dump. */
    method Dump(obj: Data, many: Option<bool>, updateFields: bool) returns (r: Result<(Data, ErrorMap), SchemaError>)
      requires Valid()
      modifies this`declaredFields, this`fields
      ensures Valid()
      ensures var m := OrDefault(many, this.many);
              var pre := DumpProcessing(hooks, PreDump, obj, m, obj);
              var names := old(SelectedNames());
              if pre.Failure? then
                r == Failure(pre.error) && fields == old(fields) && declaredFields == old(declaredFields)
              else if !updateFields then
                fields == old(fields) && declaredFields == old(declaredFields) &&
                r == FinishDump(hooks, strict, marshal(MarshalCall(pre.value, fields, m, opts.indexErrors)), m, obj)
              else if Filtered(old(declaredFields), names, pre.value, m).None? then
                r.Failure? && FilterError(old(declaredFields), names, pre.value, m, r.error) &&
                fields == old(fields) && declaredFields == old(declaredFields)
              else
                var f := Filtered(old(declaredFields), names, pre.value, m).value;
                fields == BindFields(f, f.Keys, loadOnly, dumpOnly) &&
                declaredFields == BindFields(old(declaredFields), SharedWith(f, old(declaredFields)), loadOnly, dumpOnly) &&
                r == FinishDump(hooks, strict, marshal(MarshalCall(pre.value, fields, m, opts.indexErrors)), m, obj)
    {
      var m := OrDefault(many, this.many);
      var processed := InvokeDumpProcessors(PreDump, obj, m, obj);
      if processed.Failure? {
        return Failure(processed.error);
      }
      if updateFields {
        var updated := UpdateFields(processed.value, m);
        if updated.Failure? {
          return Failure(updated.error);
        }
      }
      r := MarshalAndFinish(processed.value, m, obj);
    }

    /** The part of `dump` from the marshaller on, with the fields in use,
        which the class invariant keeps bound. */
    method MarshalAndFinish(processed: Data, many: bool, obj: Data) returns (r: Result<(Data, ErrorMap), SchemaError>)
      requires Valid()
      ensures r == FinishDump(hooks, strict, marshal(MarshalCall(processed, fields, many, opts.indexErrors)), many, obj)
    {
      var conv := marshal(MarshalCall(processed, fields, many, opts.indexErrors));
      if strict && conv.errors != map[] {
        return Failure(ValidationFailed(conv.errors, conv.errorFieldNames, conv.errorFields, conv.data));
      }
      var result := InvokeDumpProcessors(PostDump, conv.data, many, obj);
      if result.Failure? {
        return Failure(result.error);
      }
      r := Success((result.value, conv.errors));
    }
  }
}
