/** How a schema class comes into being: its Meta options are checked,
    its own field attributes are collected (sorted by creation when the
    class is ordered), the fields of its bases are gathered along the
    method resolution order, and both are merged into the declared-field
    dictionary, later entries winning. */
module Declaration {
  import opened Types

  /** A class attribute: a field object, or anything else. */
  datatype Attr = FieldAttr(field: Field) | OtherAttr

  /** A class namespace (or a base's `_declared_fields`), in its order. */
  type Attrs = seq<(string, Attr)>

  type FieldPairs = seq<(string, Field)>

  function Names(ps: FieldPairs): (ns: set<string>)
  {
    set i | 0 <= i < |ps| :: ps[i].0
  }

  // ----- _get_fields -----

  /** The (name, field) pairs of a namespace, in namespace order. */
  function FieldsOf(attrs: Attrs): (fs: FieldPairs)
    ensures forall p :: p in fs <==> (p.0, FieldAttr(p.1)) in attrs
    ensures |fs| <= |attrs|
  {
    if attrs == [] then []
    else
      var head := match attrs[0].1
        case FieldAttr(f) => [(attrs[0].0, f)]
        case OtherAttr => [];
      head + FieldsOf(attrs[1..])
  }

  /** The namespace left once the field attributes are popped out. */
  function OthersOf(attrs: Attrs): (rest: Attrs)
    ensures forall p :: p in rest <==> p in attrs && p.1 == OtherAttr
  {
    if attrs == [] then []
    else (if attrs[0].1 == OtherAttr then [attrs[0]] else []) + OthersOf(attrs[1..])
  }

  /** Each pair's creation index is at most that of the next pair. */
  predicate SortedByCreation(fs: FieldPairs) {
    forall i :: 0 < i < |fs| ==> fs[i - 1].1.creationIndex <= fs[i].1.creationIndex
  }

  /** Inserts `p` before the first pair whose creation index is not smaller. */
  function InsertByCreation(p: (string, Field), fs: FieldPairs): (r: FieldPairs)
    requires SortedByCreation(fs)
    ensures SortedByCreation(r)
    ensures multiset(r) == multiset(fs) + multiset{p}
    ensures |r| == |fs| + 1
    ensures r[0] == p || (fs != [] && r[0] == fs[0])
  {
    if fs == [] || p.1.creationIndex <= fs[0].1.creationIndex then [p] + fs
    else
      assert fs == [fs[0]] + fs[1..];
      var rest := InsertByCreation(p, fs[1..]);
      assert fs[0].1.creationIndex <= rest[0].1.creationIndex;
      [fs[0]] + rest
  }

  /** `sorted(fields, key=lambda pair: pair[1]._creation_index)`. */
  function SortByCreation(fs: FieldPairs): (r: FieldPairs)
    ensures SortedByCreation(r)
    ensures multiset(r) == multiset(fs)
  {
    if fs == [] then []
    else
      assert fs == [fs[0]] + fs[1..];
      InsertByCreation(fs[0], SortByCreation(fs[1..]))
  }

  datatype Extracted = Extracted(fields: FieldPairs, rest: Attrs)

  /** `_get_fields(attrs, FieldABC, pop, ordered)`: the field pairs of the
      namespace, sorted by creation index when `ordered`; with `pop` they
      are also removed from the namespace. */
  function GetFields(attrs: Attrs, pop: bool, ordered: bool): (r: Extracted)
    ensures multiset(r.fields) == multiset(FieldsOf(attrs))
    ensures forall p :: p in r.fields <==> (p.0, FieldAttr(p.1)) in attrs
    ensures ordered ==> SortedByCreation(r.fields)
    ensures !ordered ==> r.fields == FieldsOf(attrs)
    ensures pop ==> forall p :: p in r.rest <==> p in attrs && !p.1.FieldAttr?
    ensures !pop ==> r.rest == attrs
  {
    var fs := FieldsOf(attrs);
    var sorted := if ordered then SortByCreation(fs) else fs;
    assert forall p :: p in sorted <==> p in multiset(fs);
    Extracted(sorted, if pop then OthersOf(attrs) else attrs)
  }

  // ----- _get_fields_by_mro -----

  /** `sum(_get_fields(base) for base in mro[:0:-1])`: the field pairs of
      every class in the MRO except the first (the class itself), the
      most basic class first. */
  function FieldsByMro(mro: seq<Attrs>): (fs: FieldPairs)
    ensures forall p :: p in fs <==> exists i :: 1 <= i < |mro| && (p.0, FieldAttr(p.1)) in mro[i]
    decreases |mro|
  {
    if |mro| <= 1 then []
    else
      var last := |mro| - 1;
      var init := mro[..last];
      assert forall i :: 0 <= i < last ==> init[i] == mro[i];
      FieldsOf(mro[last]) + FieldsByMro(init)
  }

  lemma {:induction false} NamesConcat(a: FieldPairs, b: FieldPairs)
    ensures Names(a + b) == Names(a) + Names(b)
  {
    forall n | n in Names(a + b) ensures n in Names(a) + Names(b) {
      var i :| 0 <= i < |a + b| && (a + b)[i].0 == n;
      if i >= |a| { assert b[i - |a|].0 == n; }
    }
    forall n | n in Names(a) + Names(b) ensures n in Names(a + b) {
      if n in Names(a) {
        var i :| 0 <= i < |a| && a[i].0 == n;
        assert (a + b)[i].0 == n;
      } else {
        var i :| 0 <= i < |b| && b[i].0 == n;
        assert (a + b)[|a| + i].0 == n;
      }
    }
  }

  /** A name is inherited exactly when some base in the MRO declares it. */
  lemma {:induction false} InheritedNames(mro: seq<Attrs>, n: string)
    ensures n in Names(FieldsByMro(mro)) <==>
            exists i :: 1 <= i < |mro| && n in Names(FieldsOf(mro[i]))
    decreases |mro|
  {
    if |mro| > 1 {
      var last := |mro| - 1;
      var init := mro[..last];
      NamesConcat(FieldsOf(mro[last]), FieldsByMro(init));
      InheritedNames(init, n);
      if n in Names(FieldsByMro(init)) {
        var i :| 1 <= i < |init| && n in Names(FieldsOf(init[i]));
        assert mro[i] == init[i];
      }
      if exists i :: 1 <= i < |mro| && n in Names(FieldsOf(mro[i])) {
        var i :| 1 <= i < |mro| && n in Names(FieldsOf(mro[i]));
        if i < last { assert init[i] == mro[i]; }
      }
    }
  }

  // ----- get_declared_fields -----

  /** `dict(pairs)`: a later pair under the same name replaces an earlier one. */
  function DictOf(ps: FieldPairs): (m: map<string, Field>)
    ensures m.Keys == Names(ps)
    decreases |ps|
  {
    if ps == [] then map[]
    else
      var init := ps[..|ps| - 1];
      assert ps == init + [ps[|ps| - 1]];
      NamesConcat(init, [ps[|ps| - 1]]);
      DictOf(init)[ps[|ps| - 1].0 := ps[|ps| - 1].1]
  }

  /** Building a dict from a concatenation is the union of the two dicts,
      the second one winning. */
  lemma {:induction false} DictOfConcat(a: FieldPairs, b: FieldPairs)
    ensures DictOf(a + b) == DictOf(a) + DictOf(b)
    decreases |b|
  {
    if b == [] {
      assert a + b == a;
    } else {
      var init := b[..|b| - 1];
      assert (a + b)[..|a + b| - 1] == a + init;
      DictOfConcat(a, init);
    }
  }

  /** In `dict(pairs)`, every name holds the field of its last pair. */
  lemma {:induction false} DictOfLastWins(ps: FieldPairs, i: nat)
    requires i < |ps|
    requires forall j :: i < j < |ps| ==> ps[j].0 != ps[i].0
    ensures ps[i].0 in DictOf(ps) && DictOf(ps)[ps[i].0] == ps[i].1
    decreases |ps|
  {
    if i < |ps| - 1 {
      DictOfLastWins(ps[..|ps| - 1], i);
    }
  }

  /** `get_declared_fields`: `dict_cls(inherited_fields + cls_fields)`. */
  function DeclaredFields(inherited: FieldPairs, clsFields: FieldPairs): (m: map<string, Field>)
    ensures m.Keys == Names(inherited) + Names(clsFields)
    ensures forall n :: n in Names(clsFields) ==> m[n] == DictOf(clsFields)[n]
    ensures forall n :: n in Names(inherited) - Names(clsFields) ==> m[n] == DictOf(inherited)[n]
  {
    DictOfConcat(inherited, clsFields);
    DictOf(inherited + clsFields)
  }

  /** Among the bases, the most derived one that declares a name provides
      the inherited field for it. */
  lemma {:induction false} MostDerivedBaseWins(mro: seq<Attrs>, n: string, i: nat)
    requires 1 <= i < |mro|
    requires n in Names(FieldsOf(mro[i]))
    requires forall j :: 1 <= j < i ==> n !in Names(FieldsOf(mro[j]))
    ensures n in DictOf(FieldsByMro(mro))
    ensures DictOf(FieldsByMro(mro))[n] == DictOf(FieldsOf(mro[i]))[n]
    decreases |mro|
  {
    var last := |mro| - 1;
    var init := mro[..last];
    DictOfConcat(FieldsOf(mro[last]), FieldsByMro(init));
    if i == last {
      InheritedNames(init, n);
      forall j | 1 <= j < |init| ensures n !in Names(FieldsOf(init[j])) {
        assert init[j] == mro[j];
      }
      assert n !in Names(FieldsByMro(init));
    } else {
      assert init[i] == mro[i];
      forall j | 1 <= j < i ensures n !in Names(FieldsOf(init[j])) {
        assert init[j] == mro[j];
      }
      MostDerivedBaseWins(init, n, i);
    }
  }

  // ----- SchemaOpts -----

  /** A Meta option that must be a list or tuple of names. */
  datatype NameList = ListOrTuple(names: seq<string>) | NotAListOrTuple

  /** The attributes of a `class Meta`; `None` is an absent attribute. */
  datatype Meta = Meta(
    fields: Option<NameList>,
    additional: Option<NameList>,
    exclude: Option<NameList>,
    strict: Option<bool>,
    ordered: Option<bool>,
    indexErrors: Option<bool>,
    includeFields: Option<FieldPairs>,
    loadOnly: Option<seq<string>>,
    dumpOnly: Option<seq<string>>)

  datatype SchemaOpts = SchemaOpts(
    fields: seq<string>,
    additional: seq<string>,
    exclude: seq<string>,
    strict: bool,
    ordered: bool,
    indexErrors: bool,
    includeFields: FieldPairs,
    loadOnly: seq<string>,
    dumpOnly: seq<string>)

  /** The ValueErrors of SchemaOpts. */
  datatype ConfigError =
    | FieldsNotAList
    | AdditionalNotAList
    | FieldsAndAdditional
    | ExcludeNotAList

  function NamesOr(o: Option<NameList>): seq<string> {
    match o
    case Some(ListOrTuple(ns)) => ns
    case _ => []
  }

  function Or<T>(o: Option<T>, default: T): T {
    match o
    case Some(v) => v
    case None => default
  }

  /** `SchemaOpts(meta)`: checks in source order, then applies defaults. */
  function MakeOpts(meta: Meta): (r: Result<SchemaOpts, ConfigError>)
    ensures r.Success? <==>
      meta.fields != Some(NotAListOrTuple) &&
      meta.additional != Some(NotAListOrTuple) &&
      !(|NamesOr(meta.fields)| > 0 && |NamesOr(meta.additional)| > 0) &&
      meta.exclude != Some(NotAListOrTuple)
    ensures r == Failure(FieldsNotAList) <==> meta.fields == Some(NotAListOrTuple)
    ensures r == Failure(AdditionalNotAList) <==>
      meta.fields != Some(NotAListOrTuple) && meta.additional == Some(NotAListOrTuple)
    ensures r == Failure(FieldsAndAdditional) <==>
      meta.fields != Some(NotAListOrTuple) && meta.additional != Some(NotAListOrTuple) &&
      |NamesOr(meta.fields)| > 0 && |NamesOr(meta.additional)| > 0
    ensures r == Failure(ExcludeNotAList) <==>
      meta.fields != Some(NotAListOrTuple) && meta.additional != Some(NotAListOrTuple) &&
      !(|NamesOr(meta.fields)| > 0 && |NamesOr(meta.additional)| > 0) && meta.exclude == Some(NotAListOrTuple)
    ensures r.Success? ==>
      !(|r.value.fields| > 0 && |r.value.additional| > 0) &&
      r.value.fields == NamesOr(meta.fields) &&
      r.value.additional == NamesOr(meta.additional) &&
      r.value.exclude == NamesOr(meta.exclude) &&
      r.value.strict == Or(meta.strict, false) &&
      r.value.ordered == Or(meta.ordered, false) &&
      r.value.indexErrors == Or(meta.indexErrors, true) &&
      r.value.includeFields == Or(meta.includeFields, []) &&
      r.value.loadOnly == Or(meta.loadOnly, []) &&
      r.value.dumpOnly == Or(meta.dumpOnly, [])
  {
    if meta.fields == Some(NotAListOrTuple) then Failure(FieldsNotAList)
    else if meta.additional == Some(NotAListOrTuple) then Failure(AdditionalNotAList)
    else if |NamesOr(meta.fields)| > 0 && |NamesOr(meta.additional)| > 0 then Failure(FieldsAndAdditional)
    else if meta.exclude == Some(NotAListOrTuple) then Failure(ExcludeNotAList)
    else Success(SchemaOpts(
      NamesOr(meta.fields), NamesOr(meta.additional), NamesOr(meta.exclude),
      Or(meta.strict, false), Or(meta.ordered, false), Or(meta.indexErrors, true),
      Or(meta.includeFields, []), Or(meta.loadOnly, []), Or(meta.dumpOnly, [])))
  }

  // ----- SchemaMeta.__new__ -----

  /** The `ordered` flag a new schema class sorts its own fields by: its
      own Meta's when true, otherwise that of the first direct base whose
      Meta sets it, otherwise false. `own` is `getattr(meta, 'ordered')`
      (None when absent); `bases[k]` is `bases[k].Meta.ordered` (None when
      the base has no Meta or its Meta has no `ordered`). */
  method InheritOrdered(own: Option<bool>, bases: seq<Option<bool>>) returns (ordered: bool)
    ensures ordered <==>
      own == Some(true) ||
      exists k :: 0 <= k < |bases| && bases[k] == Some(true) &&
                  forall j :: 0 <= j < k ==> bases[j].None?
  {
    ordered := own == Some(true);
    if !ordered {
      var k := 0;
      while k < |bases|
        invariant 0 <= k <= |bases|
        invariant !ordered
        invariant forall j :: 0 <= j < k ==> bases[j].None?
      {
        if bases[k].Some? {
          ordered := bases[k].value;
          return;
        }
        k := k + 1;
      }
      ordered := false;
    }
  }

  /** A schema class: its options, its declared fields, its namespace
      without the field attributes, and its resolved processors. */
  datatype SchemaClass = SchemaClass(
    opts: SchemaOpts,
    declaredFields: map<string, Field>,
    namespace: Attrs,
    hooks: Hooks)

  /** `SchemaMeta.__new__`. `attrs` is the class body, `ownOrdered` and
      `baseOrdered` feed InheritOrdered, `mro` is the method resolution
      order (the class itself first), `meta` is the Meta the class sees
      by inheritance, and `hooks` its resolved processors. */
  method NewSchemaClass(attrs: Attrs, ownOrdered: Option<bool>, baseOrdered: seq<Option<bool>>,
                        mro: seq<Attrs>, meta: Meta, hooks: Hooks)
    returns (r: Result<SchemaClass, ConfigError>)
    ensures r.Failure? <==> MakeOpts(meta).Failure?
    ensures r.Failure? ==> r.error == MakeOpts(meta).error
    ensures r.Success? ==> r.value.opts == MakeOpts(meta).value
    ensures r.Success? ==>
      var inherited := FieldsByMro(mro);
      var own := FieldsOf(attrs);
      var included := r.value.opts.includeFields;
      var declared := r.value.declaredFields;
      declared.Keys == Names(inherited) + Names(own) + Names(included) &&
      (forall n :: n in Names(included) ==> declared[n] == DictOf(included)[n]) &&
      (forall n :: n in Names(own) - Names(included) ==> (n, FieldAttr(declared[n])) in attrs) &&
      (forall n :: n in Names(inherited) - Names(own) - Names(included) ==>
         declared[n] == DictOf(inherited)[n])
    ensures r.Success? ==> forall p :: p in r.value.namespace <==> p in attrs && !p.1.FieldAttr?
  {
    var ordered := InheritOrdered(ownOrdered, baseOrdered);
    var extracted := GetFields(attrs, true, ordered);
    var inherited := FieldsByMro(mro);
    var opts := MakeOpts(meta);
    if opts.Failure? {
      return Failure(opts.error);
    }
    var clsFields := extracted.fields + opts.value.includeFields;
    var declared := DeclaredFields(inherited, clsFields);
    DictOfConcat(extracted.fields, opts.value.includeFields);
    NamesConcat(extracted.fields, opts.value.includeFields);
    NamesOfPermutation(extracted.fields, FieldsOf(attrs));
    forall n | n in Names(extracted.fields) ensures (n, FieldAttr(DictOf(extracted.fields)[n])) in attrs {
      DictOfMember(extracted.fields, n);
    }
    r := Success(SchemaClass(opts.value, declared, extracted.rest, hooks));
  }

  /** Every entry of `dict(pairs)` is one of the pairs. */
  lemma {:induction false} DictOfMember(ps: FieldPairs, n: string)
    requires n in DictOf(ps)
    ensures (n, DictOf(ps)[n]) in ps
    decreases |ps|
  {
    var init := ps[..|ps| - 1];
    if ps[|ps| - 1].0 != n {
      DictOfMember(init, n);
    }
  }

  /** Reordering the pairs does not change the set of names. */
  lemma NamesOfPermutation(a: FieldPairs, b: FieldPairs)
    requires multiset(a) == multiset(b)
    ensures Names(a) == Names(b)
  {
    forall n | n in Names(a) ensures n in Names(b) {
      var i :| 0 <= i < |a| && a[i].0 == n;
      assert a[i] in multiset(b);
    }
    forall n | n in Names(b) ensures n in Names(a) {
      var i :| 0 <= i < |b| && b[i].0 == n;
      assert b[i] in multiset(a);
    }
  }
}
