/** What the load-time validators do. Field validators run on the value of
    their field in each item that has it and store their messages in the
    unmarshaller's state; schema validators run on the whole result (a
    batch validator) or once per item in many-mode (a non-batch one), and
    their error maps are merged with `update`. */
module Validation {
  import opened Types
  import opened Errors

  function ItemsOrEmpty(data: Data): seq<Data> {
    match Items(data)
    case Some(xs) => xs
    case None => []
  }

  /** `call_and_store(getter_func=validator, data=value, ...)`: a failed
      validation appends its messages and records the field that failed. */
  function CallAndStore(st: Conversion, v: FieldValidator, value: Data, field: Field, index: Option<nat>): (r: Conversion)
    ensures r.data == st.data
    ensures v.check(value).None? ==> r == st
    ensures v.check(value).Some? ==>
      r.errorFieldNames == st.errorFieldNames + [v.fieldName] && r.errorFields == st.errorFields + [field] &&
      Stored(r.errors, index, v.fieldName) == Stored(st.errors, index, v.fieldName) + v.check(value).value
    ensures WellShaped(st.errors) ==> WellShaped(r.errors) && Keeps(st.errors, r.errors)
  {
    match v.check(value)
    case None => st
    case Some(msgs) =>
      st.(errors := StoreMessages(st.errors, index, v.fieldName, msgs),
          errorFieldNames := st.errorFieldNames + [v.fieldName],
          errorFields := st.errorFields + [field])
  }

  /** One field validator over the items of a many-mode result: an item
      that lacks the key is skipped, the others are validated under their
      index (or under the field alone when errors are not indexed). */
  function ValidateItems(st: Conversion, v: FieldValidator, field: Field, items: seq<Data>, indexErrors: bool): Conversion
    decreases |items|
  {
    if items == [] then st
    else
      var idx := |items| - 1;
      var before := ValidateItems(st, v, field, items[..idx], indexErrors);
      match Lookup(items[idx], v.fieldName)
      case None => before
      case Some(value) => CallAndStore(before, v, value, field, if indexErrors then Some(idx) else None)
  }

  /** One iteration of `_invoke_field_validators`. */
  function RunFieldValidator(st: Conversion, v: FieldValidator, fields: map<string, Field>,
                             declared: map<string, Field>, data: Data, many: bool, indexErrors: bool): Result<Conversion, SchemaError>
  {
    if v.fieldName in fields then
      var field := fields[v.fieldName];
      if many then Success(ValidateItems(st, v, field, ItemsOrEmpty(data), indexErrors))
      else match Lookup(data, v.fieldName)
        case None => Success(st)
        case Some(value) => Success(CallAndStore(st, v, value, field, None))
    else if v.fieldName in declared then Success(st)
    else Failure(FieldDoesNotExist(v.fieldName))
  }

  /** `_invoke_field_validators`: every field validator in registration order. */
  function RunFieldValidators(vs: seq<FieldValidator>, st: Conversion, fields: map<string, Field>,
                              declared: map<string, Field>, data: Data, many: bool, indexErrors: bool): Result<Conversion, SchemaError>
    decreases |vs|
  {
    if vs == [] then Success(st)
    else match RunFieldValidator(st, vs[0], fields, declared, data, many, indexErrors)
      case Failure(e) => Failure(e)
      case Success(st') => RunFieldValidators(vs[1..], st', fields, declared, data, many, indexErrors)
  }

  /** The number of items whose value for the field the validator rejects. */
  function Rejected(v: FieldValidator, items: seq<Data>): nat
    decreases |items|
  {
    if items == [] then 0
    else
      var last := items[|items| - 1];
      Rejected(v, items[..|items| - 1]) +
        (if Lookup(last, v.fieldName).Some? && v.check(Lookup(last, v.fieldName).value).Some? then 1 else 0)
  }

  /** In many-mode a field validator records one failure per item that has
      the field and fails, and nothing for an item without the field; the
      messages already stored are kept. */
  lemma {:induction false} ValidateItemsRecordsRejections(st: Conversion, v: FieldValidator, field: Field,
                                                          items: seq<Data>, indexErrors: bool)
    requires WellShaped(st.errors)
    ensures var r := ValidateItems(st, v, field, items, indexErrors);
            WellShaped(r.errors) && Keeps(st.errors, r.errors) &&
            |r.errorFieldNames| == |st.errorFieldNames| + Rejected(v, items) &&
            r.errorFieldNames[..|st.errorFieldNames|] == st.errorFieldNames &&
            (forall j :: |st.errorFieldNames| <= j < |r.errorFieldNames| ==> r.errorFieldNames[j] == v.fieldName) &&
            (Rejected(v, items) == 0 ==> r == st)
    decreases |items|
  {
    if items != [] {
      var idx := |items| - 1;
      ValidateItemsRecordsRejections(st, v, field, items[..idx], indexErrors);
      var before := ValidateItems(st, v, field, items[..idx], indexErrors);
      match Lookup(items[idx], v.fieldName)
      case None =>
      case Some(value) =>
        var after := CallAndStore(before, v, value, field, if indexErrors then Some(idx) else None);
        KeepsTransitive(st.errors, before.errors, after.errors);
        if v.check(value).Some? {
          assert after.errorFieldNames[..|st.errorFieldNames|] == before.errorFieldNames[..|st.errorFieldNames|];
        }
    }
  }

  /** The messages the validator gives for the items that have the field,
      in item order. */
  function RejectedMessages(v: FieldValidator, items: seq<Data>): seq<string>
    decreases |items|
  {
    if items == [] then []
    else
      var last := items[|items| - 1];
      RejectedMessages(v, items[..|items| - 1]) +
        (match Lookup(last, v.fieldName)
         case None => []
         case Some(value) => match v.check(value) case None => [] case Some(msgs) => msgs)
  }

  /** Without indexed errors, every rejected item's messages are appended
      to the field's list, in item order, after the messages already there. */
  lemma {:induction false} UnindexedMessagesInItemOrder(st: Conversion, v: FieldValidator, field: Field, items: seq<Data>)
    ensures Stored(ValidateItems(st, v, field, items, false).errors, None, v.fieldName) ==
            Stored(st.errors, None, v.fieldName) + RejectedMessages(v, items)
    decreases |items|
  {
    if items != [] {
      var idx := |items| - 1;
      UnindexedMessagesInItemOrder(st, v, field, items[..idx]);
      var before := ValidateItems(st, v, field, items[..idx], false);
      match Lookup(items[idx], v.fieldName)
      case None =>
      case Some(value) =>
        match v.check(value)
        case None =>
        case Some(msgs) =>
          assert Stored(CallAndStore(before, v, value, field, None).errors, None, v.fieldName) ==
                 Stored(before.errors, None, v.fieldName) + msgs;
    }
  }

  /** With indexed errors, when item `i` has the field and the validator
      rejects its value, those messages are the last ones stored for the
      field under index `i`. */
  lemma {:induction false} RejectedItemIsIndexed(st: Conversion, v: FieldValidator, field: Field,
                                                 items: seq<Data>, i: nat, msgs: seq<string>)
    requires i < |items|
    requires Lookup(items[i], v.fieldName).Some? && v.check(Lookup(items[i], v.fieldName).value) == Some(msgs)
    ensures var s := Stored(ValidateItems(st, v, field, items, true).errors, Some(i), v.fieldName);
            |s| >= |msgs| && s[|s| - |msgs|..] == msgs
    decreases |items|
  {
    var idx := |items| - 1;
    var before := ValidateItems(st, v, field, items[..idx], true);
    if i == idx {
      var value := Lookup(items[idx], v.fieldName).value;
      assert ValidateItems(st, v, field, items, true) == CallAndStore(before, v, value, field, Some(idx));
      assert Stored(CallAndStore(before, v, value, field, Some(idx)).errors, Some(i), v.fieldName) ==
             Stored(before.errors, Some(i), v.fieldName) + msgs;
    } else {
      assert items[..idx][i] == items[i];
      RejectedItemIsIndexed(st, v, field, items[..idx], i, msgs);
      match Lookup(items[idx], v.fieldName)
      case None =>
      case Some(value) =>
        var after := CallAndStore(before, v, value, field, Some(idx));
        assert Stored(after.errors, Some(i), v.fieldName) == Stored(before.errors, Some(i), v.fieldName);
    }
  }

  /** Field validators never drop a message already stored. */
  lemma {:induction false} FieldValidatorsKeepErrors(vs: seq<FieldValidator>, st: Conversion, fields: map<string, Field>,
                                                     declared: map<string, Field>, data: Data, many: bool, indexErrors: bool)
    requires WellShaped(st.errors)
    ensures var r := RunFieldValidators(vs, st, fields, declared, data, many, indexErrors);
            r.Success? ==> WellShaped(r.value.errors) && Keeps(st.errors, r.value.errors)
    decreases |vs|
  {
    if vs != [] {
      var one := RunFieldValidator(st, vs[0], fields, declared, data, many, indexErrors);
      if one.Success? {
        var v := vs[0];
        if v.fieldName in fields && many {
          ValidateItemsRecordsRejections(st, v, fields[v.fieldName], ItemsOrEmpty(data), indexErrors);
        }
        FieldValidatorsKeepErrors(vs[1..], one.value, fields, declared, data, many, indexErrors);
        var r := RunFieldValidators(vs[1..], one.value, fields, declared, data, many, indexErrors);
        if r.Success? {
          KeepsTransitive(st.errors, one.value.errors, r.value.errors);
        }
      }
    }
  }

  /** A validator bound to a name that is neither selected nor declared
      makes the whole run fail, unless an earlier one already did. */
  lemma {:induction false} UnknownFieldFails(vs: seq<FieldValidator>, st: Conversion, fields: map<string, Field>,
                                             declared: map<string, Field>, data: Data, many: bool, indexErrors: bool, k: nat)
    requires k < |vs| && vs[k].fieldName !in fields && vs[k].fieldName !in declared
    ensures RunFieldValidators(vs, st, fields, declared, data, many, indexErrors).Failure?
    decreases |vs|
  {
    if k > 0 {
      var one := RunFieldValidator(st, vs[0], fields, declared, data, many, indexErrors);
      if one.Success? {
        UnknownFieldFails(vs[1..], one.value, fields, declared, data, many, indexErrors, k - 1);
      }
    }
  }

  // ----- schema validators -----

  /** The runs of one schema validator: once on the whole result, or in
      many-mode for a non-batch validator once per item, with its index. */
  function ValidatorCalls(v: SchemaValidator, passMany: bool, data: Data, original: Data, many: bool): seq<ValidatorCall> {
    var orig := if v.passOriginal then Some(original) else None;
    if many && !passMany then
      var xs := ItemsOrEmpty(data);
      seq(|xs|, i requires 0 <= i < |xs| => ValidatorCall(xs[i], orig, None, Some(i)))
    else [ValidatorCall(data, orig, if passMany then Some(many) else None, None)]
  }

  function Outcomes(v: SchemaValidator, calls: seq<ValidatorCall>): seq<ErrorMap> {
    seq(|calls|, i requires 0 <= i < |calls| => v.check(calls[i]))
  }

  /** The error maps of every run of a group of schema validators, in order. */
  function ValidatorOutcomes(vs: seq<SchemaValidator>, passMany: bool, data: Data, original: Data, many: bool): seq<ErrorMap>
    decreases |vs|
  {
    if vs == [] then []
    else ValidatorOutcomes(vs[..|vs| - 1], passMany, data, original, many) +
         Outcomes(vs[|vs| - 1], ValidatorCalls(vs[|vs| - 1], passMany, data, original, many))
  }

  /** Adding one validator to a group appends its runs. */
  lemma OutcomesOfPrefix(vs: seq<SchemaValidator>, i: nat, passMany: bool, data: Data, original: Data, many: bool)
    requires i < |vs|
    ensures ValidatorOutcomes(vs[..i + 1], passMany, data, original, many) ==
            ValidatorOutcomes(vs[..i], passMany, data, original, many) +
            Outcomes(vs[i], ValidatorCalls(vs[i], passMany, data, original, many))
  {
    assert vs[..i + 1][..i] == vs[..i] && vs[..i + 1][i] == vs[i];
  }

  /** `_invoke_validators`: the merged errors it raises (empty: no raise). */
  function SchemaValidation(vs: seq<SchemaValidator>, passMany: bool, data: Data, original: Data, many: bool): ErrorMap {
    MergeAll(ValidatorOutcomes(vs, passMany, data, original, many))
  }

  /** A non-batch schema validator in many-mode runs once per item; every
      other validator runs exactly once. */
  lemma {:induction false} RunsPerItemInManyMode(vs: seq<SchemaValidator>, passMany: bool, data: Data, original: Data, many: bool)
    ensures |ValidatorOutcomes(vs, passMany, data, original, many)| ==
            |vs| * (if many && !passMany then |ItemsOrEmpty(data)| else 1)
    decreases |vs|
  {
    if vs != [] {
      var per := if many && !passMany then |ItemsOrEmpty(data)| else 1;
      RunsPerItemInManyMode(vs[..|vs| - 1], passMany, data, original, many);
      assert |vs| * per == (|vs| - 1) * per + per;
    }
  }
}
