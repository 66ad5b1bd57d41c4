/** The error maps of one dump or load call. Field and field-validator
    failures are appended under their field name (under the item's index
    first when errors are indexed), so they never erase one another;
    schema-validator results are merged with dict `update`, where a later
    map replaces an earlier entry under the same key. */
module Errors {
  import opened Types

  /** Field names hold message lists and indices hold per-field maps. */
  predicate WellShaped(errors: ErrorMap) {
    forall k :: k in errors ==> (k.FieldKey? <==> errors[k].Messages?)
  }

  /** `b` still holds every message of `a`, in front of anything added. */
  predicate EntryKeeps(a: ErrorEntry, b: ErrorEntry) {
    match a
    case Messages(m) => b.Messages? && m <= b.msgs
    case ItemErrors(s) => b.ItemErrors? && forall f :: f in s ==> f in b.byField && s[f] <= b.byField[f]
  }

  predicate Keeps(earlier: ErrorMap, later: ErrorMap) {
    forall k :: k in earlier ==> k in later && EntryKeeps(earlier[k], later[k])
  }

  lemma KeepsTransitive(a: ErrorMap, b: ErrorMap, c: ErrorMap)
    requires Keeps(a, b) && Keeps(b, c)
    ensures Keeps(a, c)
  {
    forall k | k in a ensures k in c && EntryKeeps(a[k], c[k]) {
      match a[k]
      case Messages(m) =>
      case ItemErrors(s) =>
        forall f | f in s ensures f in c[k].byField && s[f] <= c[k].byField[f] {
          assert f in b[k].byField;
        }
    }
  }

  /** The messages already stored for `field`, under `index` when given. */
  function Stored(errors: ErrorMap, index: Option<nat>, field: string): seq<string> {
    match index
    case None =>
      if FieldKey(field) in errors && errors[FieldKey(field)].Messages? then errors[FieldKey(field)].msgs else []
    case Some(i) =>
      if IndexKey(i) in errors && errors[IndexKey(i)].ItemErrors? && field in errors[IndexKey(i)].byField
      then errors[IndexKey(i)].byField[field] else []
  }

  /** How the unmarshaller stores the messages of a failed field: appended
      to the list under the field name, inside the item's map when indexed. */
  function StoreMessages(errors: ErrorMap, index: Option<nat>, field: string, msgs: seq<string>): (r: ErrorMap)
    ensures WellShaped(errors) ==> WellShaped(r) && Keeps(errors, r)
    ensures Stored(r, index, field) == Stored(errors, index, field) + msgs
    ensures forall k :: k in errors && k != (if index.Some? then IndexKey(index.value) else FieldKey(field)) ==>
              k in r && r[k] == errors[k]
    ensures forall f :: f != field ==> Stored(r, index, f) == Stored(errors, index, f)
  {
    match index
    case None =>
      errors[FieldKey(field) := Messages(Stored(errors, None, field) + msgs)]
    case Some(i) =>
      var sub := if IndexKey(i) in errors && errors[IndexKey(i)].ItemErrors? then errors[IndexKey(i)].byField else map[];
      errors[IndexKey(i) := ItemErrors(sub[field := Stored(errors, index, field) + msgs])]
  }

  /** Successive `errors.update(m)`, first map first. */
  function MergeAll(ms: seq<ErrorMap>): (r: ErrorMap)
    decreases |ms|
  {
    if ms == [] then map[] else MergeAll(ms[..|ms| - 1]) + ms[|ms| - 1]
  }

  /** One more `update` extends the merge. */
  lemma MergeAllSnoc(ms: seq<ErrorMap>, m: ErrorMap)
    ensures MergeAll(ms + [m]) == MergeAll(ms) + m
  {
    assert (ms + [m])[..|ms|] == ms;
  }

  /** A key ends up in the merge exactly when some map has it, and it holds
      the entry of the last map that has it. */
  lemma {:induction false} MergeLastWins(ms: seq<ErrorMap>, k: ErrorKey)
    ensures k in MergeAll(ms) <==> exists i :: 0 <= i < |ms| && k in ms[i]
    ensures forall i :: 0 <= i < |ms| && k in ms[i] && (forall j :: i < j < |ms| ==> k !in ms[j]) ==>
              MergeAll(ms)[k] == ms[i][k]
    decreases |ms|
  {
    if ms != [] {
      var init := ms[..|ms| - 1];
      MergeLastWins(init, k);
      forall i | 0 <= i < |init| ensures init[i] == ms[i] { }
      if k !in ms[|ms| - 1] {
        forall i | 0 <= i < |ms| - 1 && k in ms[i] && (forall j :: i < j < |ms| ==> k !in ms[j])
          ensures MergeAll(ms)[k] == ms[i][k]
        {
          assert forall j :: i < j < |init| ==> k !in init[j];
        }
      }
    }
  }
}
