/** Primary-key resolution (`_get_primary_key`): among the fields flagged as
    primary key, the first whose type name is on the preferred list wins;
    otherwise the first flagged field in declaration order. A model without
    any flagged field has no key: the source then indexes an empty list and
    raises, which this model reports as `NoPrimaryKey`. */
module PrimaryKey {
  import opened Schema

  /** The preferred type names, verbatim, including the misspelling of
      "integer": a field typed "integer" is not preferred. */
  const PreferredTypes: seq<string> := ["uuid", "interger"]

  datatype KeyResult = Found(field: Field) | NoPrimaryKey

  predicate IsPreferredKey(f: Field)
  {
    f.isPrimaryKey && f.fieldType.name in PreferredTypes
  }

  /** The first preferred primary-key field, if any. */
  function FirstPreferredKey(fields: seq<Field>): Option<Field>
  {
    if fields == [] then None
    else if IsPreferredKey(fields[0]) then Some(fields[0])
    else FirstPreferredKey(fields[1..])
  }

  /** The primary-key fields in declaration order (the source's
      `possible_keys` once the loop has seen every field). */
  function KeyFields(fields: seq<Field>): seq<Field>
  {
    if fields == [] then []
    else (if fields[0].isPrimaryKey then [fields[0]] else []) + KeyFields(fields[1..])
  }

  /** The resolution rule as a function of the field list. */
  function ResolveKey(fields: seq<Field>): KeyResult
  {
    match FirstPreferredKey(fields)
    case Some(f) => Found(f)
    case None =>
      var keys := KeyFields(fields);
      if keys == [] then NoPrimaryKey else Found(keys[0])
  }

  predicate HasPrimaryKey(fields: seq<Field>)
  {
    exists i :: 0 <= i < |fields| && fields[i].isPrimaryKey
  }

  // ---------------------------------------------------------------------
  // The imperative resolution, as the source writes it.

  /** `_get_primary_key`: scan the fields once, returning at the first
      preferred key and collecting the other keys on the way. */
  method GetPrimaryKey(model: Model) returns (r: KeyResult)
    ensures r == ResolveKey(model.fields)
    ensures r.Found? <==> HasPrimaryKey(model.fields)
    ensures r.Found? ==> r.field in model.fields && r.field.isPrimaryKey
  {
    var fields := model.fields;
    var possibleKeys: seq<Field> := [];
    var i := 0;
    while i < |fields|
      invariant 0 <= i <= |fields|
      invariant forall j :: 0 <= j < i ==> !IsPreferredKey(fields[j])
      invariant possibleKeys == KeyFields(fields[..i])
    {
      var field := fields[i];
      if field.isPrimaryKey {
        if field.fieldType.name in PreferredTypes {
          FirstPreferredKeyAt(fields, i);
          ResolvedIsKey(fields);
          ResolveFailsIffNoKey(fields);
          return Found(field);
        } else {
          possibleKeys := possibleKeys + [field];
        }
      }
      KeyFieldsSnoc(fields[..i], field);
      assert fields[..i + 1] == fields[..i] + [field];
      i := i + 1;
    }
    assert fields[..i] == fields;
    NoPreferredKey(fields);
    ResolvedIsKey(fields);
    ResolveFailsIffNoKey(fields);
    if possibleKeys == [] {
      return NoPrimaryKey;
    }
    return Found(possibleKeys[0]);
  }

  // ---------------------------------------------------------------------
  // Properties of the resolution rule.

  lemma {:induction false} KeyFieldsSnoc(fields: seq<Field>, f: Field)
    ensures KeyFields(fields + [f]) == KeyFields(fields) + (if f.isPrimaryKey then [f] else [])
  {
    if fields != [] {
      assert (fields + [f])[1..] == fields[1..] + [f];
      KeyFieldsSnoc(fields[1..], f);
    } else {
      assert [f][1..] == [];
    }
  }

  /** `KeyFields` keeps every flagged field and nothing else. */
  lemma {:induction false} KeyFieldsAreKeys(fields: seq<Field>)
    ensures forall f :: f in KeyFields(fields) ==> f in fields && f.isPrimaryKey
    ensures forall i :: 0 <= i < |fields| && fields[i].isPrimaryKey ==> fields[i] in KeyFields(fields)
    ensures KeyFields(fields) == [] <==> !HasPrimaryKey(fields)
  {
    if fields != [] {
      KeyFieldsAreKeys(fields[1..]);
      forall i | 1 <= i < |fields| && fields[i].isPrimaryKey
        ensures fields[i] in KeyFields(fields)
      {
        assert fields[1..][i - 1] == fields[i];
      }
      if !fields[0].isPrimaryKey && HasPrimaryKey(fields) {
        var i :| 0 <= i < |fields| && fields[i].isPrimaryKey;
        assert fields[1..][i - 1] == fields[i];
      }
    }
  }

  /** The head of `KeyFields` is the flagged field of smallest index. */
  lemma {:induction false} KeyFieldsHead(fields: seq<Field>, i: nat)
    requires i < |fields| && fields[i].isPrimaryKey
    requires forall j :: 0 <= j < i ==> !fields[j].isPrimaryKey
    ensures KeyFields(fields) != [] && KeyFields(fields)[0] == fields[i]
  {
    if i > 0 {
      KeyFieldsHead(fields[1..], i - 1);
    }
  }

  /** `FirstPreferredKey` finds the preferred key of smallest index. */
  lemma {:induction false} FirstPreferredKeyAt(fields: seq<Field>, i: nat)
    requires i < |fields| && IsPreferredKey(fields[i])
    requires forall j :: 0 <= j < i ==> !IsPreferredKey(fields[j])
    ensures FirstPreferredKey(fields) == Some(fields[i])
  {
    if i > 0 {
      FirstPreferredKeyAt(fields[1..], i - 1);
    }
  }

  /** `FirstPreferredKey` fails exactly when no key has a preferred type. */
  lemma {:induction false} NoPreferredKey(fields: seq<Field>)
    ensures FirstPreferredKey(fields).None? <==> forall j :: 0 <= j < |fields| ==> !IsPreferredKey(fields[j])
  {
    if fields != [] {
      NoPreferredKey(fields[1..]);
      assert forall j :: 1 <= j < |fields| ==> fields[1..][j - 1] == fields[j];
    }
  }

  /** What `FirstPreferredKey` returns is a preferred key of the list. */
  lemma {:induction false} FirstPreferredKeyIsKey(fields: seq<Field>)
    ensures FirstPreferredKey(fields).Some? ==>
      FirstPreferredKey(fields).value in fields && IsPreferredKey(FirstPreferredKey(fields).value)
  {
    if fields != [] && !IsPreferredKey(fields[0]) {
      FirstPreferredKeyIsKey(fields[1..]);
    }
  }

  /** If some primary-key field has a preferred type, the first such field
      is the key, however many non-preferred keys come before it. */
  lemma ResolvesFirstPreferred(fields: seq<Field>, i: nat)
    requires i < |fields| && fields[i].isPrimaryKey && fields[i].fieldType.name in PreferredTypes
    requires forall j :: 0 <= j < i ==> !IsPreferredKey(fields[j])
    ensures ResolveKey(fields) == Found(fields[i])
  {
    FirstPreferredKeyAt(fields, i);
  }

  /** With no preferred-type key, the first primary-key field is the key. */
  lemma ResolvesFirstKey(fields: seq<Field>, i: nat)
    requires forall j :: 0 <= j < |fields| ==> !IsPreferredKey(fields[j])
    requires i < |fields| && fields[i].isPrimaryKey
    requires forall j :: 0 <= j < i ==> !fields[j].isPrimaryKey
    ensures ResolveKey(fields) == Found(fields[i])
  {
    NoPreferredKey(fields);
    KeyFieldsHead(fields, i);
  }

  /** The resolved key is always a primary-key field of the model. */
  lemma ResolvedIsKey(fields: seq<Field>)
    ensures ResolveKey(fields).Found? ==>
      ResolveKey(fields).field in fields && ResolveKey(fields).field.isPrimaryKey
  {
    FirstPreferredKeyIsKey(fields);
    KeyFieldsAreKeys(fields);
  }

  /** Resolution fails exactly when no field is flagged as primary key. */
  lemma ResolveFailsIffNoKey(fields: seq<Field>)
    ensures ResolveKey(fields) == NoPrimaryKey <==> !HasPrimaryKey(fields)
  {
    FirstPreferredKeyIsKey(fields);
    KeyFieldsAreKeys(fields);
    if FirstPreferredKey(fields).Some? {
      var f := FirstPreferredKey(fields).value;
      var i :| 0 <= i < |fields| && fields[i] == f;
      assert fields[i].isPrimaryKey;
    }
  }

  /** Because of the misspelled preferred name, a key typed "integer" does
      not beat an earlier key of another type. */
  lemma IntegerKeyNotPreferred(code: Field, id: Field)
    requires code.isPrimaryKey && code.fieldType.name == "varchar"
    requires id.isPrimaryKey && id.fieldType.name == "integer"
    ensures ResolveKey([code, id]) == Found(code)
  {
    assert !IsPreferredKey(code) && !IsPreferredKey(id);
    ResolvesFirstKey([code, id], 0);
  }
}
