/**
 Recursive redaction of provider output (src/fleetpulse/assistant/service.py:134-158). Which
 substitutions are made in one string is a parameter, `redact`.
 */
module Redaction {
  datatype Json =
    | Null
    | Bool(b: bool)
    | Number(n: real)
    | Str(s: string)
    | Arr(items: seq<Json>)
    | Obj(fields: seq<Field>)

  datatype Field = Field(key: string, value: Json)

  datatype Redacted = Redacted(text: string, count: nat)

  type Redactor = string -> Redacted

  // ---------- what redaction means ----------

  /** The string leaves of a document, from left to right; keys are not leaves. */
  function Leaves(v: Json): (r: seq<string>)
    decreases v
  {
    match v
    case Str(s) => [s]
    case Arr(items) => ItemLeaves(items)
    case Obj(fields) => FieldLeaves(fields)
    case _ => []
  }

  function ItemLeaves(items: seq<Json>): (r: seq<string>)
    decreases items
  {
    if items == [] then [] else ItemLeaves(items[..|items| - 1]) + Leaves(items[|items| - 1])
  }

  function FieldLeaves(fields: seq<Field>): (r: seq<string>)
    decreases fields
  {
    if fields == [] then [] else FieldLeaves(fields[..|fields| - 1]) + Leaves(fields[|fields| - 1].value)
  }

  /** Same tree, same keys, same non-string values; only strings may differ. */
  predicate SameShape(a: Json, b: Json)
    decreases a
  {
    match a
    case Str(_) => b.Str?
    case Arr(items) => b.Arr? && |b.items| == |items| && forall i :: 0 <= i < |items| ==> SameShape(items[i], b.items[i])
    case Obj(fields) =>
      && b.Obj? && |b.fields| == |fields|
      && forall i :: 0 <= i < |fields| ==> fields[i].key == b.fields[i].key && SameShape(fields[i].value, b.fields[i].value)
    case _ => a == b
  }

  function Texts(redact: Redactor, leaves: seq<string>): (r: seq<string>)
    ensures |r| == |leaves| && forall i :: 0 <= i < |leaves| ==> r[i] == redact(leaves[i]).text
  {
    seq(|leaves|, i requires 0 <= i < |leaves| => redact(leaves[i]).text)
  }

  function Counts(redact: Redactor, leaves: seq<string>): (n: nat) {
    if leaves == [] then 0 else Counts(redact, leaves[..|leaves| - 1]) + redact(leaves[|leaves| - 1]).count
  }

  /** The redacted document: every string replaced, everything else kept. */
  function Redact(redact: Redactor, v: Json): (r: Json)
    decreases v
  {
    match v
    case Str(s) => Str(redact(s).text)
    case Arr(items) => Arr(seq(|items|, i requires 0 <= i < |items| => Redact(redact, items[i])))
    case Obj(fields) => Obj(seq(|fields|, i requires 0 <= i < |fields| => Field(fields[i].key, Redact(redact, fields[i].value))))
    case _ => v
  }

  lemma {:induction false} RedactKeepsShape(redact: Redactor, v: Json)
    ensures SameShape(v, Redact(redact, v))
    decreases v
  {
    match v
    case Arr(items) =>
      forall i | 0 <= i < |items| ensures SameShape(items[i], Redact(redact, items[i])) {
        RedactKeepsShape(redact, items[i]);
      }
    case Obj(fields) =>
      forall i | 0 <= i < |fields| ensures SameShape(fields[i].value, Redact(redact, fields[i].value)) {
        RedactKeepsShape(redact, fields[i].value);
      }
    case _ =>
  }

  lemma TextsAppend(redact: Redactor, a: seq<string>, b: seq<string>)
    ensures Texts(redact, a + b) == Texts(redact, a) + Texts(redact, b)
  {
  }

  lemma {:induction false} CountsAppend(redact: Redactor, a: seq<string>, b: seq<string>)
    ensures Counts(redact, a + b) == Counts(redact, a) + Counts(redact, b)
  {
    if b == [] {
      assert a + b == a;
    } else {
      var k := |b| - 1;
      CountsAppend(redact, a, b[..k]);
      var c := a + b;
      assert c[..|c| - 1] == a + b[..k];
    }
  }

  /** Redaction acts on the leaves and on nothing else: leaf by leaf, in order. */
  lemma {:induction false} RedactLeaves(redact: Redactor, v: Json)
    ensures Leaves(Redact(redact, v)) == Texts(redact, Leaves(v))
    decreases v, 1
  {
    match v
    case Arr(items) => RedactItemLeaves(redact, items);
    case Obj(fields) => RedactFieldLeaves(redact, fields);
    case _ =>
  }

  lemma {:induction false} RedactItemLeaves(redact: Redactor, items: seq<Json>)
    ensures ItemLeaves(seq(|items|, i requires 0 <= i < |items| => Redact(redact, items[i]))) == Texts(redact, ItemLeaves(items))
    decreases items, 0
  {
    var out := seq(|items|, i requires 0 <= i < |items| => Redact(redact, items[i]));
    if items != [] {
      var k := |items| - 1;
      var front := items[..k];
      RedactItemLeaves(redact, front);
      RedactLeaves(redact, items[k]);
      assert out[..k] == seq(|front|, i requires 0 <= i < |front| => Redact(redact, front[i]));
      TextsAppend(redact, ItemLeaves(front), Leaves(items[k]));
    }
  }

  lemma {:induction false} RedactFieldLeaves(redact: Redactor, fields: seq<Field>)
    ensures FieldLeaves(seq(|fields|, i requires 0 <= i < |fields| => Field(fields[i].key, Redact(redact, fields[i].value))))
         == Texts(redact, FieldLeaves(fields))
    decreases fields, 0
  {
    var out := seq(|fields|, i requires 0 <= i < |fields| => Field(fields[i].key, Redact(redact, fields[i].value)));
    if fields != [] {
      var k := |fields| - 1;
      var front := fields[..k];
      RedactFieldLeaves(redact, front);
      RedactLeaves(redact, fields[k].value);
      assert out[..k] == seq(|front|, i requires 0 <= i < |front| => Field(front[i].key, Redact(redact, front[i].value)));
      TextsAppend(redact, FieldLeaves(front), Leaves(fields[k].value));
    }
  }

  lemma ItemCounts(redact: Redactor, items: seq<Json>, i: nat)
    requires i < |items|
    ensures Counts(redact, ItemLeaves(items[..i + 1])) == Counts(redact, ItemLeaves(items[..i])) + Counts(redact, Leaves(items[i]))
  {
    assert items[..i + 1][..i] == items[..i];
    CountsAppend(redact, ItemLeaves(items[..i]), Leaves(items[i]));
  }

  lemma FieldCounts(redact: Redactor, fields: seq<Field>, i: nat)
    requires i < |fields|
    ensures Counts(redact, FieldLeaves(fields[..i + 1]))
         == Counts(redact, FieldLeaves(fields[..i])) + Counts(redact, Leaves(fields[i].value))
  {
    assert fields[..i + 1][..i] == fields[..i];
    CountsAppend(redact, FieldLeaves(fields[..i]), Leaves(fields[i].value));
  }

  // ---------- the recursive program ----------

  /**
   `_redact_value`: the redacted document, and the number of substitutions, which is the sum of
   the substitutions in the string leaves.
   */
  method RedactValue(redact: Redactor, v: Json) returns (r: Json, count: nat)
    ensures r == Redact(redact, v)
    ensures count == Counts(redact, Leaves(v))
    decreases v
  {
    match v
    case Str(s) =>
      r, count := Str(redact(s).text), redact(s).count;
      assert [s][..0] == [];
    case Arr(items) =>
      var output;
      output, count := RedactItems(redact, items);
      r := Arr(output);
    case Obj(fields) =>
      var mapping;
      mapping, count := RedactFields(redact, fields);
      r := Obj(mapping);
    case _ =>
      r, count := v, 0;
  }

  /** The loop over a list. */
  method RedactItems(redact: Redactor, items: seq<Json>) returns (output: seq<Json>, count: nat)
    ensures Arr(output) == Redact(redact, Arr(items))
    ensures count == Counts(redact, ItemLeaves(items))
    decreases items
  {
    output, count := [], 0;
    for i := 0 to |items|
      invariant |output| == i && forall j :: 0 <= j < i ==> output[j] == Redact(redact, items[j])
      invariant count == Counts(redact, ItemLeaves(items[..i]))
    {
      var item, n := RedactValue(redact, items[i]);
      output, count := output + [item], count + n;
      ItemCounts(redact, items, i);
    }
    assert items[..|items|] == items;
  }

  /** The loop over a dictionary. */
  method RedactFields(redact: Redactor, fields: seq<Field>) returns (mapping: seq<Field>, count: nat)
    ensures Obj(mapping) == Redact(redact, Obj(fields))
    ensures count == Counts(redact, FieldLeaves(fields))
    decreases fields
  {
    mapping, count := [], 0;
    for i := 0 to |fields|
      invariant |mapping| == i && forall j :: 0 <= j < i ==> mapping[j] == Field(fields[j].key, Redact(redact, fields[j].value))
      invariant count == Counts(redact, FieldLeaves(fields[..i]))
    {
      var item, n := RedactValue(redact, fields[i].value);
      mapping, count := mapping + [Field(fields[i].key, item)], count + n;
      FieldCounts(redact, fields, i);
    }
    assert fields[..|fields|] == fields;
  }
}
