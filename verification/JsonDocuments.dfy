/** JSON values as trees; an object keeps its fields in order, as a YAML mapping does. */
module JsonDocuments {
  import opened Wrappers

  datatype Json =
    | Null
    | Bool(flag: bool)
    | Number(digits: string)
    | Str(text: string)
    | Arr(items: seq<Json>)
    | Obj(fields: seq<Field>)

  datatype Field = Field(key: string, value: Json)

  function Lookup(fields: seq<Field>, key: string): Option<Json> {
    if fields == [] then None
    else if fields[0].key == key then Some(fields[0].value)
    else Lookup(fields[1..], key)
  }

  predicate DistinctKeys(fields: seq<Field>) {
    forall i, j | 0 <= i < j < |fields| :: fields[i].key != fields[j].key
  }

  lemma {:induction false} LookupAt(fields: seq<Field>, i: nat)
    requires DistinctKeys(fields) && i < |fields|
    ensures Lookup(fields, fields[i].key) == Some(fields[i].value)
  {
    if i > 0 {
      assert fields[1..][i-1] == fields[i];
      LookupAt(fields[1..], i - 1);
    }
  }

  lemma {:induction false} LookupFinds(fields: seq<Field>, key: string)
    ensures Lookup(fields, key).Some? <==> exists i :: 0 <= i < |fields| && fields[i].key == key
    ensures Lookup(fields, key).Some? ==> exists i :: 0 <= i < |fields| && fields[i] == Field(key, Lookup(fields, key).value)
  {
    if fields != [] {
      LookupFinds(fields[1..], key);
      assert forall i :: 0 < i < |fields| ==> fields[1..][i-1] == fields[i];
    }
  }

  /** The value at a JSON pointer, given by its reference tokens. */
  function Locate(value: Json, tokens: seq<string>): Option<Json>
    decreases tokens
  {
    if tokens == [] then Some(value)
    else match value
      case Obj(fields) =>
        var field := Lookup(fields, tokens[0]);
        if field.Some? then Locate(field.value, tokens[1..]) else None
      case _ => None
  }
}
