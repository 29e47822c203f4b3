/**
  References of an OpenAPI contract to its own components: how splitting rewrites them, and
  which of them a part of the contract reaches.
 */
module ContractReferences {
  import opened Wrappers
  import opened JsonDocuments

  const LOCAL := "#/components/"
  const ROOT_FILE := "../../openapi.yaml"

  // ----- Rewriting -----

  function RewriteText(text: string): string {
    if LOCAL <= text then ROOT_FILE + text else text
  }

  function RewriteComponentRefs(value: Json): Json {
    match value
    case Str(text) => Str(RewriteText(text))
    case Arr(items) => Arr(seq(|items|, i requires 0 <= i < |items| => RewriteComponentRefs(items[i])))
    case Obj(fields) =>
      Obj(seq(|fields|, i requires 0 <= i < |fields| =>
            Field(fields[i].key, RewriteComponentRefs(fields[i].value))))
    case _ => value
  }

  /** What a reader of a domain file undoes. */
  function UnrewriteText(text: string): string {
    if ROOT_FILE + LOCAL <= text then text[|ROOT_FILE|..] else text
  }

  function UnrewriteComponentRefs(value: Json): Json {
    match value
    case Str(text) => Str(UnrewriteText(text))
    case Arr(items) => Arr(seq(|items|, i requires 0 <= i < |items| => UnrewriteComponentRefs(items[i])))
    case Obj(fields) =>
      Obj(seq(|fields|, i requires 0 <= i < |fields| =>
            Field(fields[i].key, UnrewriteComponentRefs(fields[i].value))))
    case _ => value
  }

  /** No string already looks like a rewritten reference. */
  predicate Clean(value: Json) {
    match value
    case Str(text) => !(ROOT_FILE + LOCAL <= text)
    case Arr(items) => forall i | 0 <= i < |items| :: Clean(items[i])
    case Obj(fields) => forall i | 0 <= i < |fields| :: Clean(fields[i].value)
    case _ => true
  }

  lemma RewriteTextRoundTrip(text: string)
    ensures UnrewriteText(RewriteText(text)) == text <==> !(ROOT_FILE + LOCAL <= text)
  {
    var rewritten := RewriteText(text);
    if LOCAL <= text {
      assert text[..|LOCAL|] == LOCAL;
      assert rewritten[|ROOT_FILE|..] == text;
      assert rewritten[..|ROOT_FILE + LOCAL|] == ROOT_FILE + LOCAL;
      assert text[0] == '#' && (ROOT_FILE + LOCAL)[0] == '.';
    } else if ROOT_FILE + LOCAL <= text {
      assert |UnrewriteText(text)| < |text|;
    }
  }

  /** Undoing the rewriting gives the value back exactly when no string already carried the prefix. */
  lemma {:induction false} RewriteRoundTrip(value: Json)
    ensures UnrewriteComponentRefs(RewriteComponentRefs(value)) == value <==> Clean(value)
  {
    var back := UnrewriteComponentRefs(RewriteComponentRefs(value));
    match value
    case Str(text) => RewriteTextRoundTrip(text);
    case Arr(items) =>
      forall i | 0 <= i < |items|
        ensures back.items[i] == items[i] <==> Clean(items[i])
      {
        RewriteRoundTrip(items[i]);
      }
      if Clean(value) {
        assert back.items == items;
      }
    case Obj(fields) =>
      forall i | 0 <= i < |fields|
        ensures back.fields[i] == fields[i] <==> Clean(fields[i].value)
      {
        RewriteRoundTrip(fields[i].value);
      }
      if Clean(value) {
        assert back.fields == fields;
      }
    case _ =>
  }

  // ----- References -----

  /** The component reference of an object, if it is one. */
  function LocalRef(fields: seq<Field>): Option<string> {
    match Lookup(fields, "$ref")
    case Some(Str(text)) => if LOCAL <= text then Some(text) else None
    case _ => None
  }

  function OwnRefs(fields: seq<Field>): set<string> {
    match LocalRef(fields)
    case Some(ref) => {ref}
    case None => {}
  }

  /** Every component reference inside a value. */
  function RefsIn(value: Json): set<string> {
    match value
    case Arr(items) => set i, ref | 0 <= i < |items| && ref in RefsIn(items[i]) :: ref
    case Obj(fields) =>
      OwnRefs(fields)
      + set i, ref | 0 <= i < |fields| && fields[i].key != "$ref" && ref in RefsIn(fields[i].value) :: ref
    case _ => {}
  }

  /** No object with a component reference has a sibling field that holds another one. */
  predicate SiblingFree(value: Json) {
    match value
    case Arr(items) => forall i | 0 <= i < |items| :: SiblingFree(items[i])
    case Obj(fields) =>
      forall i | 0 <= i < |fields| && fields[i].key != "$ref" ::
        SiblingFree(fields[i].value) && (LocalRef(fields).Some? ==> RefsIn(fields[i].value) == {})
    case _ => true
  }

  /** Where a separator first occurs, or the length of the text. */
  function FirstOf(text: string, separator: char): (i: nat)
    ensures i <= |text|
    ensures separator !in text[..i]
    ensures i < |text| ==> text[i] == separator
  {
    if text == "" || text[0] == separator then 0
    else
      var i := 1 + FirstOf(text[1..], separator);
      assert text[..i] == [text[0]] + text[1..][..i-1];
      i
  }

  datatype ComponentName = ComponentName(kind: string, name: string)

  /** The kind and name of a reference; a reference without a name cannot be split in four. */
  function ParseRef(ref: string): Option<ComponentName> {
    if !(LOCAL <= ref) then None
    else
      var rest := ref[|LOCAL|..];
      var i := FirstOf(rest, '/');
      if i == |rest| then None else Some(ComponentName(rest[..i], rest[i+1..]))
  }

  function SchemaRef(name: string): string {
    LOCAL + "schemas/" + name
  }

  lemma {:induction false} FirstOfIs(text: string, separator: char, i: nat)
    requires i < |text| && text[i] == separator && separator !in text[..i]
    ensures FirstOf(text, separator) == i
  {
    if i > 0 {
      assert text[..i][0] == text[0];
      assert text[1..][..i-1] == text[..i][1..];
      FirstOfIs(text[1..], separator, i - 1);
    }
  }

  lemma {:induction false} FirstOfNone(text: string, separator: char)
    requires separator !in text
    ensures FirstOf(text, separator) == |text|
  {
    if text != "" {
      FirstOfNone(text[1..], separator);
    }
  }

  /** A reference of a kind without a slash is the one that names that component. */
  lemma ParseRefOf(kind: string, name: string)
    requires '/' !in kind
    ensures ParseRef(LOCAL + kind + "/" + name) == Some(ComponentName(kind, name))
  {
    var ref := LOCAL + kind + "/" + name;
    var rest := kind + "/" + name;
    assert ref == LOCAL + rest;
    assert ref[|LOCAL|..] == rest;
    assert rest[..|kind|] == kind && rest[|kind|] == '/';
    FirstOfIs(rest, '/', |kind|);
    assert rest[|kind|+1..] == name;
  }

  lemma ParsedRef(ref: string)
    requires ParseRef(ref).Some?
    ensures ref == LOCAL + ParseRef(ref).value.kind + "/" + ParseRef(ref).value.name
  {
    var rest := ref[|LOCAL|..];
    var i := FirstOf(rest, '/');
    assert ref == LOCAL + rest;
    assert rest == rest[..i] + "/" + rest[i+1..];
  }

  lemma SchemaRefParses(ref: string, name: string)
    ensures ParseRef(ref) == Some(ComponentName("schemas", name)) <==> ref == SchemaRef(name)
  {
    ParseRefOf("schemas", name);
    assert LOCAL + "schemas" + "/" + name == SchemaRef(name);
    if ParseRef(ref) == Some(ComponentName("schemas", name)) {
      ParsedRef(ref);
    }
  }

  // ----- Reachability -----

  type Components = map<string, seq<Field>>

  function Component(components: Components, kind: string, name: string): Option<Json> {
    if kind in components then Lookup(components[kind], name) else None
  }

  function Target(components: Components, ref: string): Option<Json> {
    match ParseRef(ref)
    case Some(parts) => Component(components, parts.kind, parts.name)
    case None => None
  }

  function TargetRefs(components: Components, ref: string): set<string> {
    match Target(components, ref)
    case Some(value) => RefsIn(value)
    case None => {}
  }

  /** A chain of references that starts inside a value. */
  ghost predicate Chain(components: Components, value: Json, path: seq<string>) {
    && |path| > 0
    && path[0] in RefsIn(value)
    && forall i | 0 < i < |path| :: path[i] in TargetRefs(components, path[i-1])
  }

  ghost predicate Reaches(components: Components, value: Json, ref: string) {
    exists path :: Chain(components, value, path) && path[|path| - 1] == ref
  }

  lemma ReachesOwn(components: Components, value: Json, ref: string)
    requires ref in RefsIn(value)
    ensures Reaches(components, value, ref)
  {
    assert Chain(components, value, [ref]);
  }

  lemma ReachesWithin(components: Components, inner: Json, outer: Json, ref: string)
    requires RefsIn(inner) <= RefsIn(outer) && Reaches(components, inner, ref)
    ensures Reaches(components, outer, ref)
  {
    var path :| Chain(components, inner, path) && path[|path| - 1] == ref;
    assert Chain(components, outer, path);
  }

  lemma ReachesThrough(components: Components, value: Json, via: string, ref: string)
    requires via in RefsIn(value) && Target(components, via).Some?
    requires Reaches(components, Target(components, via).value, ref)
    ensures Reaches(components, value, ref)
  {
    var path :| Chain(components, Target(components, via).value, path) && path[|path| - 1] == ref;
    var longer := [via] + path;
    assert forall i | 0 < i < |longer| :: longer[i] == path[i-1];
    assert Chain(components, value, longer) by {
      forall i | 0 < i < |longer|
        ensures longer[i] in TargetRefs(components, longer[i-1])
      {
        assert i > 1 ==> path[i-1] in TargetRefs(components, path[i-2]);
      }
    }
  }

  ghost predicate ClosedUnderTargets(components: Components, refs: set<string>) {
    forall ref | ref in refs :: TargetRefs(components, ref) <= refs
  }

  /** A closed set that holds a value's references holds everything the value reaches. */
  lemma ClosedSetHoldsReach(components: Components, value: Json, refs: set<string>, ref: string)
    requires RefsIn(value) <= refs && ClosedUnderTargets(components, refs)
    requires Reaches(components, value, ref)
    ensures ref in refs
  {
    var path :| Chain(components, value, path) && path[|path| - 1] == ref;
    for i := 0 to |path|
      invariant forall j | 0 <= j < i :: path[j] in refs
    {
      if i > 0 {
        assert path[i-1] in refs && path[i] in TargetRefs(components, path[i-1]);
      }
    }
  }
}
