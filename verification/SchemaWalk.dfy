/**
  The search that records, for each schema, the domains from whose roots it is reached. The
  reference graph may be cyclic; references already seen by a search are not entered again,
  and the other fields of an object that repeats one are skipped.
 */
module SchemaWalk {
  import opened Wrappers
  import opened JsonDocuments
  import opened ContractReferences

  type DomainsBySchema = map<string, set<string>>

  function DomainsOf(recorded: DomainsBySchema, name: string): set<string> {
    if name in recorded then recorded[name] else {}
  }

  /** `after` adds one domain to exactly the schemas that the new references name. */
  ghost predicate Marks(before: DomainsBySchema, after: DomainsBySchema, added: set<string>, domain: string) {
    forall name :: DomainsOf(after, name)
                   == DomainsOf(before, name) + (if SchemaRef(name) in added then {domain} else {})
  }

  lemma MarksCompose(a: DomainsBySchema, b: DomainsBySchema, c: DomainsBySchema,
                     first: set<string>, second: set<string>, domain: string)
    requires Marks(a, b, first, domain) && Marks(b, c, second, domain)
    ensures Marks(a, c, first + second, domain)
  {
  }

  // ----- The search as a function -----

  /** A finite set that holds every reference a search can meet. */
  ghost predicate Universe(components: Components, refs: set<string>) {
    forall ref :: TargetRefs(components, ref) <= refs
  }

  /**
    What a search has done: the references it entered, the references in the fields it skipped,
    and whether every reference it entered had a kind and a name.
   */
  datatype Found = Found(entered: set<string>, skipped: set<string>, ok: bool) {
    function Then(next: Found): Found {
      Found(next.entered, skipped + next.skipped, ok && next.ok)
    }
  }

  function Size(value: Json): nat {
    match value
    case Arr(items) => |items|
    case Obj(fields) => |fields|
    case _ => 0
  }

  /** An item of an array, or the value of a field that is no reference. */
  function PartAt(value: Json, i: nat): (part: Option<Json>)
    requires i < Size(value)
    ensures part.Some? ==> part.value < value && RefsIn(part.value) <= RefsIn(value)
  {
    match value
    case Arr(items) => Some(items[i])
    case Obj(fields) => if fields[i].key == "$ref" then None else Some(fields[i].value)
  }

  /** The component reference that a value is. */
  function OwnRef(value: Json): Option<string> {
    if value.Obj? then LocalRef(value.fields) else None
  }

  /** The references in the parts of a value. */
  ghost function PartRefs(value: Json): set<string> {
    set i, ref | 0 <= i < Size(value) && PartAt(value, i).Some? && ref in RefsIn(PartAt(value, i).value) :: ref
  }

  lemma RefsOfParts(value: Json)
    ensures RefsIn(value) == PartRefs(value) + match OwnRef(value) case Some(ref) => {ref} case None => {}
  {
    var own := match OwnRef(value) case Some(ref) => {ref} case None => {};
    forall ref | ref in RefsIn(value)
      ensures ref in PartRefs(value) + own
    {
      if value.Arr? {
        var i :| 0 <= i < |value.items| && ref in RefsIn(value.items[i]);
        assert PartAt(value, i) == Some(value.items[i]);
      } else if ref !in own {
        var i :| 0 <= i < |value.fields| && value.fields[i].key != "$ref" && ref in RefsIn(value.fields[i].value);
        assert PartAt(value, i) == Some(value.fields[i].value);
      }
    }
  }

  ghost function Search(components: Components, value: Json, seen: set<string>, universe: set<string>): (found: Found)
    requires Universe(components, universe) && RefsIn(value) <= universe
    ensures seen <= found.entered
    decreases universe - seen, value, 2
  {
    match OwnRef(value)
    case Some(ref) =>
      if ref in seen then Found(seen, PartRefs(value), true)
      else
        var through := SearchReference(components, value, seen, universe);
        through.Then(SearchParts(components, value, Size(value), through.entered, universe))
    case None => SearchParts(components, value, Size(value), seen, universe)
  }

  /** The first parts of a value, one after the other. */
  ghost function SearchParts(components: Components, value: Json, n: nat, seen: set<string>, universe: set<string>)
    : (found: Found)
    requires Universe(components, universe) && RefsIn(value) <= universe && n <= Size(value)
    ensures seen <= found.entered
    decreases universe - seen, value, 1, n
  {
    if n == 0 then Found(seen, {}, true)
    else
      var before := SearchParts(components, value, n - 1, seen, universe);
      match PartAt(value, n - 1)
      case Some(part) => before.Then(Search(components, part, before.entered, universe))
      case None => before
  }

  /** The component that a value refers to. */
  ghost function SearchReference(components: Components, value: Json, seen: set<string>, universe: set<string>)
    : (found: Found)
    requires Universe(components, universe) && RefsIn(value) <= universe
    requires OwnRef(value).Some? && OwnRef(value).value !in seen
    ensures seen + {OwnRef(value).value} <= found.entered
    decreases universe - seen, value, 0
  {
    var ref := OwnRef(value).value;
    RefsOfParts(value);
    var entered := Found(seen + {ref}, {}, ParseRef(ref).Some?);
    match Target(components, ref)
    case Some(target) =>
      assert TargetRefs(components, ref) == RefsIn(target);
      entered.Then(Search(components, target, seen + {ref}, universe))
    case None => entered
  }

  // ----- What a search finds -----

  ghost predicate ReachesMalformed(components: Components, value: Json) {
    exists ref :: Reaches(components, value, ref) && ParseRef(ref).None?
  }

  /** No object with a reference has other fields with references, anywhere a search may come. */
  ghost predicate Plain(components: Components, value: Json) {
    && SiblingFree(value)
    && forall ref :: Target(components, ref).Some? ==> SiblingFree(Target(components, ref).value)
  }

  /**
    A search inside `value` that started with `seen` entered and skipped only what the value
    reaches, and whatever is referred to, by the value or by what it entered, it entered or skipped.
   */
  ghost predicate Enters(components: Components, value: Json, covered: set<string>, seen: set<string>, found: Found) {
    && seen <= found.entered
    && (forall ref | ref in found.entered - seen || ref in found.skipped :: Reaches(components, value, ref))
    && covered <= found.entered + found.skipped
    && (forall ref | ref in found.entered - seen :: TargetRefs(components, ref) <= found.entered + found.skipped)
    && (found.ok <==> forall ref | ref in found.entered - seen :: ParseRef(ref).Some?)
    && (Plain(components, value) ==> found.skipped == {})
  }

  lemma EntersPart(components: Components, part: Json, value: Json, seen: set<string>, found: Found)
    requires RefsIn(part) <= RefsIn(value) && (Plain(components, value) ==> Plain(components, part))
    requires Enters(components, part, RefsIn(part), seen, found)
    ensures Enters(components, value, RefsIn(part), seen, found)
  {
    hide Plain, Reaches;
    forall ref | ref in found.entered - seen || ref in found.skipped
      ensures Reaches(components, value, ref)
    {
      ReachesWithin(components, part, value, ref);
    }
  }

  lemma BothEnter(components: Components, value: Json, first: set<string>, second: set<string>, seen: set<string>,
                  found: Found, next: Found)
    requires Enters(components, value, first, seen, found)
    requires Enters(components, value, second, found.entered, next)
    ensures Enters(components, value, first + second, seen, found.Then(next))
  {
    hide Plain, Reaches;
  }

  lemma {:induction false} PartsEnter(components: Components, value: Json, n: nat, seen: set<string>, universe: set<string>)
    requires Universe(components, universe) && RefsIn(value) <= universe && n <= Size(value)
    ensures Enters(components, value, PartRefsUpTo(value, n), seen, SearchParts(components, value, n, seen, universe))
    decreases universe - seen, value, 1, n
  {
    hide Enters, Plain;
    if n == 0 {
      NothingEnters(components, value, seen);
      assert PartRefsUpTo(value, 0) == {};
    } else {
      PartsEnter(components, value, n - 1, seen, universe);
      var before := SearchParts(components, value, n - 1, seen, universe);
      MorePartRefs(value, n - 1);
      if PartAt(value, n - 1).Some? {
        var part := PartAt(value, n - 1).value;
        SearchEnters(components, part, before.entered, universe);
        PlainPart(components, value, n - 1);
        var next := Search(components, part, before.entered, universe);
        EntersPart(components, part, value, before.entered, next);
        BothEnter(components, value, PartRefsUpTo(value, n - 1), RefsIn(part), seen, before, next);
      } else {
        assert PartRefsUpTo(value, n) == PartRefsUpTo(value, n - 1);
      }
    }
  }

  ghost function PartRefsUpTo(value: Json, n: nat): set<string>
    requires n <= Size(value)
  {
    set i, ref | 0 <= i < n && PartAt(value, i).Some? && ref in RefsIn(PartAt(value, i).value) :: ref
  }

  lemma MorePartRefs(value: Json, n: nat)
    requires n < Size(value)
    ensures PartRefsUpTo(value, n + 1)
            == PartRefsUpTo(value, n) + match PartAt(value, n) case Some(part) => RefsIn(part) case None => {}
  {
    hide RefsIn, PartAt;
  }

  lemma NothingEnters(components: Components, value: Json, seen: set<string>)
    ensures Enters(components, value, {}, seen, Found(seen, {}, true))
  {
  }

  lemma PlainPart(components: Components, value: Json, i: nat)
    requires i < Size(value) && PartAt(value, i).Some?
    ensures Plain(components, value) ==> Plain(components, PartAt(value, i).value)
  {
  }

  lemma {:induction false} SearchEnters(components: Components, value: Json, seen: set<string>, universe: set<string>)
    requires Universe(components, universe) && RefsIn(value) <= universe
    ensures Enters(components, value, RefsIn(value), seen, Search(components, value, seen, universe))
    decreases universe - seen, value, 2
  {
    hide Enters, Plain, SearchParts, SearchReference, RefsIn;
    RefsOfParts(value);
    assert PartRefsUpTo(value, Size(value)) == PartRefs(value);
    match OwnRef(value)
    case Some(ref) =>
      if ref in seen {
        SkippedEnters(components, value, seen);
      } else {
        ReferenceEnters(components, value, seen, universe);
        var through := SearchReference(components, value, seen, universe);
        PartsEnter(components, value, Size(value), through.entered, universe);
        BothEnter(components, value, {ref}, PartRefs(value), seen, through,
                  SearchParts(components, value, Size(value), through.entered, universe));
        assert {ref} + PartRefs(value) == RefsIn(value);
      }
    case None =>
      PartsEnter(components, value, Size(value), seen, universe);
      assert RefsIn(value) == PartRefs(value);
  }

  /** An object that repeats a reference: its other fields are skipped, and in plain values they hold no reference. */
  lemma SkippedEnters(components: Components, value: Json, seen: set<string>)
    requires OwnRef(value).Some? && OwnRef(value).value in seen
    ensures Enters(components, value, RefsIn(value), seen, Found(seen, PartRefs(value), true))
  {
    RefsOfParts(value);
    forall ref | ref in PartRefs(value)
      ensures Reaches(components, value, ref)
    {
      ReachesOwn(components, value, ref);
    }
  }

  lemma {:induction false} ReferenceEnters(components: Components, value: Json, seen: set<string>, universe: set<string>)
    requires Universe(components, universe) && RefsIn(value) <= universe
    requires OwnRef(value).Some? && OwnRef(value).value !in seen
    ensures Enters(components, value, {OwnRef(value).value}, seen, SearchReference(components, value, seen, universe))
    decreases universe - seen, value, 0
  {
    hide Enters, Plain, Reaches, Search, SearchParts, RefsIn;
    var ref := OwnRef(value).value;
    RefsOfParts(value);
    OwnRefEnters(components, value, seen);
    if Target(components, ref).Some? {
      var target := Target(components, ref).value;
      assert TargetRefs(components, ref) == RefsIn(target);
      SearchEnters(components, target, seen + {ref}, universe);
      PlainTarget(components, value, ref);
      ThroughReference(components, value, ref, seen, Search(components, target, seen + {ref}, universe));
    }
  }

  /** A reference without a target adds only itself. */
  lemma OwnRefEnters(components: Components, value: Json, seen: set<string>)
    requires OwnRef(value).Some? && OwnRef(value).value !in seen
    ensures var ref := OwnRef(value).value;
            Target(components, ref).None? ==>
              Enters(components, value, {ref}, seen, Found(seen + {ref}, {}, ParseRef(ref).Some?))
    ensures Reaches(components, value, OwnRef(value).value)
  {
    hide Plain, Reaches, ParseRef;
    RefsOfParts(value);
    ReachesOwn(components, value, OwnRef(value).value);
  }

  /** What the search of a target enters, the reference enters with itself. */
  lemma ThroughReference(components: Components, value: Json, ref: string, seen: set<string>, found: Found)
    requires OwnRef(value) == Some(ref) && ref !in seen && Target(components, ref).Some?
    requires var target := Target(components, ref).value;
             && (Plain(components, value) ==> Plain(components, target))
             && Enters(components, target, RefsIn(target), seen + {ref}, found)
    ensures Enters(components, value, {ref}, seen, Found(seen + {ref}, {}, ParseRef(ref).Some?).Then(found))
  {
    hide Plain, Reaches, ParseRef, Target, RefsIn;
    RefsOfParts(value);
    ReachesOwn(components, value, ref);
    assert TargetRefs(components, ref) == RefsIn(Target(components, ref).value);
    forall reached | reached in found.entered - (seen + {ref}) || reached in found.skipped
      ensures Reaches(components, value, reached)
    {
      ReachesThrough(components, value, ref, reached);
    }
    assert found.entered - seen == found.entered - (seen + {ref}) + {ref};
  }

  lemma PlainTarget(components: Components, value: Json, ref: string)
    requires Target(components, ref).Some?
    ensures Plain(components, value) ==> Plain(components, Target(components, ref).value)
  {
  }

  // ----- When a search is exact -----

  ghost function ComponentRefs(components: Components): set<string> {
    set kind, i, ref | kind in components && 0 <= i < |components[kind]| && ref in RefsIn(components[kind][i].value) :: ref
  }

  lemma ComponentRefsAreUniversal(components: Components, more: set<string>)
    ensures Universe(components, ComponentRefs(components) + more)
  {
    forall ref
      ensures TargetRefs(components, ref) <= ComponentRefs(components)
    {
      if Target(components, ref).Some? {
        var parts := ParseRef(ref).value;
        LookupFinds(components[parts.kind], parts.name);
      }
    }
  }

  /** A search that has seen nothing yet. */
  ghost function FreshSearch(components: Components, value: Json): Found {
    ComponentRefsAreUniversal(components, RefsIn(value));
    Search(components, value, {}, ComponentRefs(components) + RefsIn(value))
  }

  /** Whatever the search skipped in one place it entered in another. */
  ghost predicate Thorough(components: Components, value: Json) {
    FreshSearch(components, value).skipped <= FreshSearch(components, value).entered
  }

  /**
    A fresh search enters only what its value reaches, and all of it exactly if it entered every
    reference that it skipped. In a plain value it skips none.
   */
  lemma FreshSearchIsExact(components: Components, value: Json)
    ensures var found := FreshSearch(components, value);
            && (forall ref | ref in found.entered :: Reaches(components, value, ref))
            && ((forall ref | Reaches(components, value, ref) :: ref in found.entered) <==> Thorough(components, value))
            && (!found.ok ==> ReachesMalformed(components, value))
            && (found.ok && Thorough(components, value) ==> !ReachesMalformed(components, value))
            && (Plain(components, value) ==> found.skipped == {})
  {
    hide Search, Plain, Reaches;
    var found := FreshSearch(components, value);
    ComponentRefsAreUniversal(components, RefsIn(value));
    SearchEnters(components, value, {}, ComponentRefs(components) + RefsIn(value));
    assert found.entered - {} == found.entered;
    if found.skipped <= found.entered {
      assert found.entered + found.skipped == found.entered;
      forall ref | Reaches(components, value, ref)
        ensures ref in found.entered
      {
        ClosedSetHoldsReach(components, value, found.entered, ref);
      }
    }
  }

  /** A value without references starts a search that ends at once. */
  lemma NothingToEnter(components: Components, value: Json)
    requires RefsIn(value) == {}
    ensures FreshSearch(components, value).ok && FreshSearch(components, value).entered == {}
  {
    hide FreshSearch;
    FreshSearchIsExact(components, value);
    forall ref
      ensures !Reaches(components, value, ref)
    {
      if Reaches(components, value, ref) {
        ClosedSetHoldsReach(components, value, {}, ref);
      }
    }
  }

  /** Two fields with the same reference, the second beside another value. */
  function Repeating(first: string, second: string, ref: string, sibling: string, value: Json): Json {
    Obj([Field(first, Obj([Field("$ref", Str(ref))])), Field(second, Obj([Field("$ref", Str(ref)), Field(sibling, value)]))])
  }

  /**
    The value beside a repeated reference is skipped: the search enters nothing more than the reference
    leads to, though what is in that value is reached too.
   */
  lemma RepeatedReferenceSkips(components: Components, first: string, second: string, ref: string, sibling: string, value: Json)
    requires LOCAL <= ref && first != "$ref" && second != "$ref" && sibling != "$ref"
    ensures var repeating := Repeating(first, second, ref, sibling, value);
            && (forall inner | inner in RefsIn(value) :: Reaches(components, repeating, inner))
            && (forall entered | entered in FreshSearch(components, repeating).entered ::
                  Reaches(components, Obj([Field("$ref", Str(ref))]), entered))
  {
    hide Search, RefsIn, Reaches, OwnRef, PartAt;
    var repeating := Repeating(first, second, ref, sibling, value);
    RepeatingShape(first, second, ref, sibling, value);
    var once, again := PartAt(repeating, 0).value, PartAt(repeating, 1).value;
    forall inner | inner in RefsIn(value)
      ensures Reaches(components, repeating, inner)
    {
      ReachesOwn(components, repeating, inner);
    }
    var universe := ComponentRefs(components) + RefsIn(repeating);
    ComponentRefsAreUniversal(components, RefsIn(repeating));
    OnlyOnce(components, repeating, once, again, universe);
    SearchEnters(components, once, {}, universe);
    var found := Search(components, once, {}, universe);
    assert found.entered - {} == found.entered;
  }

  lemma RepeatingShape(first: string, second: string, ref: string, sibling: string, value: Json)
    requires LOCAL <= ref && first != "$ref" && second != "$ref" && sibling != "$ref"
    ensures var repeating := Repeating(first, second, ref, sibling, value);
            && OwnRef(repeating).None? && Size(repeating) == 2 && RefsIn(value) <= RefsIn(repeating)
            && PartAt(repeating, 0) == Some(Obj([Field("$ref", Str(ref))])) && PartAt(repeating, 1).Some?
            && OwnRef(PartAt(repeating, 0).value) == OwnRef(PartAt(repeating, 1).value) == Some(ref)
  {
    hide RefsIn;
    var repeating := Repeating(first, second, ref, sibling, value);
    var again := PartAt(repeating, 1).value;
    assert repeating.fields[1..] == [Field(second, again)];
    assert [Field(second, again)][1..] == [];
    assert Lookup([Field(second, again)], "$ref") == None;
    assert PartAt(again, 1) == Some(value);
  }

  lemma OnlyOnce(components: Components, value: Json, once: Json, again: Json, universe: set<string>)
    requires Universe(components, universe) && RefsIn(value) <= universe
    requires OwnRef(value).None? && Size(value) == 2 && PartAt(value, 0) == Some(once) && PartAt(value, 1) == Some(again)
    requires OwnRef(once).Some? && OwnRef(again) == OwnRef(once)
    ensures Search(components, value, {}, universe).entered == Search(components, once, {}, universe).entered
  {
    hide RefsIn, OwnRef, PartAt, SearchReference;
    assert SearchParts(components, value, 0, {}, universe) == Found({}, {}, true);
    var before := SearchParts(components, value, 1, {}, universe);
    assert before.entered == Search(components, once, {}, universe).entered;
    assert OwnRef(once).value in before.entered;
    assert Search(components, again, before.entered, universe).entered == before.entered;
    assert SearchParts(components, value, 2, {}, universe)
           == before.Then(Search(components, again, before.entered, universe));
  }

  // ----- The search as the program makes it -----

  lemma {:induction false} BrokenStays(components: Components, value: Json, m: nat, n: nat, seen: set<string>, universe: set<string>)
    requires Universe(components, universe) && RefsIn(value) <= universe && m <= n <= Size(value)
    requires !SearchParts(components, value, m, seen, universe).ok
    ensures !SearchParts(components, value, n, seen, universe).ok
    decreases n
  {
    hide Search;
    if m < n {
      BrokenStays(components, value, m, n - 1, seen, universe);
    }
  }

  class SchemaWalker {
    const components: Components
    var recorded: DomainsBySchema

    constructor (components: Components)
      ensures this.components == components && recorded == map[]
    {
      this.components, recorded := components, map[];
    }

    method Record(name: string, domain: string)
      modifies this
      ensures Marks(old(recorded), recorded, {SchemaRef(name)}, domain)
    {
      recorded := recorded[name := DomainsOf(recorded, name) + {domain}];
      forall other
        ensures SchemaRef(other) == SchemaRef(name) <==> other == name
      {
        SchemaRefParses(SchemaRef(other), name);
        SchemaRefParses(SchemaRef(other), other);
      }
    }

    /** `ok` is false if some reference on the way names no component of a kind. */
    method Walk(value: Json, domain: string, seen: set<string>, ghost universe: set<string>)
      returns (out: set<string>, ok: bool)
      requires Universe(components, universe) && RefsIn(value) <= universe
      modifies this
      decreases universe - seen, value, 2
      ensures ok <==> Search(components, value, seen, universe).ok
      ensures ok ==> out == Search(components, value, seen, universe).entered
      ensures ok ==> Marks(old(recorded), recorded, out - seen, domain)
    {
      hide Marks, SearchParts, SearchReference, RefsIn;
      var own := OwnRef(value);
      if own.Some? && own.value in seen {
        NothingMarked(recorded, seen, domain);
        return seen, true;
      }
      out, ok := seen, true;
      if own.Some? {
        out, ok := WalkReference(value, domain, seen, universe);
        if !ok {
          return;
        }
      } else {
        NothingMarked(recorded, seen, domain);
      }
      ghost var marked, middle := recorded, out;
      out, ok := WalkParts(value, domain, out, universe);
      if ok {
        MarksCompose(old(recorded), marked, recorded, middle - seen, out - middle, domain);
        assert (middle - seen) + (out - middle) == out - seen;
      }
    }

    method WalkParts(value: Json, domain: string, seen: set<string>, ghost universe: set<string>)
      returns (out: set<string>, ok: bool)
      requires Universe(components, universe) && RefsIn(value) <= universe
      modifies this
      decreases universe - seen, value, 1
      ensures ok <==> SearchParts(components, value, Size(value), seen, universe).ok
      ensures ok ==> out == SearchParts(components, value, Size(value), seen, universe).entered
      ensures ok ==> Marks(old(recorded), recorded, out - seen, domain)
    {
      hide Marks, Search, RefsIn;
      out, ok := seen, true;
      NothingMarked(recorded, seen, domain);
      for i := 0 to Size(value)
        invariant ok && SearchParts(components, value, i, seen, universe).ok
        invariant out == SearchParts(components, value, i, seen, universe).entered
        invariant Marks(old(recorded), recorded, out - seen, domain)
      {
        var part := PartAt(value, i);
        if part.Some? {
          ghost var marked, middle := recorded, out;
          out, ok := Walk(part.value, domain, out, universe);
          if !ok {
            BrokenStays(components, value, i + 1, Size(value), seen, universe);
            return;
          }
          MarksCompose(old(recorded), marked, recorded, middle - seen, out - middle, domain);
          assert (middle - seen) + (out - middle) == out - seen;
        }
      }
    }

    method WalkReference(value: Json, domain: string, seen: set<string>, ghost universe: set<string>)
      returns (out: set<string>, ok: bool)
      requires Universe(components, universe) && RefsIn(value) <= universe
      requires OwnRef(value).Some? && OwnRef(value).value !in seen
      modifies this
      decreases universe - seen, value, 0
      ensures ok <==> SearchReference(components, value, seen, universe).ok
      ensures ok ==> out == SearchReference(components, value, seen, universe).entered
      ensures ok ==> Marks(old(recorded), recorded, out - seen, domain)
    {
      hide Search, SearchParts;
      var ref := OwnRef(value).value;
      out := seen + {ref};
      RefsOfParts(value);
      var parts := ParseRef(ref);
      if parts.None? {
        return out, false;
      }
      if parts.value.kind == "schemas" {
        Record(parts.value.name, domain);
      }
      ReferenceMarks(old(recorded), recorded, ref, domain);
      ghost var marked := recorded;
      ok := true;
      assert out - seen == {ref};
      var target := Component(components, parts.value.kind, parts.value.name);
      if target.Some? {
        assert TargetRefs(components, ref) == RefsIn(target.value);
        out, ok := Walk(target.value, domain, out, universe);
        if ok {
          MarksCompose(old(recorded), marked, recorded, {ref}, out - (seen + {ref}), domain);
          assert {ref} + (out - (seen + {ref})) == out - seen;
        }
      }
    }
  }

  lemma NothingMarked(recorded: DomainsBySchema, seen: set<string>, domain: string)
    ensures Marks(recorded, recorded, seen - seen, domain)
  {
  }

  /** Entering a reference records its domain exactly if it names a schema. */
  lemma ReferenceMarks(before: DomainsBySchema, after: DomainsBySchema, ref: string, domain: string)
    requires ParseRef(ref).Some?
    requires if ParseRef(ref).value.kind == "schemas" then Marks(before, after, {SchemaRef(ParseRef(ref).value.name)}, domain)
             else after == before
    ensures Marks(before, after, {ref}, domain)
  {
    forall name
      ensures SchemaRef(name) == ref <==> ParseRef(ref).value == ComponentName("schemas", name)
    {
      SchemaRefParses(ref, name);
    }
    SchemaRefParses(ref, ParseRef(ref).value.name);
  }

  /** Where a search starts, and the domain it records. */
  datatype Root = Root(value: Json, domain: string)

  ghost predicate RootReaches(components: Components, roots: seq<Root>, domain: string, name: string) {
    exists root :: root in roots && root.domain == domain && Reaches(components, root.value, SchemaRef(name))
  }

  /** Some search of the domain enters the schema. */
  ghost predicate RootEnters(components: Components, roots: seq<Root>, domain: string, name: string) {
    exists root :: root in roots && root.domain == domain && SchemaRef(name) in FreshSearch(components, root.value).entered
  }

  ghost predicate AllThorough(components: Components, roots: seq<Root>) {
    forall root | root in roots :: Thorough(components, root.value)
  }

  /** Records, for every schema, exactly the domains that have a search which enters it. */
  method CollectDomains(components: Components, roots: seq<Root>) returns (recorded: DomainsBySchema, ok: bool)
    ensures ok <==> forall root | root in roots :: FreshSearch(components, root.value).ok
    ensures ok ==> forall name, domain :: domain in DomainsOf(recorded, name) <==> RootEnters(components, roots, domain, name)
  {
    var walker := new SchemaWalker(components);
    for i := 0 to |roots|
      invariant walker.components == components && fresh(walker)
      invariant forall root | root in roots[..i] :: FreshSearch(components, root.value).ok
      invariant forall name, domain ::
                  domain in DomainsOf(walker.recorded, name) <==> RootEnters(components, roots[..i], domain, name)
    {
      ghost var before := walker.recorded;
      ghost var universe := ComponentRefs(components) + RefsIn(roots[i].value);
      ComponentRefsAreUniversal(components, RefsIn(roots[i].value));
      var out;
      out, ok := walker.Walk(roots[i].value, roots[i].domain, {}, universe);
      if !ok {
        assert roots[i] in roots && !FreshSearch(components, roots[i].value).ok;
        return map[], false;
      }
      assert out - {} == out;
      MoreRoots(components, roots, i, before, walker.recorded);
    }
    assert roots[..|roots|] == roots;
    recorded, ok := walker.recorded, true;
  }

  lemma MoreRoots(components: Components, roots: seq<Root>, i: nat, before: DomainsBySchema, after: DomainsBySchema)
    requires i < |roots|
    requires Marks(before, after, FreshSearch(components, roots[i].value).entered, roots[i].domain)
    requires forall name, domain :: domain in DomainsOf(before, name) <==> RootEnters(components, roots[..i], domain, name)
    ensures forall name, domain :: domain in DomainsOf(after, name) <==> RootEnters(components, roots[..i+1], domain, name)
    ensures forall root | root in roots[..i+1] :: root in roots[..i] || root == roots[i]
  {
    hide FreshSearch;
    assert roots[..i+1] == roots[..i] + [roots[i]];
    forall name, domain
      ensures RootEnters(components, roots[..i+1], domain, name)
              <==> || RootEnters(components, roots[..i], domain, name)
                   || (domain == roots[i].domain && SchemaRef(name) in FreshSearch(components, roots[i].value).entered)
    {
      assert roots[i] in roots[..i+1];
    }
  }

  /** A recorded domain always has a root that reaches the schema; where the searches are thorough, the converse holds too. */
  lemma EnteredIsReached(components: Components, roots: seq<Root>, domain: string, name: string)
    ensures RootEnters(components, roots, domain, name) ==> RootReaches(components, roots, domain, name)
    ensures AllThorough(components, roots) && RootReaches(components, roots, domain, name) ==>
              RootEnters(components, roots, domain, name)
  {
    hide FreshSearch, Reaches;
    forall root | root in roots
      ensures SchemaRef(name) in FreshSearch(components, root.value).entered ==> Reaches(components, root.value, SchemaRef(name))
      ensures Thorough(components, root.value) && Reaches(components, root.value, SchemaRef(name)) ==>
                SchemaRef(name) in FreshSearch(components, root.value).entered
    {
      FreshSearchIsExact(components, root.value);
    }
  }
}
