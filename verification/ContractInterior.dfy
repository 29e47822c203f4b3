/**
  References that lead to the root of a split contract other than from its parts to a whole component:
  those into the inside of a component, and those that stay in the root.
 */
module ContractInterior {
  import opened Wrappers
  import opened JsonDocuments
  import opened ContractReferences
  import opened SchemaWalk
  import opened FileReferences
  import opened ContractSplit
  import opened ContractReading
  import opened ContractNames

  // ----- Pointers into a component -----

  lemma {:induction false} LocateConcat(value: Json, first: seq<string>, rest: seq<string>)
    ensures Locate(value, first + rest)
            == match Locate(value, first) case Some(inner) => Locate(inner, rest) case None => None
    decreases |first|
  {
    if first == [] {
      assert first + rest == rest;
    } else {
      assert (first + rest)[1..] == first[1..] + rest;
      if value.Obj? && Lookup(value.fields, first[0]).Some? {
        LocateConcat(Lookup(value.fields, first[0]).value, first[1..], rest);
      }
    }
  }

  predicate IsReference(value: Json) {
    value.Obj? && |value.fields| == 1 && value.fields[0].key == "$ref" && value.fields[0].value.Str?
  }

  lemma KindReferenceAt(contract: Contract, recorded: DomainsBySchema, kind: string, i: nat)
    requires i < |contract.Kind(kind)|
    ensures var references := KindReferences(contract, recorded, kind);
            && |references| == |contract.Kind(kind)| && references[i].key == contract.Kind(kind)[i].key
            && IsReference(references[i].value)
  {
    hide Owner, DomainsOf;
  }

  /** What the root holds for a component is nothing but a reference. */
  lemma RootHoldsReferences(contract: Contract, recorded: DomainsBySchema, kind: string, name: string)
    ensures var held := Lookup(KindReferences(contract, recorded, kind), name);
            && (held.Some? <==> Lookup(contract.Kind(kind), name).Some?)
            && (held.Some? ==> IsReference(held.value))
  {
    hide KindReferences, IsReference;
    var references, fields := KindReferences(contract, recorded, kind), contract.Kind(kind);
    SameSize(contract, recorded, kind);
    forall i | 0 <= i < |fields|
      ensures references[i].key == fields[i].key && IsReference(references[i].value)
    {
      KindReferenceAt(contract, recorded, kind, i);
    }
    LookupFinds(references, name);
    LookupFinds(fields, name);
  }

  lemma SameSize(contract: Contract, recorded: DomainsBySchema, kind: string)
    ensures |KindReferences(contract, recorded, kind)| == |contract.Kind(kind)|
  {
  }

  lemma LocateInReference(value: Json, tokens: seq<string>)
    requires IsReference(value) && tokens != []
    ensures Locate(value, tokens).Some? <==> tokens == ["$ref"]
  {
    assert value.fields[1..] == [] && tokens == [tokens[0]] + tokens[1..];
    assert Lookup(value.fields, tokens[0]) == if tokens[0] == "$ref" then Some(value.fields[0].value) else None;
  }

  /** Below a component the root has nothing but the text of its reference. */
  lemma NothingInside(contract: Contract, root: string, recorded: DomainsBySchema, files: Files,
                      kind: string, name: string, tokens: seq<string>)
    requires contract.Valid() && IsSplit(contract, root, recorded, files) && tokens != []
    ensures [root] in files
    ensures Locate(files[[root]], ["components", kind, name] + tokens).Some?
            <==> SplitKind(kind) && Lookup(contract.Kind(kind), name).Some? && tokens == ["$ref"]
  {
    hide KindReferences, RootComponents, RootFields, IsSplit;
    RootOfSplit(contract, root, recorded, files);
    RootSections(contract, recorded);
    RootKind(contract, recorded, kind);
    LocateThree(files[[root]], "components", kind, name, RootComponents(contract, recorded),
                KindReferences(contract, recorded, kind));
    LocateConcat(files[[root]], ["components", kind, name], tokens);
    RootHoldsReferences(contract, recorded, kind, name);
    var held := Lookup(KindReferences(contract, recorded, kind), name);
    if held.Some? {
      LocateInReference(held.value, tokens);
    }
    EmptyKind(contract, kind, name);
  }

  lemma EmptyKind(contract: Contract, kind: string, name: string)
    ensures contract.Kind(kind) == [] ==> Lookup(contract.Kind(kind), name).None?
  {
  }

  lemma TokensInside(kind: string, name: string, inner: string)
    requires SafeName(kind) && SafeName(name)
    ensures Tokens("/components/" + kind + "/" + name + "/" + inner) == ["components", kind, name] + Tokens("/" + inner)
    ensures Tokens("/" + inner) != []
  {
    hide Tokens, Unescape;
    AllowedNamesAreSafe("components");
    SafeUnescapes("components");
    SafeUnescapes(kind);
    SafeUnescapes(name);
    var third, second := name + "/" + inner, kind + "/" + (name + "/" + inner);
    SplitPair(name, inner);
    SplitPair(kind, third);
    SplitPair("components", second);
    assert "/" + name + "/" + inner == "/" + third;
    assert "/" + kind + "/" + third == "/" + second;
    assert "/components/" + kind + "/" + name + "/" + inner == "/" + "components" + "/" + second;
    TokensOfName(inner);
  }

  /** Where a rewritten reference into a component leads. */
  lemma LocateInside(from: Path, kind: string, name: string, inner: string)
    requires |from| == 3 && SafeName(kind) && SafeName(name)
    ensures Locator(from, ROOT_FILE + LOCAL + kind + "/" + name + "/" + inner)
            == Location(["openapi.yaml"], ["components", kind, name] + Tokens("/" + inner))
  {
    hide Split, FirstOf, Tokens, Relative, Join, Unescape;
    var segments := ["..", "..", "openapi.yaml"];
    JoinThree("..", "..", "openapi.yaml");
    assert ROOT_FILE == Join(segments, '/');
    SplitJoin(segments, '/');
    RelativeUpwards(Directory(from));
    TokensInside(kind, name, inner);
    var fragment := "/components/" + kind + "/" + name + "/" + inner;
    assert ROOT_FILE + LOCAL + kind + "/" + name + "/" + inner == ROOT_FILE + "#" + fragment;
    LocatorParts(from, ROOT_FILE, fragment);
  }

  /**
    A reference into the inside of a component, rewritten in a file of the split contract, finds nothing:
    the root has only a reference in the component's place. The one exception is a pointer to the text of
    that reference itself, in a root that is called `openapi.yaml`.
   */
  lemma InnerReferenceIsLost(contract: Contract, root: string, recorded: DomainsBySchema, files: Files,
                             from: Path, kind: string, name: string, inner: string)
    requires contract.Valid() && IsSplit(contract, root, recorded, files)
    requires |from| == 3 && SafeName(kind) && SafeName(name)
    ensures Resolve(files, from, RewriteText(LOCAL + kind + "/" + name + "/" + inner)).Some?
            <==> && root == "openapi.yaml" && SplitKind(kind) && Lookup(contract.Kind(kind), name).Some?
                 && Tokens("/" + inner) == ["$ref"]
  {
    hide Locator, Tokens, SafeName, IsSplit, Locate;
    var text := LOCAL + kind + "/" + name + "/" + inner;
    assert text[..|LOCAL|] == LOCAL;
    assert RewriteText(text) == ROOT_FILE + LOCAL + kind + "/" + name + "/" + inner;
    TokensInside(kind, name, inner);
    LocateInside(from, kind, name, inner);
    RootIsTheOnlyTopFile(contract, root, recorded, files);
    NothingInside(contract, root, recorded, files, kind, name, Tokens("/" + inner));
  }

  // ----- References that stay in the root -----

  /** The event contracts stay in the root as they were. */
  lemma EventContractsStay(contract: Contract, root: string, recorded: DomainsBySchema, files: Files)
    requires contract.Valid() && IsSplit(contract, root, recorded, files)
    ensures [root] in files && Locate(files[[root]], ["x-event-contracts"]) == contract.eventContracts
  {
    hide RootFields, IsSplit;
    RootOfSplit(contract, root, recorded, files);
    LocateOne(files[[root]], "x-event-contracts");
    EventsInRoot(contract, recorded);
  }

  lemma EventsInRoot(contract: Contract, recorded: DomainsBySchema)
    requires contract.Valid()
    ensures Lookup(RootFields(contract, recorded), "x-event-contracts") == contract.eventContracts
  {
    hide References, RootComponents;
    var moved := [Field("paths", Obj(References(ByPath, PATHS_FOLDER, true, contract.paths))),
                  Field("components", Obj(RootComponents(contract, recorded)))];
    var events := match contract.eventContracts case Some(e) => [Field("x-event-contracts", e)] case None => [];
    assert RootFields(contract, recorded) == contract.rest + moved + events;
    NoSuchKey(contract.rest, "x-event-contracts");
    NoSuchKey(moved, "x-event-contracts");
    LookupConcat(contract.rest, moved, "x-event-contracts");
    LookupConcat(contract.rest + moved, events, "x-event-contracts");
    assert events != [] ==> Lookup(events, "x-event-contracts") == Some(events[0].value);
  }

  lemma LocateInRoot(root: string, kind: string, name: string)
    requires SafeName(kind) && SafeName(name)
    ensures Locator([root], LOCAL + kind + "/" + name) == Location([root], ["components", kind, name])
  {
    hide Tokens, Unescape;
    var uri := LOCAL + kind + "/" + name;
    var fragment := "/components/" + kind + "/" + name;
    assert uri == "#" + fragment && uri[0] == '#' && uri[1..] == fragment;
    AllowedNamesAreSafe("components");
    SafeUnescapes("components");
    var rest := kind + "/" + name;
    assert fragment == "/" + "components" + "/" + rest && "/" + kind + "/" + name == "/" + rest;
    SplitPair("components", rest);
    PointerKeepsPairIffSafe(kind, name);
  }

  /** A component reference that stays in the root, as in the event contracts, resolves whatever the root is called. */
  lemma RootReferencesResolve(contract: Contract, root: string, recorded: DomainsBySchema, files: Files,
                              kind: string, name: string)
    requires contract.Valid() && IsSplit(contract, root, recorded, files) && KnownDomains(recorded)
    requires SafeName(kind) && SafeName(name) && Component(contract.components, kind, name).Some?
    ensures ResolveThrough(files, [root], LOCAL + kind + "/" + name)
            == if SplitKind(kind) then Some(RewriteComponentRefs(Component(contract.components, kind, name).value)) else None
  {
    hide IsSplit, KnownDomains, SafeName, Locator, ResolveThrough, RewriteComponentRefs;
    LocateInRoot(root, kind, name);
    ResolveInRoot(contract, root, recorded, files, [root], LOCAL + kind + "/" + name, kind, name);
  }
}
