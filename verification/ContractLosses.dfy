/** Contracts whose split loses something: the cases in which reading back is not the inverse. */
module ContractLosses {
  import opened Wrappers
  import opened JsonDocuments
  import opened ContractReferences
  import opened SchemaWalk
  import opened FileReferences
  import opened ContractSplit
  import opened ContractReading
  import opened ContractNames
  import opened ContractSplitting
  import opened ContractInterior

  /**
    For every unsafe name, a contract with one empty path and one schema of that name: its split holds the
    schema in the common file, and the root's reference to it resolves to nothing.
   */
  method LoseSchema(name: string) returns (contract: Contract, files: Files, uri: string)
    requires !SafeName(name)
    ensures contract.Valid() && contract.paths != [] && contract.Kind("schemas") == [Field(name, Null)]
    ensures IsSplit(contract, "openapi.yaml", map[], files)
    ensures RefUri(KindReferences(contract, map[], "schemas")[0].value) == Some(uri)
    ensures Resolve(files, ["openapi.yaml"], uri) == None
  {
    hide IsSplit, KindReferences, Resolve, RefUri, SafeName;
    contract := Contract([Field("/", Obj([]))], map["schemas" := [Field(name, Null)]], None, []);
    files := WriteFiles(contract, "openapi.yaml", map[]);
    SoleComponentResolvesIffSafe(contract, "openapi.yaml", map[], files, "schemas", name);
    uri := RefUri(KindReferences(contract, map[], "schemas")[0].value).value;
  }

  // ----- A contract with one path -----

  const ROUTE := "/a"

  /** A contract with one path and schemas without references of their own. */
  function OnePath(item: Json, schemas: seq<Field>): Contract {
    Contract([Field(ROUTE, item)], map["schemas" := schemas], None, [])
  }

  predicate NoReferences(schemas: seq<Field>) {
    forall field | field in schemas :: RefsIn(field.value) == {}
  }

  lemma NoTargetRefs(item: Json, schemas: seq<Field>, ref: string)
    requires NoReferences(schemas)
    ensures TargetRefs(OnePath(item, schemas).components, ref) == {}
  {
    var components := OnePath(item, schemas).components;
    if Target(components, ref).Some? {
      LookupFinds(schemas, ParseRef(ref).value.name);
    }
  }

  lemma ReachIsOwn(item: Json, schemas: seq<Field>, value: Json, ref: string)
    requires NoReferences(schemas) && Reaches(OnePath(item, schemas).components, value, ref)
    ensures ref in RefsIn(value)
  {
    hide OnePath, RefsIn;
    forall other
      ensures TargetRefs(OnePath(item, schemas).components, other) == {}
    {
      NoTargetRefs(item, schemas, other);
    }
    ClosedSetHoldsReach(OnePath(item, schemas).components, value, RefsIn(value), ref);
  }

  lemma RootsOfOnePath(item: Json, schemas: seq<Field>)
    ensures Roots(OnePath(item, schemas)) == [Root(item, PathDomain(item)), Root(Obj([]), "common"), Root(Obj([]), "common")]
    ensures OnePath(item, schemas).Kind("schemas") == schemas
  {
    hide PathDomain;
    var contract := OnePath(item, schemas);
    assert "parameters" != "schemas" && "responses" != "schemas" by {
      assert "parameters"[0] == 'p' && "responses"[0] == 'r' && "schemas"[0] == 's';
    }
    assert contract.Kind("parameters") == [] && contract.Kind("responses") == [];
  }

  /** Such a contract is split if its references have kinds and names. */
  method SplitOnePath(item: Json, schemas: seq<Field>, root: string) returns (files: Files, recorded: DomainsBySchema)
    requires NoReferences(schemas) && schemas != [] && DistinctKeys(schemas)
    requires item.Obj? && item.fields != [] && item.fields[0].key != "$ref"
    requires forall ref | ref in RefsIn(item) :: ParseRef(ref).Some?
    ensures var contract := OnePath(item, schemas);
            && contract.Valid() && IsSplit(contract, root, recorded, files) && KnownDomains(recorded)
            && RecordsEntered(contract, recorded)
  {
    hide IsSplit, KnownDomains, RecordsEntered, FreshSearch, RefsIn, Roots;
    var contract := OnePath(item, schemas);
    assert !Unsplittable(contract) by {
      assert item.fields[0] in item.fields;
      RootsOfOnePath(item, schemas);
    }
    assert !MeetsMalformed(contract) by {
      SearchesSucceed(item, schemas);
    }
    var r;
    r, recorded := SplitContract(contract, root);
    files := r.value;
  }

  lemma SearchesSucceed(item: Json, schemas: seq<Field>)
    requires NoReferences(schemas) && forall ref | ref in RefsIn(item) :: ParseRef(ref).Some?
    ensures !MeetsMalformed(OnePath(item, schemas))
  {
    hide Roots, FreshSearch, RefsIn, Reaches, PathDomain, OnePath;
    var components := OnePath(item, schemas).components;
    RootsOfOnePath(item, schemas);
    assert RefsIn(Obj([])) == {} by {
      EmptyHasNoRefs();
    }
    NothingToEnter(components, Obj([]));
    FreshSearchIsExact(components, item);
    if !FreshSearch(components, item).ok {
      var ref :| Reaches(components, item, ref) && ParseRef(ref).None?;
      ReachIsOwn(item, schemas, item, ref);
    }
  }

  lemma EmptyHasNoRefs()
    ensures RefsIn(Obj([])) == {}
  {
  }

  // ----- References that lead nowhere -----

  const HOLDER := "x-schema"

  function Holding(ref: string): Json {
    Obj([Field(HOLDER, Reference(ref))])
  }

  lemma RefsOfHolding(ref: string)
    requires LOCAL <= ref
    ensures RefsIn(Holding(ref)) == {ref} && RefsIn(Null) == {}
    ensures RewriteComponentRefs(Holding(ref)) == Obj([Field(HOLDER, Reference(RewriteText(ref)))])
  {
    hide RewriteText;
    var reference := Reference(ref);
    RefsOfReference(ref);
    assert RewriteComponentRefs(Str(ref)) == Str(RewriteText(ref));
    assert RewriteComponentRefs(reference) == Reference(RewriteText(ref)) by {
      assert RewriteComponentRefs(reference).fields == [Field("$ref", Str(RewriteText(ref)))];
    }
    assert RewriteComponentRefs(Holding(ref)).fields == [Field(HOLDER, Reference(RewriteText(ref)))];
    RefsOfParts(Holding(ref));
    assert OwnRef(Holding(ref)) == None by {
      assert HOLDER[0] == 'x' && "$ref"[0] == '$';
      assert Holding(ref).fields[1..] == [];
      assert Lookup(Holding(ref).fields[1..], "$ref") == None;
      assert Lookup(Holding(ref).fields, "$ref") == None;
    }
    assert PartAt(Holding(ref), 0) == Some(reference);
  }

  lemma RefsOfReference(ref: string)
    requires LOCAL <= ref
    ensures RefsIn(Reference(ref)) == {ref}
  {
    assert LocalRef(Reference(ref).fields) == Some(ref);
  }

  /** Where the file of the path's domain holds the rewritten reference. */
  lemma HeldReference(ref: string, schemas: seq<Field>, root: string, recorded: DomainsBySchema, files: Files)
    requires LOCAL <= ref && IsSplit(OnePath(Holding(ref), schemas), root, recorded, files)
    ensures var from := DomainFile(PATHS_FOLDER, PathDomain(Holding(ref)));
            && |from| == 3 && from in files
            && Locate(files[from], ["paths", ROUTE, HOLDER]) == Some(Reference(RewriteText(ref)))
  {
    hide PathDomain, RewriteComponentRefs, RewriteText;
    var item := Holding(ref);
    var domain := PathDomain(item);
    var fields := [Field(ROUTE, item)];
    RefsOfHolding(ref);
    assert fields == OnePath(item, schemas).paths;
    assert DomainFor(ByPath, fields[0]) == domain && domain in Used(ByPath, fields);
    assert fields[..0] == [];
    var held := [Field(HOLDER, Reference(RewriteText(ref)))];
    assert Assigned(ByPath, fields, domain) == [Field(ROUTE, Obj(held))];
    var document := files[DomainFile(PATHS_FOLDER, domain)];
    assert document == Obj([Field("paths", Obj([Field(ROUTE, Obj(held))]))]);
    LocateThree(document, "paths", ROUTE, HOLDER, [Field(ROUTE, Obj(held))], held);
  }

  /** Under any other root name, a contract whose path refers to its schema, and whose split refers to no file. */
  method LoseReferences(root: string) returns (contract: Contract, files: Files, from: Path, uri: string)
    requires root != "openapi.yaml"
    ensures contract == OnePath(Holding(LOCAL + "schemas" + "/" + "A"), [Field("A", Null)])
    ensures exists recorded :: RecordsEntered(contract, recorded) && IsSplit(contract, root, recorded, files)
    ensures from in files && Locate(files[from], ["paths", ROUTE, HOLDER]) == Some(Reference(uri))
    ensures ResolveThrough(files, from, uri) == None
  {
    hide IsSplit, KnownDomains, RecordsEntered, SafeName, ResolveThrough, RefsIn, RewriteText, RewriteComponentRefs;
    var ref, schemas := LOCAL + "schemas" + "/" + "A", [Field("A", Null)];
    assert LOCAL <= ref;
    RefsOfHolding(ref);
    KindsAreSegments("schemas");
    AllowedNamesAreSafe("A");
    ParseRefOf("schemas", "A");
    contract := OnePath(Holding(ref), schemas);
    var recorded;
    files, recorded := SplitOnePath(Holding(ref), schemas, root);
    from, uri := DomainFile(PATHS_FOLDER, PathDomain(Holding(ref))), RewriteText(ref);
    HeldReference(ref, schemas, root, recorded, files);
    LookupAt(schemas, 0);
    LocalReferencesResolve(contract, root, recorded, files, from, "schemas", "A");
  }

  /** A contract whose path refers to a part of its schema: the part is there, and no longer found after the split. */
  method LoseInnerReference(root: string) returns (contract: Contract, files: Files, from: Path, uri: string)
    ensures contract == OnePath(Holding(LOCAL + "schemas" + "/" + "A" + "/" + "b"), [Field("A", Obj([Field("b", Null)]))])
    ensures Locate(Obj(contract.Kind("schemas")), Tokens("/A/b")) == Some(Null)
    ensures exists recorded :: RecordsEntered(contract, recorded) && IsSplit(contract, root, recorded, files)
    ensures from in files && Locate(files[from], ["paths", ROUTE, HOLDER]) == Some(Reference(uri))
    ensures Resolve(files, from, uri) == None
  {
    hide IsSplit, KnownDomains, RecordsEntered, SafeName, Resolve, RefsIn, RewriteText, RewriteComponentRefs, Tokens;
    var ref, schemas := LOCAL + "schemas" + "/" + "A" + "/" + "b", [Field("A", Obj([Field("b", Null)]))];
    assert LOCAL <= ref && ref == LOCAL + "schemas" + "/" + "A/b";
    RefsOfHolding(ref);
    NoRefsInside();
    KindsAreSegments("schemas");
    AllowedNamesAreSafe("A");
    ParseRefOf("schemas", "A/b");
    contract := OnePath(Holding(ref), schemas);
    var recorded;
    files, recorded := SplitOnePath(Holding(ref), schemas, root);
    from, uri := DomainFile(PATHS_FOLDER, PathDomain(Holding(ref))), RewriteText(ref);
    HeldReference(ref, schemas, root, recorded, files);
    TokensOfB();
    InnerReferenceIsLost(contract, root, recorded, files, from, "schemas", "A", "b");
  }

  lemma NoRefsInside()
    ensures RefsIn(Obj([Field("b", Null)])) == {}
  {
  }

  lemma TokensOfB()
    ensures Tokens("/" + "b") != ["$ref"]
    ensures Locate(Obj([Field("A", Obj([Field("b", Null)]))]), Tokens("/A/b")) == Some(Null)
  {
    hide Tokens;
    AllowedNamesAreSafe("A");
    AllowedNamesAreSafe("b");
    TokensOfName("b");
    PointerKeepsPairIffSafe("A", "b");
    assert "/A/b" == "/" + "A" + "/" + "b";
    assert ["b"][0] != ["$ref"][0];
    LocateTwo(Obj([Field("A", Obj([Field("b", Null)]))]), "A", [Field("b", Null)], "b");
  }

  // ----- A lost domain -----

  const DOUBLE := Repeating("x-first", "x-second", SchemaRef("A"), "x-more", Reference(SchemaRef("B")))
  const PAIR := [Field("A", Null), Field("B", Null)]

  lemma DoubleTexts()
    ensures SchemaRef("A") != SchemaRef("B") && LOCAL <= SchemaRef("A") && LOCAL <= SchemaRef("B")
    ensures "x-first" != "$ref" && "x-second" != "$ref" && "x-more" != "$ref"
    ensures NoReferences(PAIR) && DistinctKeys(PAIR) && PAIR != []
  {
    assert "x-first"[0] == "x-second"[0] == "x-more"[0] == 'x' && "$ref"[0] == '$';
    assert SchemaRef("A")[|LOCAL + "schemas/"|] == 'A' && SchemaRef("B")[|LOCAL + "schemas/"|] == 'B';
    assert PAIR[0].key[0] == 'A' && PAIR[1].key[0] == 'B';
    assert RefsIn(Null) == {};
  }

  lemma RefsOfDouble()
    ensures RefsIn(DOUBLE) == {SchemaRef("A"), SchemaRef("B")}
    ensures RefsIn(Obj([Field("$ref", Str(SchemaRef("A")))])) == {SchemaRef("A")}
  {
    hide RefsIn, SchemaRef;
    DoubleTexts();
    var a, b := Reference(SchemaRef("A")), Reference(SchemaRef("B"));
    RefsOfReference(SchemaRef("A"));
    RefsOfReference(SchemaRef("B"));
    RepeatingShape("x-first", "x-second", SchemaRef("A"), "x-more", b);
    RefsOfParts(DOUBLE);
    var again := Obj([Field("$ref", Str(SchemaRef("A"))), Field("x-more", b)]);
    assert PartAt(DOUBLE, 0) == Some(a) && PartAt(DOUBLE, 1) == Some(again);
    RefsOfParts(again);
    assert PartAt(again, 0) == None && PartAt(again, 1) == Some(b);
    assert PartRefs(again) == {SchemaRef("B")};
    assert RefsIn(again) == {SchemaRef("A"), SchemaRef("B")};
    assert PartRefs(DOUBLE) == {SchemaRef("A"), SchemaRef("B")};
  }

  lemma DoubleReaches(domain: string)
    ensures var contract := OnePath(DOUBLE, PAIR);
            RootReaches(contract.components, Roots(contract), domain, "B") <==> domain == PathDomain(DOUBLE)
  {
    hide RefsIn, Reaches, PathDomain, Roots;
    var contract := OnePath(DOUBLE, PAIR);
    RootsOfOnePath(DOUBLE, PAIR);
    DoubleTexts();
    RefsOfDouble();
    EmptyHasNoRefs();
    ReachesOwn(contract.components, DOUBLE, SchemaRef("B"));
    assert Roots(contract)[0] == Root(DOUBLE, PathDomain(DOUBLE));
    if Reaches(contract.components, Obj([]), SchemaRef("B")) {
      ReachIsOwn(DOUBLE, PAIR, Obj([]), SchemaRef("B"));
    }
  }

  lemma DoubleSkips(domain: string)
    ensures var contract := OnePath(DOUBLE, PAIR);
            !RootEnters(contract.components, Roots(contract), domain, "B")
  {
    hide RefsIn, Reaches, PathDomain, Roots, FreshSearch;
    var contract := OnePath(DOUBLE, PAIR);
    var components := contract.components;
    RootsOfOnePath(DOUBLE, PAIR);
    DoubleTexts();
    RefsOfDouble();
    EmptyHasNoRefs();
    NothingToEnter(components, Obj([]));
    RepeatedReferenceSkips(components, "x-first", "x-second", SchemaRef("A"), "x-more", Reference(SchemaRef("B")));
    if SchemaRef("B") in FreshSearch(components, DOUBLE).entered {
      ReachIsOwn(DOUBLE, PAIR, Obj([Field("$ref", Str(SchemaRef("A")))]), SchemaRef("B"));
    }
  }

  /** A path that repeats a reference beside a second one: the second schema loses the only domain that reaches it. */
  method LoseDomain() returns (contract: Contract, files: Files, recorded: DomainsBySchema)
    ensures contract == OnePath(DOUBLE, PAIR)
    ensures IsSplit(contract, "openapi.yaml", recorded, files) && RecordsEntered(contract, recorded)
    ensures forall domain :: RootReaches(contract.components, Roots(contract), domain, "B") <==> domain == PathDomain(DOUBLE)
    ensures PathDomain(DOUBLE) != "common" && Owner(DomainsOf(recorded, "B")) == "common"
  {
    hide IsSplit, RefsIn, Roots, FreshSearch, RootReaches, RootEnters, KnownDomains, PathDomain, NoReferences, ParseRef;
    DoubleTexts();
    RefsOfDouble();
    SchemaRefParses(SchemaRef("A"), "A");
    SchemaRefParses(SchemaRef("B"), "B");
    contract := OnePath(DOUBLE, PAIR);
    files, recorded := SplitOnePath(DOUBLE, PAIR, "openapi.yaml");
    forall domain
      ensures RootReaches(contract.components, Roots(contract), domain, "B") <==> domain == PathDomain(DOUBLE)
      ensures domain !in DomainsOf(recorded, "B")
    {
      DoubleReaches(domain);
      DoubleSkips(domain);
    }
    NoOwner(recorded, "B");
    NotCommon(DOUBLE);
  }

  lemma NoOwner(recorded: DomainsBySchema, name: string)
    requires forall domain :: domain !in DomainsOf(recorded, name)
    ensures Owner(DomainsOf(recorded, name)) == "common"
  {
  }

  lemma NotCommon(item: Json)
    ensures PathDomain(item) != "common"
  {
    hide PathTags;
    assert "common" !in PATH_DOMAINS by {
      assert "common"[0] == 'c' && "common"[1] == 'o';
    }
  }
}
