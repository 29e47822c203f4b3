/** The split itself: the searches, the grouping of fields by domain, and the files. */
module ContractSplitting {
  import opened Wrappers
  import opened JsonDocuments
  import opened ContractReferences
  import opened SchemaWalk
  import opened FileReferences
  import opened ContractSplit
  import opened ContractReading
  import opened ContractNames

  /** The roots of the searches, in their order. */
  function Roots(contract: Contract): seq<Root> {
    seq(|contract.paths|, i requires 0 <= i < |contract.paths| =>
      Root(contract.paths[i].value, PathDomain(contract.paths[i].value)))
    + [Root(Obj(contract.Kind("parameters")), "common"), Root(Obj(contract.Kind("responses")), "common")]
    + match contract.eventContracts
      case Some(events) => [Root(events, "events")]
      case None => []
  }

  /** A path that is nothing but a reference tells a contract that was split before. */
  predicate AlreadySplit(item: Json) {
    item.Obj? && |item.fields| > 0 && forall field | field in item.fields :: field.key == "$ref"
  }

  /** A schema is recorded for exactly the domains with a search that enters it. */
  ghost predicate RecordsEntered(contract: Contract, recorded: DomainsBySchema) {
    forall name, domain ::
      domain in DomainsOf(recorded, name) <==> RootEnters(contract.components, Roots(contract), domain, name)
  }

  /** Some search meets a reference without a kind and a name. */
  ghost predicate MeetsMalformed(contract: Contract) {
    exists root :: root in Roots(contract) && !FreshSearch(contract.components, root.value).ok
  }

  method GroupByDomain(assignment: Assignment, fields: seq<Field>) returns (groups: map<string, seq<Field>>)
    ensures groups.Keys == Used(assignment, fields)
    ensures forall domain | domain in groups :: groups[domain] == Assigned(assignment, fields, domain)
  {
    hide DomainFor, RewriteComponentRefs, Used, Assigned;
    groups := map[];
    UsedOfNone(assignment, fields);
    for i := 0 to |fields|
      invariant groups.Keys == Used(assignment, fields[..i])
      invariant forall domain | domain in groups :: groups[domain] == Assigned(assignment, fields[..i], domain)
    {
      var domain := DomainFor(assignment, fields[i]);
      var group := if domain in groups then groups[domain] else [];
      UsedStep(assignment, fields, i);
      if domain !in groups {
        UnusedDomain(assignment, fields[..i], domain);
      }
      ghost var before := groups;
      groups := groups[domain := group + [Field(fields[i].key, RewriteComponentRefs(fields[i].value))]];
      forall other | other in groups
        ensures groups[other] == Assigned(assignment, fields[..i+1], other)
      {
        AssignedStep(assignment, fields, i, other);
      }
    }
    assert fields[..|fields|] == fields;
  }

  lemma UsedOfNone(assignment: Assignment, fields: seq<Field>)
    ensures Used(assignment, fields[..0]) == {}
  {
  }

  lemma UsedStep(assignment: Assignment, fields: seq<Field>, i: nat)
    requires i < |fields|
    ensures Used(assignment, fields[..i+1]) == Used(assignment, fields[..i]) + {DomainFor(assignment, fields[i])}
  {
    hide DomainFor;
    var before, after := fields[..i], fields[..i+1];
    assert after == before + [fields[i]];
    forall domain | domain in Used(assignment, before)
      ensures domain in Used(assignment, after)
    {
      var j :| 0 <= j < |before| && DomainFor(assignment, before[j]) == domain;
      assert after[j] == before[j];
    }
    assert after[i] == fields[i];
  }

  lemma AssignedStep(assignment: Assignment, fields: seq<Field>, i: nat, domain: string)
    requires i < |fields|
    ensures Assigned(assignment, fields[..i+1], domain)
            == Assigned(assignment, fields[..i], domain)
               + if DomainFor(assignment, fields[i]) == domain
                 then [Field(fields[i].key, RewriteComponentRefs(fields[i].value))] else []
  {
    hide DomainFor, RewriteComponentRefs;
    assert fields[..i+1][..i] == fields[..i];
  }

  lemma {:induction false} UnusedDomain(assignment: Assignment, fields: seq<Field>, domain: string)
    requires domain !in Used(assignment, fields)
    ensures Assigned(assignment, fields, domain) == []
  {
    hide DomainFor, RewriteComponentRefs;
    if fields != [] {
      assert DomainFor(assignment, fields[|fields| - 1]) in Used(assignment, fields);
      UnusedDomain(assignment, fields[..|fields| - 1], domain);
    }
  }

  method WriteDomainFiles(files: Files, folder: string, groups: map<string, seq<Field>>) returns (written: Files)
    ensures forall path | path in files && (|path| != 3 || path[1] != folder) ::
              path in written && written[path] == files[path]
    ensures forall domain | domain in groups ::
              && DomainFile(folder, domain) in written
              && written[DomainFile(folder, domain)] == Obj([Field(folder, Obj(groups[domain]))])
    ensures forall path | path in written ::
              path in files || exists domain :: domain in groups && path == DomainFile(folder, domain)
  {
    written := files;
    var todo := groups.Keys;
    while todo != {}
      invariant todo <= groups.Keys
      invariant forall path | path in files && (|path| != 3 || path[1] != folder) ::
                  path in written && written[path] == files[path]
      invariant forall domain | domain in groups && domain !in todo ::
                  && DomainFile(folder, domain) in written
                  && written[DomainFile(folder, domain)] == Obj([Field(folder, Obj(groups[domain]))])
      invariant forall path | path in written ::
                  path in files || exists domain :: domain in groups && path == DomainFile(folder, domain)
      decreases todo
    {
      var domain :| domain in todo;
      written := written[DomainFile(folder, domain) := Obj([Field(folder, Obj(groups[domain]))])];
      forall other | DomainFile(folder, other) == DomainFile(folder, domain)
        ensures other == domain
      {
        DomainFileIsInjective(folder, other, domain);
      }
      todo := todo - {domain};
    }
  }

  lemma DomainFileIsInjective(folder: string, a: string, b: string)
    requires DomainFile(folder, a) == DomainFile(folder, b)
    ensures a == b
  {
    assert DomainFile(folder, a)[2] == a + ".yaml" && DomainFile(folder, b)[2] == b + ".yaml";
    assert (a + ".yaml")[..|a|] == a && (b + ".yaml")[..|b|] == b;
  }

  ghost predicate Unsplittable(contract: Contract) {
    || contract.paths == [] || contract.Kind("schemas") == []
    || exists field :: field in contract.paths && (AlreadySplit(field.value) || !field.value.Obj?)
  }

  method CheckSource(contract: Contract) returns (error: Option<string>)
    ensures error.Some? <==> Unsplittable(contract)
  {
    if contract.paths == [] || contract.Kind("schemas") == [] {
      return Some("The source contract must contain inline paths and schemas");
    }
    for i := 0 to |contract.paths|
      invariant forall j | 0 <= j < i :: !AlreadySplit(contract.paths[j].value) && contract.paths[j].value.Obj?
    {
      if AlreadySplit(contract.paths[i].value) {
        assert contract.paths[i] in contract.paths;
        return Some("The source contract is already split");
      }
      if !contract.paths[i].value.Obj? {
        assert contract.paths[i] in contract.paths;
        return Some("A path item must be an object");
      }
    }
    error := None;
  }

  method SplitContract(contract: Contract, root: string) returns (r: Result<Files, string>, recorded: DomainsBySchema)
    requires contract.Valid()
    ensures r.Ok? ==> IsSplit(contract, root, recorded, r.value)
    ensures r.Ok? ==> KnownDomains(recorded) && RecordsEntered(contract, recorded)
    ensures r.Err? <==> Unsplittable(contract) || MeetsMalformed(contract)
  {
    hide IsSplit, KnownDomains, Unsplittable, FreshSearch, DomainsOf, Roots;
    var error := CheckSource(contract);
    if error.Some? {
      return Err(error.value), map[];
    }
    var ok;
    recorded, ok := CollectDomains(contract.components, Roots(contract));
    if !ok {
      return Err("A component reference has no name"), map[];
    }
    RecordedDomainsAreKnown(contract, recorded);
    var files := WriteFiles(contract, root, recorded);
    r := Ok(files);
  }

  lemma RootDomainIsKnown(contract: Contract, i: nat)
    requires i < |Roots(contract)|
    ensures Roots(contract)[i].domain in DOMAINS
  {
    hide PathDomain;
    if i < |contract.paths| {
      assert Roots(contract)[i].domain == PathDomain(contract.paths[i].value);
    }
  }

  lemma RecordedDomainsAreKnown(contract: Contract, recorded: DomainsBySchema)
    requires RecordsEntered(contract, recorded)
    ensures KnownDomains(recorded)
  {
    hide Roots, FreshSearch, DomainsOf;
    forall name, domain | domain in DomainsOf(recorded, name)
      ensures domain in DOMAINS
    {
      assert RootEnters(contract.components, Roots(contract), domain, name);
      var i :| 0 <= i < |Roots(contract)| && Roots(contract)[i].domain == domain;
      RootDomainIsKnown(contract, i);
    }
  }

  /** The files of the domains, and how a file's place tells which they are. */
  ghost predicate DomainPart(contract: Contract, recorded: DomainsBySchema, files: Files) {
    && DomainFiles(files, ByPath, PATHS_FOLDER, contract.paths)
    && DomainFiles(files, BySchema(recorded), SCHEMAS_FOLDER, contract.Kind("schemas"))
    && forall path | path in files ::
         || (exists domain :: domain in Used(ByPath, contract.paths) && path == DomainFile(PATHS_FOLDER, domain))
         || (exists domain :: domain in Used(BySchema(recorded), contract.Kind("schemas"))
                              && path == DomainFile(SCHEMAS_FOLDER, domain))
  }

  method WriteFolder(files: Files, folder: string, assignment: Assignment, fields: seq<Field>) returns (written: Files)
    ensures forall path | path in files && (|path| != 3 || path[1] != folder) ::
              path in written && written[path] == files[path]
    ensures DomainFiles(written, assignment, folder, fields)
    ensures forall path | path in written ::
              path in files || exists domain :: domain in Used(assignment, fields) && path == DomainFile(folder, domain)
  {
    hide Assigned, Used, RewriteComponentRefs, DomainFor, DomainFile;
    var groups := GroupByDomain(assignment, fields);
    written := WriteDomainFiles(files, folder, groups);
  }

  method WriteDomains(contract: Contract, recorded: DomainsBySchema) returns (files: Files)
    ensures DomainPart(contract, recorded, files)
  {
    hide Used, DomainDocument, DomainFile;
    var paths := WriteFolder(map[], PATHS_FOLDER, ByPath, contract.paths);
    files := WriteFolder(paths, SCHEMAS_FOLDER, BySchema(recorded), contract.Kind("schemas"));
    forall domain | DomainFile(PATHS_FOLDER, domain) in paths
      ensures DomainFile(PATHS_FOLDER, domain) in files
              && files[DomainFile(PATHS_FOLDER, domain)] == paths[DomainFile(PATHS_FOLDER, domain)]
    {
      PathFilesAreApart(domain);
    }
    SameDomainFiles(paths, files, ByPath, PATHS_FOLDER, contract.paths);
  }

  lemma PathFilesAreApart(domain: string)
    ensures |DomainFile(PATHS_FOLDER, domain)| == 3 && DomainFile(PATHS_FOLDER, domain)[1] != SCHEMAS_FOLDER
  {
  }

  method WriteFiles(contract: Contract, root: string, recorded: DomainsBySchema) returns (files: Files)
    ensures IsSplit(contract, root, recorded, files)
  {
    hide Assigned, Used, KindFields, RootFields, RewriteComponentRefs, Owner, DomainsOf, DomainDocument;
    var domains := WriteDomains(contract, recorded);
    files := domains[COMMON_FILE := Obj(KindFields(contract, COMMON_KINDS, false))];
    if contract.eventContracts.Some? {
      files := files[EVENTS_FILE :=
        Obj([Field("eventContracts", RewriteComponentRefs(contract.eventContracts.value))])];
    }
    files := files[[root] := Obj(RootFields(contract, recorded))];
    SameDomainFiles(domains, files, ByPath, PATHS_FOLDER, contract.paths);
    SameDomainFiles(domains, files, BySchema(recorded), SCHEMAS_FOLDER, contract.Kind("schemas"));
  }

  lemma SameDomainFiles(before: Files, after: Files, assignment: Assignment, folder: string, fields: seq<Field>)
    requires DomainFiles(before, assignment, folder, fields)
    requires forall domain | DomainFile(folder, domain) in before ::
               DomainFile(folder, domain) in after && after[DomainFile(folder, domain)] == before[DomainFile(folder, domain)]
    ensures DomainFiles(after, assignment, folder, fields)
  {
    hide Used, DomainDocument;
  }

  // ----- Where schemas land -----

  /** Where the searches are thorough, a schema leaves the common file exactly for the only domain that reaches it. */
  lemma OwnerIsSoleReacher(contract: Contract, recorded: DomainsBySchema, name: string, domain: string)
    requires RecordsEntered(contract, recorded) && AllThorough(contract.components, Roots(contract))
    requires domain != "common"
    ensures Owner(DomainsOf(recorded, name)) == domain
            <==> forall other :: RootReaches(contract.components, Roots(contract), other, name) <==> other == domain
  {
    hide Thorough, Reaches, FreshSearch;
    var domains := DomainsOf(recorded, name);
    forall other
      ensures other in domains <==> RootReaches(contract.components, Roots(contract), other, name)
    {
      EnteredIsReached(contract.components, Roots(contract), other, name);
    }
    if forall other :: RootReaches(contract.components, Roots(contract), other, name) <==> other == domain {
      assert domains == {domain};
    }
  }

  /** Each schema is in the file of its owner and in no other. */
  lemma SchemaLandsInOneFile(contract: Contract, recorded: DomainsBySchema, i: nat, domain: string)
    requires contract.Valid() && i < |contract.Kind("schemas")|
    ensures var schema := contract.Kind("schemas")[i];
            Lookup(Assigned(BySchema(recorded), contract.Kind("schemas"), domain), schema.key)
            == if domain == Owner(DomainsOf(recorded, schema.key)) then Some(RewriteComponentRefs(schema.value)) else None
  {
    var schemas := contract.Kind("schemas");
    AssignedLookup(BySchema(recorded), schemas, i);
    if domain != Owner(DomainsOf(recorded, schemas[i].key)) {
      AssignedOnlyHere(BySchema(recorded), schemas, domain);
      LookupFinds(Assigned(BySchema(recorded), schemas, domain), schemas[i].key);
    }
  }

  lemma {:induction false} AssignedOnlyHere(assignment: Assignment, fields: seq<Field>, domain: string)
    requires assignment.BySchema?
    ensures forall field | field in Assigned(assignment, fields, domain) ::
              Owner(DomainsOf(assignment.recorded, field.key)) == domain
  {
    if fields != [] {
      AssignedOnlyHere(assignment, fields[..|fields| - 1], domain);
    }
  }
}
