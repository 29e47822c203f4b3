/** Which files a split contract has and what is in them, in terms of the contract alone. */
module ContractContents {
  import opened Wrappers
  import opened JsonDocuments
  import opened ContractReferences
  import opened SchemaWalk
  import opened FileReferences
  import opened ContractSplit
  import opened ContractReading
  import opened ContractSplitting

  function FieldsOf(contract: Contract, kind: string): seq<Field> {
    if kind in contract.components then contract.components[kind] else []
  }

  /** A search starts from each path in its domain, from the parameters and the responses, and from the event contracts. */
  lemma RootsAre(contract: Contract, root: Root)
    ensures root in Roots(contract)
            <==> || (exists i :: 0 <= i < |contract.paths| && root == Root(contract.paths[i].value, PathDomain(contract.paths[i].value)))
                 || root == Root(Obj(FieldsOf(contract, "parameters")), "common")
                 || root == Root(Obj(FieldsOf(contract, "responses")), "common")
                 || (contract.eventContracts.Some? && root == Root(contract.eventContracts.value, "events"))
  {
    hide PathDomain;
    var paths := seq(|contract.paths|, i requires 0 <= i < |contract.paths| =>
      Root(contract.paths[i].value, PathDomain(contract.paths[i].value)));
    var common := [Root(Obj(contract.Kind("parameters")), "common"), Root(Obj(contract.Kind("responses")), "common")];
    var events := match contract.eventContracts case Some(events) => [Root(events, "events")] case None => [];
    assert Roots(contract) == paths + common + events;
    assert root in Roots(contract) <==> root in paths || root in common || root in events;
    forall i | 0 <= i < |contract.paths|
      ensures Root(contract.paths[i].value, PathDomain(contract.paths[i].value)) in paths
    {
      assert paths[i] == Root(contract.paths[i].value, PathDomain(contract.paths[i].value));
    }
  }

  ghost predicate SomePathOf(contract: Contract, domain: string) {
    exists i :: 0 <= i < |contract.paths| && PathDomain(contract.paths[i].value) == domain
  }

  ghost predicate SomeSchemaOf(contract: Contract, recorded: DomainsBySchema, domain: string) {
    exists i :: 0 <= i < |FieldsOf(contract, "schemas")|
                && Owner(DomainsOf(recorded, FieldsOf(contract, "schemas")[i].key)) == domain
  }

  /** The files are the root, one for each domain with paths, one for each with schemas, the common one, and one for events. */
  lemma FilesAre(contract: Contract, root: string, recorded: DomainsBySchema, files: Files, path: Path)
    requires IsSplit(contract, root, recorded, files)
    ensures path in files
            <==> || path == [root]
                 || path == ["openapi", "components", "common.yaml"]
                 || (path == ["openapi", "events", "eventhub.yaml"] && contract.eventContracts.Some?)
                 || (exists domain :: SomePathOf(contract, domain) && path == ["openapi", "paths", domain + ".yaml"])
                 || (exists domain :: SomeSchemaOf(contract, recorded, domain) && path == ["openapi", "schemas", domain + ".yaml"])
  {
    hide PathDomain, Owner, DomainsOf;
    forall domain
      ensures domain in Used(ByPath, contract.paths) <==> SomePathOf(contract, domain)
      ensures domain in Used(BySchema(recorded), contract.Kind("schemas")) <==> SomeSchemaOf(contract, recorded, domain)
    {
      UsedMeans(contract, recorded, domain);
    }
    hide Used, SomePathOf, SomeSchemaOf;
    if domain :| SomePathOf(contract, domain) && path == ["openapi", "paths", domain + ".yaml"] {
      assert domain in Used(ByPath, contract.paths) && path == DomainFile(PATHS_FOLDER, domain);
    }
    if domain :| SomeSchemaOf(contract, recorded, domain) && path == ["openapi", "schemas", domain + ".yaml"] {
      assert domain in Used(BySchema(recorded), contract.Kind("schemas")) && path == DomainFile(SCHEMAS_FOLDER, domain);
    }
  }

  lemma UsedMeans(contract: Contract, recorded: DomainsBySchema, domain: string)
    ensures domain in Used(ByPath, contract.paths) <==> SomePathOf(contract, domain)
    ensures domain in Used(BySchema(recorded), contract.Kind("schemas")) <==> SomeSchemaOf(contract, recorded, domain)
  {
    hide PathDomain, Owner, DomainsOf;
    var schemas := FieldsOf(contract, "schemas");
    assert contract.Kind("schemas") == schemas;
    forall i | 0 <= i < |schemas|
      ensures DomainFor(BySchema(recorded), schemas[i]) == Owner(DomainsOf(recorded, schemas[i].key))
    {
    }
  }

  /** A path is in the file of its domain, rewritten, and in no other file of paths. */
  lemma PathLandsInOneFile(contract: Contract, root: string, recorded: DomainsBySchema, files: Files, i: nat, domain: string)
    requires contract.Valid() && IsSplit(contract, root, recorded, files) && i < |contract.paths|
    ensures var path := contract.paths[i];
            var file := ["openapi", "paths", domain + ".yaml"];
            if domain == PathDomain(path.value) then
              file in files && Locate(files[file], ["paths", path.key]) == Some(RewriteComponentRefs(path.value))
            else file in files ==> Locate(files[file], ["paths", path.key]) == None
  {
    hide PathDomain, RewriteComponentRefs, IsSplit, Locate, Assigned;
    if domain == PathDomain(contract.paths[i].value) {
      PathIsThere(contract, root, recorded, files, i);
    } else if DomainFile(PATHS_FOLDER, domain) in files {
      OnlyPathsThere(contract, root, recorded, files, domain);
      PathIsNotThere(contract, root, recorded, files, i, domain);
    }
  }

  lemma PathFile(contract: Contract, root: string, recorded: DomainsBySchema, files: Files, domain: string)
    requires IsSplit(contract, root, recorded, files) && domain in Used(ByPath, contract.paths)
    ensures var file := DomainFile(PATHS_FOLDER, domain);
            file in files && files[file] == Obj([Field("paths", Obj(Assigned(ByPath, contract.paths, domain)))])
  {
    hide Used, Assigned;
  }

  lemma PathIsThere(contract: Contract, root: string, recorded: DomainsBySchema, files: Files, i: nat)
    requires contract.Valid() && IsSplit(contract, root, recorded, files) && i < |contract.paths|
    ensures var path := contract.paths[i];
            var file := DomainFile(PATHS_FOLDER, PathDomain(path.value));
            file in files && Locate(files[file], ["paths", path.key]) == Some(RewriteComponentRefs(path.value))
  {
    hide PathDomain, RewriteComponentRefs, IsSplit, Locate, Assigned;
    var path := contract.paths[i];
    var domain := PathDomain(path.value);
    assert domain == DomainFor(ByPath, path) && domain in Used(ByPath, contract.paths);
    PathFile(contract, root, recorded, files, domain);
    AssignedLookup(ByPath, contract.paths, i);
    LocateTwo(files[DomainFile(PATHS_FOLDER, domain)], "paths", Assigned(ByPath, contract.paths, domain), path.key);
  }

  lemma PathIsNotThere(contract: Contract, root: string, recorded: DomainsBySchema, files: Files, i: nat, domain: string)
    requires contract.Valid() && IsSplit(contract, root, recorded, files) && i < |contract.paths|
    requires domain in Used(ByPath, contract.paths) && domain != PathDomain(contract.paths[i].value)
    ensures var file := DomainFile(PATHS_FOLDER, domain);
            file in files && Locate(files[file], ["paths", contract.paths[i].key]) == None
  {
    hide PathDomain, RewriteComponentRefs, IsSplit, Locate, Assigned, Used;
    var path := contract.paths[i];
    PathFile(contract, root, recorded, files, domain);
    PathsOfDomain(contract.paths, domain);
    LookupFinds(Assigned(ByPath, contract.paths, domain), path.key);
    LocateTwo(files[DomainFile(PATHS_FOLDER, domain)], "paths", Assigned(ByPath, contract.paths, domain), path.key);
  }

  lemma OnlyPathsThere(contract: Contract, root: string, recorded: DomainsBySchema, files: Files, domain: string)
    requires IsSplit(contract, root, recorded, files) && DomainFile(PATHS_FOLDER, domain) in files
    ensures domain in Used(ByPath, contract.paths)
  {
    hide Used;
    var path := DomainFile(PATHS_FOLDER, domain);
    assert path[1] == "paths" && path[1][0] == 'p' && |path| == 3 && path[2] == domain + ".yaml";
    assert COMMON_FILE[1][0] == 'c' && EVENTS_FILE[1][0] == 'e' && SCHEMAS_FOLDER[0] == 's';
    assert forall other :: DomainFile(SCHEMAS_FOLDER, other)[1] == SCHEMAS_FOLDER != path[1];
    var other :| other in Used(ByPath, contract.paths) && path == DomainFile(PATHS_FOLDER, other);
    DomainFileIsInjective(PATHS_FOLDER, domain, other);
  }

  /** The fields of a domain's file come from paths of that domain. */
  lemma {:induction false} PathsOfDomain(paths: seq<Field>, domain: string)
    ensures forall field | field in Assigned(ByPath, paths, domain) ::
              exists j :: 0 <= j < |paths| && paths[j].key == field.key && PathDomain(paths[j].value) == domain
  {
    hide PathDomain, RewriteComponentRefs;
    if paths != [] {
      var rest := paths[..|paths| - 1];
      PathsOfDomain(rest, domain);
      forall field | field in Assigned(ByPath, paths, domain)
        ensures exists j :: 0 <= j < |paths| && paths[j].key == field.key && PathDomain(paths[j].value) == domain
      {
        if field in Assigned(ByPath, rest, domain) {
          var j :| 0 <= j < |rest| && rest[j].key == field.key && PathDomain(rest[j].value) == domain;
          assert paths[j] == rest[j];
        } else {
          assert paths[|paths| - 1].key == field.key;
        }
      }
    }
  }

  /** The file of the event contracts holds them rewritten, and the root keeps every other part of the contract as it was. */
  lemma RestStays(contract: Contract, root: string, recorded: DomainsBySchema, files: Files)
    requires contract.Valid() && IsSplit(contract, root, recorded, files) && DistinctKeys(contract.rest)
    ensures contract.eventContracts.Some? ==>
              var file := ["openapi", "events", "eventhub.yaml"];
              file in files
              && Locate(files[file], ["eventContracts"]) == Some(RewriteComponentRefs(contract.eventContracts.value))
    ensures forall field | field in contract.rest ::
              [root] in files && Locate(files[[root]], [field.key]) == Some(field.value)
  {
    hide RewriteComponentRefs;
    if contract.eventContracts.Some? {
      LocateOne(files[EVENTS_FILE], "eventContracts");
    }
    forall field | field in contract.rest
      ensures [root] in files && Locate(files[[root]], [field.key]) == Some(field.value)
    {
      RootOfSplit(contract, root, recorded, files);
      LocateOne(files[[root]], field.key);
      RestInRoot(contract, recorded, field);
    }
  }

  lemma RestInRoot(contract: Contract, recorded: DomainsBySchema, field: Field)
    requires DistinctKeys(contract.rest) && field in contract.rest
    ensures Lookup(RootFields(contract, recorded), field.key) == Some(field.value)
  {
    hide References, RootComponents;
    var moved := [Field("paths", Obj(References(ByPath, PATHS_FOLDER, true, contract.paths))),
                  Field("components", Obj(RootComponents(contract, recorded)))];
    var events := match contract.eventContracts case Some(e) => [Field("x-event-contracts", e)] case None => [];
    assert RootFields(contract, recorded) == contract.rest + (moved + events);
    var i :| 0 <= i < |contract.rest| && contract.rest[i] == field;
    LookupAt(contract.rest, i);
    LookupConcat(contract.rest, moved + events, field.key);
  }

  /** The common file has the parameters, responses and security schemes, rewritten, of the kinds that have any. */
  lemma CommonFileIs(contract: Contract, root: string, recorded: DomainsBySchema, files: Files, kind: string)
    requires IsSplit(contract, root, recorded, files)
    ensures var file := ["openapi", "components", "common.yaml"];
            var fields := FieldsOf(contract, kind);
            && file in files
            && Locate(files[file], [kind])
               == if kind in {"parameters", "responses", "securitySchemes"} && fields != []
                  then Some(RewriteComponentRefs(Obj(fields))) else None
  {
    hide RewriteComponentRefs, KindFields;
    LocateOne(files[COMMON_FILE], kind);
    KindLookup(contract, COMMON_KINDS, false, kind);
  }
}
