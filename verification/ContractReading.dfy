/**
  What a reader of a split contract finds: every moved part resolves to the rewritten
  original, references inside domain files resolve as they did, and inlining gives the
  original contract back.
 */
module ContractReading {
  import opened Wrappers
  import opened JsonDocuments
  import opened ContractReferences
  import opened SchemaWalk
  import opened FileReferences
  import opened ContractSplit

  // ----- Looking fields up -----

  lemma {:induction false} LookupConcat(a: seq<Field>, b: seq<Field>, key: string)
    ensures Lookup(a + b, key) == if Lookup(a, key).Some? then Lookup(a, key) else Lookup(b, key)
  {
    if a == [] {
      assert a + b == b;
    } else {
      assert (a + b)[1..] == a[1..] + b;
      LookupConcat(a[1..], b, key);
    }
  }

  lemma {:induction false} AssignedKeys(assignment: Assignment, fields: seq<Field>, domain: string)
    ensures forall field | field in Assigned(assignment, fields, domain) ::
              exists original :: original in fields && original.key == field.key
  {
    if fields != [] {
      AssignedKeys(assignment, fields[..|fields| - 1], domain);
    }
  }

  /** The file of a field's domain holds the rewritten field. */
  lemma {:induction false} AssignedLookup(assignment: Assignment, fields: seq<Field>, i: nat)
    requires DistinctKeys(fields) && i < |fields|
    ensures Lookup(Assigned(assignment, fields, DomainFor(assignment, fields[i])), fields[i].key)
            == Some(RewriteComponentRefs(fields[i].value))
  {
    var n := |fields| - 1;
    var domain, key := DomainFor(assignment, fields[i]), fields[i].key;
    var earlier := Assigned(assignment, fields[..n], domain);
    var last := Assigned(assignment, fields, domain)[|earlier|..];
    assert Assigned(assignment, fields, domain) == earlier + last;
    LookupConcat(earlier, last, key);
    if i < n {
      assert fields[..n][i] == fields[i];
      AssignedLookup(assignment, fields[..n], i);
    } else {
      AssignedKeys(assignment, fields[..n], domain);
      LookupFinds(earlier, key);
    }
  }

  // ----- Locating files and tokens -----

  predicate Segment(text: string) {
    text !in {"", ".", ".."} && '/' !in text && '#' !in text
  }

  lemma DomainsAreSegments(domain: string)
    requires domain in DOMAINS
    ensures '/' !in domain && '#' !in domain
    ensures Segment(domain + ".yaml")
  {
    assert |domain + ".yaml"| >= 5;
  }

  /** A token that reads back as itself without escaping. */
  predicate SafeName(name: string) {
    '/' !in name && Unescape(name) == name
  }

  lemma {:induction false} NoTilde(text: string, second: char, image: char)
    requires '~' !in text
    ensures ReplacePair(text, second, image) == text
  {
    if text != "" {
      assert text == [text[0]] + text[1..];
      NoTilde(text[1..], second, image);
    }
  }

  /** Component names that the OpenAPI specification allows have neither a slash nor a tilde. */
  lemma AllowedNamesAreSafe(name: string)
    requires '/' !in name && '~' !in name
    ensures SafeName(name)
  {
    NoTilde(name, '1', '/');
    NoTilde(name, '0', '~');
  }

  lemma RelativeStep(directory: Path, segment: string, rest: Path)
    ensures Relative(directory, [segment] + rest)
            == if segment == "." then Relative(directory, rest)
               else if segment == ".." then Relative(if directory == [] then [] else directory[..|directory| - 1], rest)
               else Relative(directory + [segment], rest)
  {
    assert ([segment] + rest)[1..] == rest;
  }

  lemma RelativeDownwards(folder: string, file: string)
    requires Segment(folder) && Segment(file)
    ensures Relative([], [".", "openapi", folder, file]) == ["openapi", folder, file]
  {
    RelativeStep([], ".", ["openapi", folder, file]);
    assert [".", "openapi", folder, file] == ["."] + ["openapi", folder, file];
    RelativeStep([], "openapi", [folder, file]);
    assert ["openapi", folder, file] == ["openapi"] + [folder, file];
    RelativeStep(["openapi"], folder, [file]);
    assert [folder, file] == [folder] + [file] && [] + ["openapi"] == ["openapi"];
    RelativeStep(["openapi", folder], file, []);
    assert [file] == [file] + [] && ["openapi"] + [folder] == ["openapi", folder];
  }

  /** A file below the root's directory, as the root refers to it. */
  lemma LocateDownwards(root: string, folder: string, file: string, first: string, token: string)
    requires Segment(folder) && Segment(file) && SafeName(first) && '/' !in token
    ensures Locator([root], "./openapi/" + folder + "/" + file + "#/" + first + "/" + token)
            == Location(["openapi", folder, file], [first, Unescape(token)])
  {
    hide Split, FirstOf, Tokens, Unescape, Relative, Join;
    var path := "./openapi/" + folder + "/" + file;
    var segments := [".", "openapi", folder, file];
    JoinFour(".", "openapi", folder, file);
    assert path == Join(segments, '/');
    SplitJoin(segments, '/');
    RelativeDownwards(folder, file);
    JoinTwo(first, token);
    JoinedTokens([first, token]);
    var fragment := "/" + Join([first, token], '/');
    assert path + "#/" + first + "/" + token == path + "#" + fragment;
    assert Tokens(fragment) == [first, Unescape(token)];
    LocatorParts([root], path, fragment);
  }

  /** The root file, as a file of a domain refers to it. */
  lemma LocateUpwards(from: Path, kind: string, name: string)
    requires |from| == 3 && SafeName(kind) && SafeName(name)
    ensures Locator(from, ROOT_FILE + LOCAL + kind + "/" + name)
            == Location(["openapi.yaml"], ["components", kind, name])
  {
    hide Split, FirstOf, Tokens, Relative, Join, Replace, ReplacePair;
    var segments := ["..", "..", "openapi.yaml"];
    JoinThree("..", "..", "openapi.yaml");
    assert ROOT_FILE == Join(segments, '/');
    SplitJoin(segments, '/');
    RelativeUpwards(Directory(from));
    NoTilde("components", '1', '/');
    NoTilde("components", '0', '~');
    JoinThree("components", kind, name);
    JoinedTokens(["components", kind, name]);
    var fragment := "/" + Join(["components", kind, name], '/');
    assert ROOT_FILE + LOCAL + kind + "/" + name == ROOT_FILE + "#" + fragment;
    assert Tokens(fragment) == ["components", kind, name];
    LocatorParts(from, ROOT_FILE, fragment);
  }

  lemma RelativeUpwards(directory: Path)
    requires |directory| == 2
    ensures Relative(directory, ["..", "..", "openapi.yaml"]) == ["openapi.yaml"]
  {
    RelativeStep(directory, "..", ["..", "openapi.yaml"]);
    assert ["..", "..", "openapi.yaml"] == [".."] + ["..", "openapi.yaml"];
    RelativeStep(directory[..1], "..", ["openapi.yaml"]);
    assert ["..", "openapi.yaml"] == [".."] + ["openapi.yaml"] && directory[..1][..0] == [];
    RelativeStep([], "openapi.yaml", []);
    assert ["openapi.yaml"] == ["openapi.yaml"] + [];
  }

  // ----- Resolving moved parts -----

  /** The recorded domains come from the roots of the search. */
  ghost predicate KnownDomains(recorded: DomainsBySchema) {
    forall name :: DomainsOf(recorded, name) <= DOMAINS
  }

  lemma DomainForIsKnown(assignment: Assignment, field: Field)
    requires assignment.BySchema? ==> KnownDomains(assignment.recorded)
    ensures DomainFor(assignment, field) in DOMAINS
  {
  }

  /** A reference of the root to a path or a schema resolves to the rewritten original. */
  lemma DomainReferenceResolves(files: Files, root: string, assignment: Assignment, folder: string,
                                escape: bool, fields: seq<Field>, i: nat)
    requires DomainFiles(files, assignment, folder, fields) && DistinctKeys(fields) && i < |fields|
    requires assignment.BySchema? ==> KnownDomains(assignment.recorded)
    requires Segment(folder) && SafeName(folder) && (!escape ==> SafeName(fields[i].key))
    ensures var reference := References(assignment, folder, escape, fields)[i].value;
            && RefUri(reference).Some?
            && Resolve(files, [root], RefUri(reference).value) == Some(RewriteComponentRefs(fields[i].value))
  {
    hide Locator, Unescape, Pointer, RewriteComponentRefs, Owner, PathDomain;
    var domain := DomainFor(assignment, fields[i]);
    DomainForIsKnown(assignment, fields[i]);
    DomainsAreSegments(domain);
    PointerRoundTrip(fields[i].key);
    var token := if escape then Pointer(fields[i].key) else fields[i].key;
    LocateDownwards(root, folder, domain + ".yaml", folder, token);
    var uri := DomainUri(folder, domain) + "#/" + folder + "/" + token;
    assert uri == "./openapi/" + folder + "/" + (domain + ".yaml") + "#/" + folder + "/" + token;
    assert domain in Used(assignment, fields);
    AssignedLookup(assignment, fields, i);
    assert Unescape(token) == fields[i].key;
    LocateTwo(DomainDocument(assignment, folder, fields, domain), folder, Assigned(assignment, fields, domain), fields[i].key);
  }

  lemma LocateTwo(document: Json, section: string, fields: seq<Field>, key: string)
    requires document.Obj? && Lookup(document.fields, section) == Some(Obj(fields))
    ensures Locate(document, [section, key]) == Lookup(fields, key)
  {
    assert [section, key][1..] == [key] && [key][1..] == [];
    assert Locate(document, [section, key]) == Locate(Obj(fields), [key]);
    var field := Lookup(fields, key);
    assert field.Some? ==> Locate(field.value, []) == field;
  }

  lemma {:induction false} KindLookup(contract: Contract, kinds: seq<string>, references: bool, kind: string)
    ensures Lookup(KindFields(contract, kinds, references), kind)
            == if kind !in kinds || contract.Kind(kind) == [] then None
               else Some(KindField(contract, kind, references)[0].value)
  {
    if kinds != [] {
      KindLookup(contract, kinds[1..], references, kind);
      LookupConcat(KindField(contract, kinds[0], references), KindFields(contract, kinds[1..], references), kind);
    }
  }

  lemma RewrittenLookup(fields: seq<Field>, i: nat)
    requires DistinctKeys(fields) && i < |fields|
    ensures RewriteComponentRefs(Obj(fields)).Obj?
    ensures Lookup(RewriteComponentRefs(Obj(fields)).fields, fields[i].key)
            == Some(RewriteComponentRefs(fields[i].value))
  {
    LookupAt(RewriteComponentRefs(Obj(fields)).fields, i);
  }

  /** A reference of the root to a common component resolves to the rewritten original. */
  lemma CommonReferenceResolves(contract: Contract, files: Files, root: string, kind: string, i: nat)
    requires contract.Valid() && kind in COMMON_KINDS && i < |contract.Kind(kind)|
    requires COMMON_FILE in files && files[COMMON_FILE] == Obj(KindFields(contract, COMMON_KINDS, false))
    requires SafeName(contract.Kind(kind)[i].key)
    ensures var reference := CommonReferences(kind, contract.Kind(kind))[i].value;
            && RefUri(reference).Some?
            && Resolve(files, [root], RefUri(reference).value)
               == Some(RewriteComponentRefs(contract.Kind(kind)[i].value))
  {
    hide Locator, Unescape, RewriteComponentRefs, Locate, KindFields;
    var fields := contract.Kind(kind);
    var name := fields[i].key;
    KindsAreSegments(kind);
    LocateDownwards(root, "components", "common.yaml", kind, name);
    assert "./openapi/components/common.yaml" == "./openapi/" + "components" + "/" + "common.yaml";
    KindLookup(contract, COMMON_KINDS, false, kind);
    RewrittenLookup(fields, i);
    LocateTwo(files[COMMON_FILE], kind, RewriteComponentRefs(Obj(fields)).fields, name);
  }

  lemma KindsAreSegments(kind: string)
    requires kind in COMMON_KINDS || kind in ["schemas", "paths"]
    ensures SafeName(kind) && Segment(kind)
    ensures Segment("components") && Segment("common.yaml")
  {
    hide Unescape, ReplacePair, Pointer;
    AllowedNamesAreSafe(kind);
  }

  // ----- The root document -----

  lemma {:induction false} NoSuchKey(fields: seq<Field>, key: string)
    requires forall field | field in fields :: field.key != key
    ensures Lookup(fields, key) == None
  {
    if fields != [] {
      NoSuchKey(fields[1..], key);
    }
  }

  lemma RootSections(contract: Contract, recorded: DomainsBySchema)
    requires contract.Valid()
    ensures Lookup(RootFields(contract, recorded), "paths")
            == Some(Obj(References(ByPath, PATHS_FOLDER, true, contract.paths)))
    ensures Lookup(RootFields(contract, recorded), "components") == Some(Obj(RootComponents(contract, recorded)))
  {
    hide References, RootComponents;
    var moved := [Field("paths", Obj(References(ByPath, PATHS_FOLDER, true, contract.paths))),
                  Field("components", Obj(RootComponents(contract, recorded)))];
    var events := match contract.eventContracts case Some(e) => [Field("x-event-contracts", e)] case None => [];
    assert RootFields(contract, recorded) == contract.rest + moved + events;
    assert moved[1..] == [Field("components", Obj(RootComponents(contract, recorded)))];
    NoSuchKey(contract.rest, "paths");
    NoSuchKey(contract.rest, "components");
    LookupConcat(contract.rest, moved, "paths");
    LookupConcat(contract.rest, moved, "components");
    LookupConcat(contract.rest + moved, events, "paths");
    LookupConcat(contract.rest + moved, events, "components");
  }

  /** The references that the root holds for one kind of component. */
  function KindReferences(contract: Contract, recorded: DomainsBySchema, kind: string): seq<Field> {
    if kind == "schemas" then References(BySchema(recorded), SCHEMAS_FOLDER, false, contract.Kind("schemas"))
    else CommonReferences(kind, contract.Kind(kind))
  }

  predicate SplitKind(kind: string) {
    kind in COMMON_KINDS || kind == "schemas"
  }

  lemma RootKind(contract: Contract, recorded: DomainsBySchema, kind: string)
    ensures Lookup(RootComponents(contract, recorded), kind)
            == if kind == "schemas" || (kind in COMMON_KINDS && contract.Kind(kind) != [])
               then Some(Obj(KindReferences(contract, recorded, kind)))
               else None
  {
    hide References, CommonReferences;
    var schemas := [Field("schemas", Obj(References(BySchema(recorded), SCHEMAS_FOLDER, false, contract.Kind("schemas"))))];
    KindLookup(contract, ROOT_KINDS, true, kind);
    LookupConcat(KindFields(contract, ROOT_KINDS, true), schemas, kind);
    assert schemas[1..] == [];
  }

  // ----- Inlining -----

  /** What a reader puts in the place of a reference of the root. */
  function InlineValue(files: Files, from: Path, value: Json): Json {
    match RefUri(value)
    case Some(uri) => UnrewriteComponentRefs(Resolve(files, from, uri).GetOr(Null))
    case None => value
  }

  function InlineFields(files: Files, from: Path, fields: seq<Field>): seq<Field> {
    seq(|fields|, i requires 0 <= i < |fields| => Field(fields[i].key, InlineValue(files, from, fields[i].value)))
  }

  function InlineSection(files: Files, root: string, tokens: seq<string>): seq<Field> {
    if [root] !in files then []
    else match Locate(files[[root]], tokens)
      case Some(Obj(fields)) => InlineFields(files, [root], fields)
      case _ => []
  }

  predicate CleanFields(fields: seq<Field>) {
    forall i | 0 <= i < |fields| :: Clean(fields[i].value)
  }

  /** References that resolve to rewritten originals inline to the originals exactly where those are clean. */
  lemma InlinedFields(files: Files, from: Path, references: seq<Field>, fields: seq<Field>)
    requires |references| == |fields|
    requires forall i | 0 <= i < |fields| ::
               && references[i].key == fields[i].key
               && RefUri(references[i].value).Some?
               && Resolve(files, from, RefUri(references[i].value).value) == Some(RewriteComponentRefs(fields[i].value))
    ensures InlineFields(files, from, references) == fields <==> CleanFields(fields)
  {
    hide Resolve, RefUri, RewriteComponentRefs, UnrewriteComponentRefs, Clean;
    var inlined := InlineFields(files, from, references);
    forall i | 0 <= i < |fields|
      ensures inlined[i] == fields[i] <==> Clean(fields[i].value)
    {
      RewriteRoundTrip(fields[i].value);
    }
    if CleanFields(fields) {
      assert inlined == fields;
    }
  }

  ghost predicate SafeNames(contract: Contract) {
    forall kind, field | SplitKind(kind) && field in contract.Kind(kind) :: SafeName(field.key)
  }

  lemma InlinedPaths(contract: Contract, root: string, recorded: DomainsBySchema, files: Files)
    requires contract.Valid() && IsSplit(contract, root, recorded, files)
    ensures InlineSection(files, root, ["paths"]) == contract.paths <==> CleanFields(contract.paths)
  {
    hide References, RootFields, InlineFields, Resolve, RefUri, CleanFields;
    RootSections(contract, recorded);
    KindsAreSegments("paths");
    LocateOne(files[[root]], "paths");
    var references := References(ByPath, PATHS_FOLDER, true, contract.paths);
    ReferencesShape(ByPath, PATHS_FOLDER, true, contract.paths);
    forall i | 0 <= i < |contract.paths|
      ensures RefUri(references[i].value).Some?
      ensures Resolve(files, [root], RefUri(references[i].value).value) == Some(RewriteComponentRefs(contract.paths[i].value))
    {
      DomainReferenceResolves(files, root, ByPath, PATHS_FOLDER, true, contract.paths, i);
    }
    InlinedFields(files, [root], references, contract.paths);
  }

  lemma ReferencesShape(assignment: Assignment, folder: string, escape: bool, fields: seq<Field>)
    ensures var references := References(assignment, folder, escape, fields);
            |references| == |fields| && forall i | 0 <= i < |fields| :: references[i].key == fields[i].key
  {
  }

  lemma LocateOne(document: Json, key: string)
    requires document.Obj?
    ensures Locate(document, [key]) == Lookup(document.fields, key)
  {
    assert [key][1..] == [];
    var field := Lookup(document.fields, key);
    assert field.Some? ==> Locate(field.value, []) == field;
  }

  /** Every reference of one kind resolves to its rewritten original. */
  lemma KindReferenceResolves(contract: Contract, root: string, recorded: DomainsBySchema, files: Files,
                              kind: string, i: nat)
    requires contract.Valid() && IsSplit(contract, root, recorded, files) && KnownDomains(recorded)
    requires SplitKind(kind) && i < |contract.Kind(kind)| && SafeName(contract.Kind(kind)[i].key)
    ensures var references := KindReferences(contract, recorded, kind);
            && |references| == |contract.Kind(kind)|
            && references[i].key == contract.Kind(kind)[i].key
            && RefUri(references[i].value).Some?
            && Resolve(files, [root], RefUri(references[i].value).value)
               == Some(RewriteComponentRefs(contract.Kind(kind)[i].value))
  {
    hide Resolve, RefUri, RewriteComponentRefs, KnownDomains, SafeName, Segment, DomainFiles;
    KindsAreSegments(kind);
    if kind == "schemas" {
      DomainReferenceResolves(files, root, BySchema(recorded), SCHEMAS_FOLDER, false, contract.Kind(kind), i);
    } else {
      CommonReferenceResolves(contract, files, root, kind, i);
    }
  }

  lemma InlinedKind(contract: Contract, root: string, recorded: DomainsBySchema, files: Files, kind: string)
    requires contract.Valid() && IsSplit(contract, root, recorded, files) && KnownDomains(recorded)
    requires SplitKind(kind) && SafeNames(contract)
    ensures InlineSection(files, root, ["components", kind]) == contract.Kind(kind)
            <==> CleanFields(contract.Kind(kind))
  {
    hide RootFields, RootComponents, InlineFields, Resolve, RefUri, CleanFields, KindReferences, KnownDomains, IsSplit;
    assert [root] in files && files[[root]] == Obj(RootFields(contract, recorded)) by {
      RootOfSplit(contract, root, recorded, files);
    }
    RootSections(contract, recorded);
    RootKind(contract, recorded, kind);
    LocateTwo(files[[root]], "components", RootComponents(contract, recorded), kind);
    var fields := contract.Kind(kind);
    var references := KindReferences(contract, recorded, kind);
    if fields != [] {
      forall i | 0 <= i < |fields|
        ensures |references| == |fields| && references[i].key == fields[i].key
        ensures RefUri(references[i].value).Some?
        ensures Resolve(files, [root], RefUri(references[i].value).value) == Some(RewriteComponentRefs(fields[i].value))
      {
        assert fields[i] in contract.Kind(kind);
        KindReferenceResolves(contract, root, recorded, files, kind, i);
      }
      assert fields[0] in contract.Kind(kind);
      KindReferenceResolves(contract, root, recorded, files, kind, 0);
      InlinedFields(files, [root], references, fields);
    } else {
      NothingToInline(contract, root, recorded, files, kind);
    }
  }

  lemma RootOfSplit(contract: Contract, root: string, recorded: DomainsBySchema, files: Files)
    requires IsSplit(contract, root, recorded, files)
    ensures [root] in files && files[[root]] == Obj(RootFields(contract, recorded))
  {
  }

  lemma NothingToInline(contract: Contract, root: string, recorded: DomainsBySchema, files: Files, kind: string)
    requires contract.Kind(kind) == []
    requires [root] in files
    requires Locate(files[[root]], ["components", kind]) in {None, Some(Obj(KindReferences(contract, recorded, kind)))}
    ensures InlineSection(files, root, ["components", kind]) == [] && CleanFields([])
  {
    assert KindReferences(contract, recorded, kind) == [];
  }

  /** A contract's parts that splitting moves. */
  datatype Parts = Parts(
    paths: seq<Field>,
    schemas: seq<Field>,
    parameters: seq<Field>,
    responses: seq<Field>,
    securitySchemes: seq<Field>)

  function Original(contract: Contract): Parts {
    Parts(contract.paths, contract.Kind("schemas"), contract.Kind("parameters"), contract.Kind("responses"),
          contract.Kind("securitySchemes"))
  }

  function Inlined(files: Files, root: string): Parts {
    Parts(InlineSection(files, root, ["paths"]), InlineSection(files, root, ["components", "schemas"]),
          InlineSection(files, root, ["components", "parameters"]), InlineSection(files, root, ["components", "responses"]),
          InlineSection(files, root, ["components", "securitySchemes"]))
  }

  predicate CleanParts(parts: Parts) {
    && CleanFields(parts.paths)
    && CleanFields(parts.schemas)
    && CleanFields(parts.parameters)
    && CleanFields(parts.responses)
    && CleanFields(parts.securitySchemes)
  }

  /**
    Splitting preserves meaning: reading the root, following its references into the files
    and undoing the prefix gives back every path and component, in order, exactly when no
    string of the contract already carried the rewritten prefix.
   */
  lemma InliningGivesBack(contract: Contract, root: string, recorded: DomainsBySchema, files: Files)
    requires contract.Valid() && IsSplit(contract, root, recorded, files) && KnownDomains(recorded)
    requires SafeNames(contract)
    ensures Inlined(files, root) == Original(contract) <==> CleanParts(Original(contract))
  {
    hide InlineSection, CleanFields, IsSplit, KnownDomains, SafeNames;
    InlinedPaths(contract, root, recorded, files);
    InlinedKind(contract, root, recorded, files, "schemas");
    InlinedKind(contract, root, recorded, files, "parameters");
    InlinedKind(contract, root, recorded, files, "responses");
    InlinedKind(contract, root, recorded, files, "securitySchemes");
  }

  // ----- References inside the files -----

  /** A reference that may lead to another reference, as from a domain file through the root. */
  function ResolveThrough(files: Files, from: Path, uri: string): Option<Json> {
    match Resolve(files, from, uri)
    case None => None
    case Some(value) =>
      match RefUri(value)
      case Some(next) => Resolve(files, Locator(from, uri).file, next)
      case None => Some(value)
  }

  /**
    A component reference, rewritten in a file of the split contract, resolves to the
    rewritten component that it named before, exactly when the root file is called
    `openapi.yaml` and the component is of a kind that splitting keeps.
   */
  lemma LocalReferencesResolve(contract: Contract, root: string, recorded: DomainsBySchema, files: Files,
                               from: Path, kind: string, name: string)
    requires contract.Valid() && IsSplit(contract, root, recorded, files) && KnownDomains(recorded)
    requires |from| == 3 && SafeName(kind) && SafeName(name)
    requires Component(contract.components, kind, name).Some?
    ensures ResolveThrough(files, from, RewriteText(LOCAL + kind + "/" + name))
            == Some(RewriteComponentRefs(Component(contract.components, kind, name).value))
            <==> root == "openapi.yaml" && SplitKind(kind)
    ensures root != "openapi.yaml" ==> ResolveThrough(files, from, RewriteText(LOCAL + kind + "/" + name)) == None
  {
    hide Resolve, RewriteComponentRefs, KindReferences, RootComponents, RootFields, KnownDomains, SafeName, Locator;
    var text := LOCAL + kind + "/" + name;
    assert text[..|LOCAL|] == LOCAL;
    assert RewriteText(text) == ROOT_FILE + LOCAL + kind + "/" + name;
    LocateUpwards(from, kind, name);
    RootIsTheOnlyTopFile(contract, root, recorded, files);
    if root == "openapi.yaml" {
      ResolveInRoot(contract, root, recorded, files, from, RewriteText(text), kind, name);
    } else {
      NoRootFile(files, from, RewriteText(text));
    }
  }

  lemma RootIsTheOnlyTopFile(contract: Contract, root: string, recorded: DomainsBySchema, files: Files)
    requires IsSplit(contract, root, recorded, files)
    ensures ["openapi.yaml"] in files <==> root == "openapi.yaml"
  {
    assert ["openapi.yaml"] == [root] ==> ["openapi.yaml"][0] == [root][0];
  }

  lemma NoRootFile(files: Files, from: Path, uri: string)
    requires Locator(from, uri).file !in files
    ensures ResolveThrough(files, from, uri) == None
  {
  }

  lemma LocateThree(document: Json, first: string, second: string, third: string, outer: seq<Field>, inner: seq<Field>)
    requires document.Obj? && Lookup(document.fields, first) == Some(Obj(outer))
    requires Lookup(outer, second) in {None, Some(Obj(inner))}
    ensures Locate(document, [first, second, third])
            == if Lookup(outer, second).Some? then Lookup(inner, third) else None
  {
    assert [first, second, third][1..] == [second, third] && [second, third][1..] == [third];
    assert Locate(document, [first, second, third]) == Locate(Obj(outer), [second, third]);
    if Lookup(outer, second).Some? {
      LocateOne(Obj(inner), third);
    }
  }

  /** The detour of a reference to a whole component through the root file. */
  lemma ResolveInRoot(contract: Contract, root: string, recorded: DomainsBySchema, files: Files,
                      from: Path, uri: string, kind: string, name: string)
    requires contract.Valid() && IsSplit(contract, root, recorded, files) && KnownDomains(recorded)
    requires SafeName(name) && Component(contract.components, kind, name).Some?
    requires Locator(from, uri) == Location([root], ["components", kind, name])
    ensures ResolveThrough(files, from, uri)
            == if SplitKind(kind) then Some(RewriteComponentRefs(Component(contract.components, kind, name).value)) else None
  {
    hide RewriteComponentRefs, KindReferences, RootComponents, RootFields, KnownDomains, SafeName, Locator, IsSplit;
    RootOfSplit(contract, root, recorded, files);
    RootSections(contract, recorded);
    RootKind(contract, recorded, kind);
    LocateThree(files[[root]], "components", kind, name, RootComponents(contract, recorded),
                KindReferences(contract, recorded, kind));
    if SplitKind(kind) {
      var fields := contract.Kind(kind);
      LookupFinds(fields, name);
      var i :| 0 <= i < |fields| && fields[i] == Field(name, Lookup(fields, name).value);
      KindReferencesAreDistinct(contract, recorded, kind);
      KindReferenceResolves(contract, root, recorded, files, kind, i);
      LookupAt(KindReferences(contract, recorded, kind), i);
    }
  }

  lemma KindReferencesAreDistinct(contract: Contract, recorded: DomainsBySchema, kind: string)
    requires contract.Valid()
    ensures DistinctKeys(KindReferences(contract, recorded, kind))
  {
    ReferencesShape(BySchema(recorded), SCHEMAS_FOLDER, false, contract.Kind("schemas"));
  }
}
