/**
  Splitting one OpenAPI contract into a root file and files by domain, and reading the
  split contract back.
 */
module ContractSplit {
  import opened Wrappers
  import opened JsonDocuments
  import opened ContractReferences
  import opened SchemaWalk
  import opened FileReferences

  /** A contract: its parts that splitting moves, and the rest. */
  datatype Contract = Contract(
    paths: seq<Field>,
    components: Components,
    eventContracts: Option<Json>,
    rest: seq<Field>)
  {
    function Kind(kind: string): seq<Field> {
      if kind in components then components[kind] else []
    }

    /** Keys are distinct, as in any YAML mapping. */
    predicate Valid() {
      && DistinctKeys(paths)
      && (forall kind | kind in components :: DistinctKeys(components[kind]))
      && (forall field | field in rest :: field.key !in {"paths", "components", "x-event-contracts"})
    }
  }

  // ----- Domains -----

  const HTTP_METHODS := {"get", "post", "put", "patch", "delete", "options", "head", "trace"}
  const PATH_DOMAINS := {"github-copilot", "authentication", "assistant", "model-platform", "budgets", "observability"}
  const DOMAINS := PATH_DOMAINS + {"common", "events"}

  function LowerChar(c: char): char {
    if 'A' <= c <= 'Z' then c - 'A' + 'a' else c
  }

  function Lower(text: string): string {
    seq(|text|, i requires 0 <= i < |text| => LowerChar(text[i]))
  }

  function Tags(operation: Json): set<string> {
    match operation
    case Obj(fields) =>
      (match Lookup(fields, "tags")
       case None => {"Untagged"}
       case Some(Arr(tags)) => set i | 0 <= i < |tags| && tags[i].Str? :: tags[i].text
       case _ => {})
    case _ => {}
  }

  function PathTags(item: Json): set<string> {
    match item
    case Obj(fields) =>
      set i, tag | 0 <= i < |fields| && Lower(fields[i].key) in HTTP_METHODS && tag in Tags(fields[i].value) :: tag
    case _ => {}
  }

  function PathDomain(item: Json): (domain: string)
    ensures domain in PATH_DOMAINS
  {
    var tags := PathTags(item);
    if "GitHub Copilot" in tags then "github-copilot"
    else if "Authentication" in tags then "authentication"
    else if "Assistant" in tags then "assistant"
    else if "Model Control Plane" in tags then "model-platform"
    else if "Budgets" in tags then "budgets"
    else "observability"
  }

  /** A key spells a lower-case word, each letter in either case. */
  predicate Spells(key: string, word: string) {
    |key| == |word| && forall i | 0 <= i < |key| :: key[i] == word[i] || key[i] as int + 32 == word[i] as int
  }

  predicate IsMethod(key: string) {
    || Spells(key, "get") || Spells(key, "post") || Spells(key, "put") || Spells(key, "patch")
    || Spells(key, "delete") || Spells(key, "options") || Spells(key, "head") || Spells(key, "trace")
  }

  /** An operation carries a tag if it lists it; without a list of tags it counts as untagged. */
  predicate Carries(operation: Json, tag: string) {
    operation.Obj? && match Lookup(operation.fields, "tags")
                      case None => tag == "Untagged"
                      case Some(tags) => tags.Arr? && Str(tag) in tags.items
  }

  /** Some operation of the path, under whichever of the eight HTTP methods, carries the tag. */
  predicate HasTag(item: Json, tag: string) {
    item.Obj? && exists i :: 0 <= i < |item.fields| && IsMethod(item.fields[i].key) && Carries(item.fields[i].value, tag)
  }

  lemma SpellsIsLower(key: string, word: string)
    requires forall c | c in word :: 'a' <= c <= 'z'
    ensures Spells(key, word) <==> Lower(key) == word
  {
    if |key| == |word| {
      forall i | 0 <= i < |key|
        ensures key[i] == word[i] || key[i] as int + 32 == word[i] as int <==> LowerChar(key[i]) == word[i]
      {
        assert word[i] in word;
      }
      if Spells(key, word) {
        assert Lower(key) == word;
      }
    }
  }

  lemma MethodsAreEight(key: string)
    ensures IsMethod(key) <==> Lower(key) in HTTP_METHODS
  {
    hide Spells, Lower;
    SpellsIsLower(key, "get");
    SpellsIsLower(key, "post");
    SpellsIsLower(key, "put");
    SpellsIsLower(key, "patch");
    SpellsIsLower(key, "delete");
    SpellsIsLower(key, "options");
    SpellsIsLower(key, "head");
    SpellsIsLower(key, "trace");
  }

  lemma TagsAreCarried(operation: Json, tag: string)
    ensures tag in Tags(operation) <==> Carries(operation, tag)
  {
    if operation.Obj? && Lookup(operation.fields, "tags").Some? && Lookup(operation.fields, "tags").value.Arr? {
      var tags := Lookup(operation.fields, "tags").value.items;
      if Str(tag) in tags {
        var i :| 0 <= i < |tags| && tags[i] == Str(tag);
        assert tags[i].text == tag;
      }
    }
  }

  /** The tags of a path are those that an operation under one of the eight methods carries. */
  lemma PathTagsAreCarried(item: Json, tag: string)
    ensures tag in PathTags(item) <==> HasTag(item, tag)
  {
    hide Tags, Carries, IsMethod, Lower;
    if item.Obj? {
      forall i | 0 <= i < |item.fields|
        ensures IsMethod(item.fields[i].key) <==> Lower(item.fields[i].key) in HTTP_METHODS
        ensures tag in Tags(item.fields[i].value) <==> Carries(item.fields[i].value, tag)
      {
        MethodsAreEight(item.fields[i].key);
        TagsAreCarried(item.fields[i].value, tag);
      }
    }
  }

  /** The tags that decide a path's domain, the strongest first. */
  const TAG_DOMAINS: seq<(string, string)> := [
    ("GitHub Copilot", "github-copilot"), ("Authentication", "authentication"), ("Assistant", "assistant"),
    ("Model Control Plane", "model-platform"), ("Budgets", "budgets")]

  /** A path belongs to the domain of its strongest tag, and to observability exactly without any of them. */
  lemma PathDomainIsStrongestTag(item: Json, i: nat)
    requires i < |TAG_DOMAINS|
    ensures PathDomain(item) == TAG_DOMAINS[i].1
            <==> HasTag(item, TAG_DOMAINS[i].0) && forall j | 0 <= j < i :: !HasTag(item, TAG_DOMAINS[j].0)
    ensures PathDomain(item) == "observability" <==> forall j | 0 <= j < |TAG_DOMAINS| :: !HasTag(item, TAG_DOMAINS[j].0)
  {
    hide PathTags, HasTag;
    var tags := PathTags(item);
    assert TAG_DOMAINS[0].0 == "GitHub Copilot" && TAG_DOMAINS[1].0 == "Authentication" && TAG_DOMAINS[2].0 == "Assistant";
    assert TAG_DOMAINS[3].0 == "Model Control Plane" && TAG_DOMAINS[4].0 == "Budgets";
    forall j | 0 <= j < |TAG_DOMAINS|
      ensures TAG_DOMAINS[j].0 in tags <==> HasTag(item, TAG_DOMAINS[j].0)
    {
      PathTagsAreCarried(item, TAG_DOMAINS[j].0);
    }
    assert forall a, b | 0 <= a < b < 5 :: TAG_DOMAINS[a].1 != TAG_DOMAINS[b].1 by {
      DomainsDiffer();
    }
  }

  lemma DomainsDiffer()
    ensures forall a, b | 0 <= a < b < 5 :: TAG_DOMAINS[a].1 != TAG_DOMAINS[b].1
    ensures forall a | 0 <= a < 5 :: TAG_DOMAINS[a].1 != "observability"
  {
    assert "github-copilot"[0] == 'g' && "model-platform"[0] == 'm' && "budgets"[0] == 'b' && "observability"[0] == 'o';
    assert "authentication"[1] == 'u' && "assistant"[1] == 's';
  }

  /** A schema belongs to the only domain that reaches it, and otherwise to the common file. */
  function Owner(domains: set<string>): string {
    if exists domain | domain in domains :: domains == {domain} && domain != "common" then
      var domain :| domain in domains && domains == {domain} && domain != "common"; domain
    else "common"
  }

  /** What a field's domain depends on: the path itself, or what the search recorded. */
  datatype Assignment = ByPath | BySchema(recorded: DomainsBySchema)

  function DomainFor(assignment: Assignment, field: Field): string {
    match assignment
    case ByPath => PathDomain(field.value)
    case BySchema(recorded) => Owner(DomainsOf(recorded, field.key))
  }

  function Used(assignment: Assignment, fields: seq<Field>): set<string> {
    set i | 0 <= i < |fields| :: DomainFor(assignment, fields[i])
  }

  /** The fields of one domain, rewritten, in their order. */
  function Assigned(assignment: Assignment, fields: seq<Field>, domain: string): seq<Field> {
    if fields == [] then []
    else
      var last := fields[|fields| - 1];
      Assigned(assignment, fields[..|fields| - 1], domain)
      + if DomainFor(assignment, last) == domain then [Field(last.key, RewriteComponentRefs(last.value))] else []
  }

  // ----- Files -----

  const PATHS_FOLDER := "paths"
  const SCHEMAS_FOLDER := "schemas"
  const COMMON_FILE: Path := ["openapi", "components", "common.yaml"]
  const EVENTS_FILE: Path := ["openapi", "events", "eventhub.yaml"]
  const COMMON_KINDS := ["parameters", "responses", "securitySchemes"]
  const ROOT_KINDS := ["securitySchemes", "parameters", "responses"]

  function DomainFile(folder: string, domain: string): Path {
    ["openapi", folder, domain + ".yaml"]
  }

  function DomainUri(folder: string, domain: string): string {
    "./openapi/" + folder + "/" + domain + ".yaml"
  }

  function References(assignment: Assignment, folder: string, escape: bool, fields: seq<Field>): seq<Field> {
    seq(|fields|, i requires 0 <= i < |fields| =>
      var field := fields[i];
      var token := if escape then Pointer(field.key) else field.key;
      Field(field.key, Reference(DomainUri(folder, DomainFor(assignment, field)) + "#/" + folder + "/" + token)))
  }

  function CommonReferences(kind: string, fields: seq<Field>): seq<Field> {
    seq(|fields|, i requires 0 <= i < |fields| =>
      Field(fields[i].key, Reference("./openapi/components/common.yaml" + "#/" + kind + "/" + fields[i].key)))
  }

  function KindField(contract: Contract, kind: string, references: bool): seq<Field> {
    var fields := contract.Kind(kind);
    if fields == [] then []
    else if references then [Field(kind, Obj(CommonReferences(kind, fields)))]
    else [Field(kind, RewriteComponentRefs(Obj(fields)))]
  }

  /** The given kinds that have components, each with its fields mapped. */
  function KindFields(contract: Contract, kinds: seq<string>, references: bool): seq<Field> {
    if kinds == [] then []
    else KindField(contract, kinds[0], references) + KindFields(contract, kinds[1..], references)
  }

  function RootComponents(contract: Contract, recorded: DomainsBySchema): seq<Field> {
    KindFields(contract, ROOT_KINDS, true)
    + [Field("schemas", Obj(References(BySchema(recorded), SCHEMAS_FOLDER, false, contract.Kind("schemas"))))]
  }

  function RootFields(contract: Contract, recorded: DomainsBySchema): seq<Field> {
    contract.rest
    + [Field("paths", Obj(References(ByPath, PATHS_FOLDER, true, contract.paths))),
       Field("components", Obj(RootComponents(contract, recorded)))]
    + match contract.eventContracts
      case Some(events) => [Field("x-event-contracts", events)]
      case None => []
  }

  /** A file of one domain: its paths, or its schemas. */
  function DomainDocument(assignment: Assignment, folder: string, fields: seq<Field>, domain: string): Json {
    Obj([Field(folder, Obj(Assigned(assignment, fields, domain)))])
  }

  ghost predicate DomainFiles(files: Files, assignment: Assignment, folder: string, fields: seq<Field>) {
    forall domain | domain in Used(assignment, fields) ::
      && DomainFile(folder, domain) in files
      && files[DomainFile(folder, domain)] == DomainDocument(assignment, folder, fields, domain)
  }

  /** The files of a split contract; `root` is the name of the root file. */
  ghost predicate IsSplit(contract: Contract, root: string, recorded: DomainsBySchema, files: Files) {
    && DomainFiles(files, ByPath, PATHS_FOLDER, contract.paths)
    && DomainFiles(files, BySchema(recorded), SCHEMAS_FOLDER, contract.Kind("schemas"))
    && COMMON_FILE in files && files[COMMON_FILE] == Obj(KindFields(contract, COMMON_KINDS, false))
    && [root] in files && files[[root]] == Obj(RootFields(contract, recorded))
    && (contract.eventContracts.Some? ==>
          && EVENTS_FILE in files
          && files[EVENTS_FILE] == Obj([Field("eventContracts", RewriteComponentRefs(contract.eventContracts.value))]))
    && forall path | path in files ::
         || path == [root] || path == COMMON_FILE || (path == EVENTS_FILE && contract.eventContracts.Some?)
         || (exists domain :: domain in Used(ByPath, contract.paths) && path == DomainFile(PATHS_FOLDER, domain))
         || (exists domain :: domain in Used(BySchema(recorded), contract.Kind("schemas"))
                              && path == DomainFile(SCHEMAS_FOLDER, domain))
  }
}
