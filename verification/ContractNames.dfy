/**
  Which component names a reference can carry. Splitting writes component names into references as they
  are, and a reader takes them apart at slashes and unescapes the parts.
 */
module ContractNames {
  import opened Wrappers
  import opened JsonDocuments
  import opened ContractReferences
  import opened SchemaWalk
  import opened FileReferences
  import opened ContractSplit
  import opened ContractReading

  // ----- Names that read back as themselves -----

  /** The text holds a tilde followed by the given character. */
  predicate HasPair(text: string, second: char) {
    |text| >= 2 && ((text[0] == '~' && text[1] == second) || HasPair(text[1..], second))
  }

  lemma {:induction false} ReplacePairShrinks(text: string, second: char, image: char)
    ensures |ReplacePair(text, second, image)| <= |text|
    ensures HasPair(text, second) ==> |ReplacePair(text, second, image)| < |text|
    ensures !HasPair(text, second) ==> ReplacePair(text, second, image) == text
  {
    if |text| >= 2 && text[0] == '~' && text[1] == second {
      ReplacePairShrinks(text[2..], second, image);
    } else if text != "" {
      ReplacePairShrinks(text[1..], second, image);
      assert text == [text[0]] + text[1..];
    }
  }

  /** A name is safe exactly if it has no slash and no escape of RFC 6901. */
  lemma SafeNamesHaveNoEscape(name: string)
    ensures SafeName(name) <==> '/' !in name && !HasPair(name, '0') && !HasPair(name, '1')
  {
    hide ReplacePair, HasPair;
    ReplacePairShrinks(name, '1', '/');
    ReplacePairShrinks(ReplacePair(name, '1', '/'), '0', '~');
  }

  // ----- What a reader takes a reference for -----

  lemma SplitHasPieces(text: string)
    ensures |Split(text, '/')| >= 1
    ensures |Split(text, '/')| >= 2 <==> '/' in text
  {
    var i := FirstOf(text, '/');
    if i == |text| {
      assert text[..i] == text;
    } else {
      SplitNotEmpty(text[i+1..]);
    }
  }

  lemma SplitNotEmpty(text: string)
    ensures |Split(text, '/')| >= 1
  {
  }

  lemma SplitPair(first: string, name: string)
    requires '/' !in first
    ensures Tokens("/" + first + "/" + name) == [Unescape(first)] + Tokens("/" + name)
  {
    hide Split, Unescape;
    var text := first + ['/'] + name;
    SplitFirst(first, name, '/');
    assert ("/" + first + "/" + name)[1..] == text && ("/" + name)[1..] == name;
  }

  lemma TokensOfName(name: string)
    ensures Tokens("/" + name) == [name] <==> SafeName(name)
    ensures |Tokens("/" + name)| == |Split(name, '/')| >= 1
  {
    assert ("/" + name)[1..] == name;
    SplitHasPieces(name);
    if '/' !in name {
      SplitSingle(name, '/');
      assert Tokens("/" + name) == [Unescape(name)];
    }
  }

  /** A pointer of two unescaped parts points at that pair exactly if the second is safe, given that the first is. */
  lemma PointerKeepsPairIffSafe(first: string, name: string)
    requires SafeName(first)
    ensures Tokens("/" + first + "/" + name) == [first, name] <==> SafeName(name)
    ensures |Tokens("/" + first + "/" + name)| >= 2 && Tokens("/" + first + "/" + name)[0] == first
  {
    hide Tokens, Split, Unescape;
    assert '/' !in first;
    SafeUnescapes(first);
    SplitPair(first, name);
    TokensOfName(name);
    var rest := Tokens("/" + name);
    assert [first] + rest == [first, name] <==> rest == [name] by {
      assert ([first] + rest)[1..] == rest && [first, name][1..] == [name];
    }
  }

  lemma SafeUnescapes(name: string)
    requires SafeName(name)
    ensures Unescape(name) == name
  {
  }

  /** A file below the root's directory, as the root refers to it with any name. */
  lemma LocateAnyName(root: string, folder: string, file: string, first: string, name: string)
    requires Segment(folder) && Segment(file)
    ensures Locator([root], "./openapi/" + folder + "/" + file + "#/" + first + "/" + name)
            == Location(["openapi", folder, file], Tokens("/" + first + "/" + name))
  {
    hide Split, FirstOf, Tokens, Unescape, Relative, Join;
    var path := "./openapi/" + folder + "/" + file;
    var segments := [".", "openapi", folder, file];
    JoinFour(".", "openapi", folder, file);
    assert path == Join(segments, '/');
    SplitJoin(segments, '/');
    RelativeDownwards(folder, file);
    var fragment := "/" + first + "/" + name;
    assert path + "#/" + first + "/" + name == path + "#" + fragment;
    LocatorParts([root], path, fragment);
  }

  /** The file in which splitting puts a component. */
  function HomeOf(recorded: DomainsBySchema, kind: string, name: string): Path {
    if kind == "schemas" then DomainFile(SCHEMAS_FOLDER, Owner(DomainsOf(recorded, name))) else COMMON_FILE
  }

  /**
    The root's reference to a component leads to the component's file and, in it, to the place of the
    component exactly if the component's name is safe.
   */
  lemma ReferenceFindsPlaceIffSafe(contract: Contract, root: string, recorded: DomainsBySchema, kind: string, i: nat)
    requires SplitKind(kind) && i < |contract.Kind(kind)| && KnownDomains(recorded)
    ensures var name := contract.Kind(kind)[i].key;
            && |KindReferences(contract, recorded, kind)| == |contract.Kind(kind)|
            && RefUri(KindReferences(contract, recorded, kind)[i].value).Some?
            && var location := Locator([root], RefUri(KindReferences(contract, recorded, kind)[i].value).value);
               && location.file == HomeOf(recorded, kind, name)
               && location.tokens == Tokens("/" + kind + "/" + name)
               && (location.tokens == [kind, name] <==> SafeName(name))
  {
    hide Locator, Tokens, Owner, DomainsOf, SafeName, Segment;
    var name := contract.Kind(kind)[i].key;
    KindsAreSegments(kind);
    PointerKeepsPairIffSafe(kind, name);
    if kind == "schemas" {
      SchemaUri(contract, recorded, i);
      DomainForIsKnown(BySchema(recorded), contract.Kind(kind)[i]);
      var domain := Owner(DomainsOf(recorded, name));
      DomainsAreSegments(domain);
      LocateAnyName(root, SCHEMAS_FOLDER, domain + ".yaml", SCHEMAS_FOLDER, name);
    } else {
      CommonUri(contract, recorded, kind, i);
      LocateAnyName(root, "components", "common.yaml", kind, name);
    }
  }

  lemma SchemaUri(contract: Contract, recorded: DomainsBySchema, i: nat)
    requires i < |contract.Kind("schemas")|
    ensures var name := contract.Kind("schemas")[i].key;
            var domain := Owner(DomainsOf(recorded, name));
            && |KindReferences(contract, recorded, "schemas")| == |contract.Kind("schemas")|
            && RefUri(KindReferences(contract, recorded, "schemas")[i].value)
               == Some("./openapi/" + SCHEMAS_FOLDER + "/" + (domain + ".yaml") + "#/" + SCHEMAS_FOLDER + "/" + name)
  {
    hide Owner, DomainsOf;
    var name := contract.Kind("schemas")[i].key;
    var domain := Owner(DomainsOf(recorded, name));
    assert DomainUri(SCHEMAS_FOLDER, domain) + "#/" + SCHEMAS_FOLDER + "/" + name
           == "./openapi/" + SCHEMAS_FOLDER + "/" + (domain + ".yaml") + "#/" + SCHEMAS_FOLDER + "/" + name;
  }

  lemma CommonUri(contract: Contract, recorded: DomainsBySchema, kind: string, i: nat)
    requires kind in COMMON_KINDS && i < |contract.Kind(kind)|
    ensures && |KindReferences(contract, recorded, kind)| == |contract.Kind(kind)|
            && RefUri(KindReferences(contract, recorded, kind)[i].value)
               == Some("./openapi/" + "components" + "/" + "common.yaml" + "#/" + kind + "/" + contract.Kind(kind)[i].key)
  {
    assert "./openapi/components/common.yaml" == "./openapi/" + "components" + "/" + "common.yaml";
    assert "schemas" !in COMMON_KINDS by {
      assert "schemas"[0] == 's' && "schemas"[1] == 'c' && "securitySchemes"[1] == 'e';
    }
  }

  // ----- What an unsafe name costs -----

  /** In a section that holds one component, without parts of its own, only its own pointer finds anything. */
  lemma OnlyOwnPointerFinds(document: Json, section: string, name: string, tokens: seq<string>)
    requires document.Obj? && Lookup(document.fields, section) == Some(Obj([Field(name, Null)]))
    requires |tokens| >= 2 && tokens[0] == section
    ensures Locate(document, tokens) == if tokens == [section, name] then Some(Null) else None
  {
    var rest := tokens[1..];
    var fields := [Field(name, Null)];
    assert fields[1..] == [] && tokens == [section] + rest && rest == [rest[0]] + rest[1..];
    assert Locate(document, tokens) == Locate(Obj(fields), rest);
    assert Lookup(fields[1..], rest[0]) == None;
    assert Lookup(fields, rest[0]) == if rest[0] == name then Some(Null) else None;
    assert Locate(Obj(fields), rest) == if rest[0] == name then Locate(Null, rest[1..]) else None;
    assert Locate(Null, rest[1..]) == if rest[1..] == [] then Some(Null) else None;
    assert tokens == [section, name] <==> rest == [name];
  }

  /** The schema file of a schema alone of its kind holds that schema. */
  lemma SchemaHomeHoldsSole(recorded: DomainsBySchema, files: Files, fields: seq<Field>, name: string)
    requires fields == [Field(name, Null)] && DomainFiles(files, BySchema(recorded), SCHEMAS_FOLDER, fields)
    ensures var home := HomeOf(recorded, "schemas", name);
            home in files && files[home].Obj? && Lookup(files[home].fields, "schemas") == Some(Obj(fields))
  {
    hide Owner, DomainsOf;
    var domain := DomainFor(BySchema(recorded), fields[0]);
    assert domain in Used(BySchema(recorded), fields);
    assert fields[..0] == [];
    assert Assigned(BySchema(recorded), fields, domain) == fields;
  }

  /** What the file of a kind holds for a kind with one component. */
  lemma HomeHoldsSole(contract: Contract, root: string, recorded: DomainsBySchema, files: Files, kind: string, name: string)
    requires contract.Valid() && IsSplit(contract, root, recorded, files)
    requires SplitKind(kind) && contract.Kind(kind) == [Field(name, Null)]
    ensures var home := HomeOf(recorded, kind, name);
            home in files && files[home].Obj? && Lookup(files[home].fields, kind) == Some(Obj([Field(name, Null)]))
  {
    hide Owner, DomainsOf, DomainFiles;
    if kind == "schemas" {
      SchemaHomeHoldsSole(recorded, files, contract.Kind(kind), name);
    } else {
      KindLookup(contract, COMMON_KINDS, false, kind);
      assert RewriteComponentRefs(Obj(contract.Kind(kind))) == Obj([Field(name, Null)]);
    }
  }

  /**
    If a name is the only one of its kind, and its component has no parts, the root's reference resolves
    to the component exactly if the name is safe, and to nothing otherwise.
   */
  lemma SoleComponentResolvesIffSafe(contract: Contract, root: string, recorded: DomainsBySchema, files: Files,
                                     kind: string, name: string)
    requires contract.Valid() && IsSplit(contract, root, recorded, files) && KnownDomains(recorded)
    requires SplitKind(kind) && contract.Kind(kind) == [Field(name, Null)]
    ensures |KindReferences(contract, recorded, kind)| == 1 && RefUri(KindReferences(contract, recorded, kind)[0].value).Some?
    ensures Resolve(files, [root], RefUri(KindReferences(contract, recorded, kind)[0].value).value)
            == if SafeName(name) then Some(Null) else None
  {
    hide IsSplit, KnownDomains, KindReferences, Locator, SafeName, Tokens, HomeOf, RefUri, Locate;
    ReferenceFindsPlaceIffSafe(contract, root, recorded, kind, 0);
    HomeHoldsSole(contract, root, recorded, files, kind, name);
    KindsAreSegments(kind);
    PointerKeepsPairIffSafe(kind, name);
    OnlyOwnPointerFinds(files[HomeOf(recorded, kind, name)], kind, name, Tokens("/" + kind + "/" + name));
  }
}
