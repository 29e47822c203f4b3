/**
  References between the files of a split contract: a relative file path and, after a hash,
  a JSON pointer. Pointer tokens are escaped and unescaped as sections 3 and 4 of RFC 6901
  require; percent-encoding is not part of this model.
 */
module FileReferences {
  import opened Wrappers
  import opened JsonDocuments
  import opened ContractReferences

  // ----- Pointer tokens -----

  function Replace(text: string, c: char, image: string): string {
    if text == "" then "" else (if text[0] == c then image else [text[0]]) + Replace(text[1..], c, image)
  }

  /** The escape of a route key, one replacement after the other. */
  function Pointer(text: string): string {
    Replace(Replace(text, '~', "~0"), '/', "~1")
  }

  function ReplacePair(text: string, second: char, image: char): string {
    if text == "" then ""
    else if |text| >= 2 && text[0] == '~' && text[1] == second then [image] + ReplacePair(text[2..], second, image)
    else [text[0]] + ReplacePair(text[1..], second, image)
  }

  /** The unescape of a reference token, in the order that the standard prescribes. */
  function Unescape(token: string): string {
    ReplacePair(ReplacePair(token, '1', '/'), '0', '~')
  }

  function PointerChar(c: char): string {
    if c == '~' then "~0" else if c == '/' then "~1" else [c]
  }

  lemma {:induction false} ReplaceConcat(a: string, b: string, c: char, image: string)
    ensures Replace(a + b, c, image) == Replace(a, c, image) + Replace(b, c, image)
  {
    if a == "" {
      assert a + b == b;
    } else {
      assert (a + b)[1..] == a[1..] + b;
      ReplaceConcat(a[1..], b, c, image);
    }
  }

  lemma PointerCons(c: char, rest: string)
    ensures Pointer([c] + rest) == PointerChar(c) + Pointer(rest)
  {
    var tilded := Replace([c] + rest, '~', "~0");
    var first := if c == '~' then "~0" else [c];
    assert ([c] + rest)[1..] == rest;
    assert tilded == first + Replace(rest, '~', "~0");
    ReplaceConcat(first, Replace(rest, '~', "~0"), '/', "~1");
    assert first[1..] == if c == '~' then "0" else "";
    assert "0"[1..] == "";
    assert Replace("0", '/', "~1") == "0";
    assert Replace(first, '/', "~1") == PointerChar(c);
  }

  /** After the first replacement, an escaped token reads as the tilde-escaped text. */
  lemma {:induction false} UnescapeSlashes(text: string)
    ensures ReplacePair(Pointer(text), '1', '/') == Replace(text, '~', "~0")
  {
    if text != "" {
      var c, rest := text[0], text[1..];
      assert text == [c] + rest;
      PointerCons(c, rest);
      UnescapeSlashes(rest);
      var tail := Pointer(rest);
      if c == '~' {
        assert ("~0" + tail)[1..] == "0" + tail && ("0" + tail)[1..] == tail;
      } else if c == '/' {
        assert ("~1" + tail)[2..] == tail;
      } else {
        assert ([c] + tail)[1..] == tail;
      }
    }
  }

  lemma {:induction false} UnescapeTildes(text: string)
    ensures ReplacePair(Replace(text, '~', "~0"), '0', '~') == text
  {
    if text != "" {
      var c, rest := text[0], text[1..];
      UnescapeTildes(rest);
      var tail := Replace(rest, '~', "~0");
      if c == '~' {
        assert ("~0" + tail)[2..] == tail;
      } else {
        assert ([c] + tail)[1..] == tail;
      }
    }
  }

  /** Escaping a route key is reversible, and its result is a single token. */
  lemma PointerRoundTrip(text: string)
    ensures Unescape(Pointer(text)) == text
    ensures '/' !in Pointer(text)
  {
    UnescapeSlashes(text);
    UnescapeTildes(text);
    NoSlashes(Replace(text, '~', "~0"));
  }

  lemma {:induction false} NoSlashes(text: string)
    ensures '/' !in Replace(text, '/', "~1")
  {
    if text != "" {
      NoSlashes(text[1..]);
    }
  }

  // ----- Splitting -----

  function Split(text: string, separator: char): seq<string>
    decreases |text|
  {
    var i := FirstOf(text, separator);
    if i == |text| then [text] else [text[..i]] + Split(text[i+1..], separator)
  }

  lemma SplitFirst(first: string, rest: string, separator: char)
    requires separator !in first
    ensures Split(first + [separator] + rest, separator) == [first] + Split(rest, separator)
  {
    var text := first + [separator] + rest;
    assert text[..|first|] == first && text[|first|+1..] == rest;
    FirstOfIs(text, separator, |first|);
  }

  lemma SplitSingle(text: string, separator: char)
    requires separator !in text
    ensures Split(text, separator) == [text]
  {
    FirstOfNone(text, separator);
  }

  function Join(parts: seq<string>, separator: char): string
    requires parts != []
  {
    if |parts| == 1 then parts[0] else parts[0] + [separator] + Join(parts[1..], separator)
  }

  lemma {:induction false} SplitJoin(parts: seq<string>, separator: char)
    requires parts != [] && forall part | part in parts :: separator !in part
    ensures Split(Join(parts, separator), separator) == parts
  {
    if |parts| == 1 {
      SplitSingle(parts[0], separator);
    } else {
      SplitJoin(parts[1..], separator);
      SplitFirst(parts[0], Join(parts[1..], separator), separator);
    }
  }

  // ----- Resolving -----

  type Path = seq<string>

  /** A relative path, segment by segment, from a directory. */
  function Relative(directory: Path, segments: seq<string>): Path
    decreases segments
  {
    if segments == [] then directory
    else if segments[0] == "." then Relative(directory, segments[1..])
    else if segments[0] == ".." then
      Relative(if directory == [] then [] else directory[..|directory| - 1], segments[1..])
    else Relative(directory + [segments[0]], segments[1..])
  }

  function Directory(file: Path): Path {
    if file == [] then [] else file[..|file| - 1]
  }

  function Tokens(fragment: string): seq<string> {
    if fragment == "" || fragment[0] != '/' then []
    else
      var raw := Split(fragment[1..], '/');
      seq(|raw|, i requires 0 <= i < |raw| => Unescape(raw[i]))
  }

  datatype Location = Location(file: Path, tokens: seq<string>)

  function Locator(from: Path, uri: string): Location {
    var i := FirstOf(uri, '#');
    var file := if i == 0 then from else Relative(Directory(from), Split(uri[..i], '/'));
    Location(file, if i == |uri| then [] else Tokens(uri[i+1..]))
  }

  type Files = map<Path, Json>

  function Resolve(files: Files, from: Path, uri: string): Option<Json> {
    var location := Locator(from, uri);
    if location.file in files then Locate(files[location.file], location.tokens) else None
  }

  function RefUri(value: Json): Option<string> {
    match value
    case Obj(fields) =>
      (match Lookup(fields, "$ref")
       case Some(Str(uri)) => Some(uri)
       case _ => None)
    case _ => None
  }

  function Reference(uri: string): Json {
    Obj([Field("$ref", Str(uri))])
  }

  lemma LocatorParts(from: Path, file: string, fragment: string)
    requires file != "" && '#' !in file
    ensures Locator(from, file + "#" + fragment)
            == Location(Relative(Directory(from), Split(file, '/')), Tokens(fragment))
  {
    var uri := file + "#" + fragment;
    FirstOfIs(uri, '#', |file|);
    assert uri[..|file|] == file && uri[|file|+1..] == fragment;
  }

  lemma JoinedTokens(parts: seq<string>)
    requires parts != [] && forall part | part in parts :: '/' !in part
    ensures |Tokens("/" + Join(parts, '/'))| == |parts|
    ensures forall i | 0 <= i < |parts| :: Tokens("/" + Join(parts, '/'))[i] == Unescape(parts[i])
  {
    SplitJoin(parts, '/');
    assert ("/" + Join(parts, '/'))[1..] == Join(parts, '/');
  }

  lemma JoinTwo(a: string, b: string)
    ensures Join([a, b], '/') == a + "/" + b
  {
  }

  lemma JoinThree(a: string, b: string, c: string)
    ensures Join([a, b, c], '/') == a + "/" + b + "/" + c
  {
    JoinTwo(b, c);
    assert [a, b, c][1..] == [b, c];
  }

  lemma JoinFour(a: string, b: string, c: string, d: string)
    ensures Join([a, b, c, d], '/') == a + "/" + b + "/" + c + "/" + d
  {
    JoinThree(b, c, d);
    assert [a, b, c, d][1..] == [b, c, d];
  }
}
