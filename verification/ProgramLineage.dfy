/** The programs that an installed fixed program remembers through repeated upgrades. */
module ProgramLineage {
  import opened Wrappers
  import opened Orders
  import opened TextOrder

  /** The digest of the installed program, the first one of its line, and the others before it. */
  datatype Installation = Installation(program: string, legacy: Option<string>, predecessors: seq<string>)

  function SetOf(texts: seq<string>): set<string> {
    set text | text in texts
  }

  function Other(texts: seq<string>, text: string): seq<string> {
    if texts == [] then []
    else
      Other(texts[..|texts| - 1], text) + if texts[|texts| - 1] == text then [] else [texts[|texts| - 1]]
  }

  /** The installation that an upgrade to another program prepares. */
  function Upgraded(installed: Installation, program: string): Installation {
    var legacy := installed.legacy.GetOr(installed.program);
    Installation(program, Some(legacy), SortedSet(AtMost, Other(installed.predecessors + [installed.program], legacy)))
  }

  /** What an upgrade must keep of the installation before it. */
  predicate FollowsPrevious(previous: Installation, current: Installation) {
    && current.legacy == Some(previous.legacy.GetOr(previous.program))
    && (current.predecessors != [] ==>
          previous.program == current.legacy.value || previous.program in current.predecessors)
    && SetOf(previous.predecessors) <= SetOf(current.predecessors)
    && current.program != previous.program
  }

  /** What every stored installation satisfies. */
  predicate Bound(installed: Installation) {
    && |installed.predecessors| <= 32
    && (installed.predecessors != [] ==>
          && |SetOf(installed.predecessors)| == |installed.predecessors|
          && installed.program !in installed.predecessors
          && (installed.legacy.Some? ==> installed.legacy.value !in installed.predecessors))
  }

  function Chain(first: string, later: seq<string>): Installation {
    if later == [] then Installation(first, None, [])
    else Upgraded(Chain(first, later[..|later| - 1]), later[|later| - 1])
  }

  lemma {:induction false} OtherIs(texts: seq<string>, text: string)
    ensures forall other :: other in Other(texts, text) <==> other in texts && other != text
  {
    if texts != [] {
      assert texts == texts[..|texts| - 1] + [texts[|texts| - 1]];
      OtherIs(texts[..|texts| - 1], text);
    }
  }

  lemma UpgradedRemembers(installed: Installation, program: string)
    ensures var upgraded := Upgraded(installed, program);
            var legacy := installed.legacy.GetOr(installed.program);
            && (forall other :: other in upgraded.predecessors
                                <==> other != legacy && (other in installed.predecessors || other == installed.program))
            && InOrder(AtMost, upgraded.predecessors) && Distinguishes(AtMost, upgraded.predecessors)
  {
    hide AtMost, SortedSet, Other;
    var legacy := installed.legacy.GetOr(installed.program);
    AtMostIsTotalOrder();
    OtherIs(installed.predecessors + [installed.program], legacy);
    SortedSetIsStrict(AtMost, Other(installed.predecessors + [installed.program], legacy));
  }

  lemma RemembersOneMore(previous: Installation, program: string, earlier: seq<string>)
    requires {previous.legacy.GetOr(previous.program)} + SetOf(previous.predecessors) + {previous.program} == SetOf(earlier)
    ensures var current := Upgraded(previous, program);
            current.legacy.Some? && {current.legacy.value} + SetOf(current.predecessors) == SetOf(earlier)
            && current.legacy.value !in current.predecessors
            && InOrder(AtMost, current.predecessors) && Distinguishes(AtMost, current.predecessors)
  {
    UpgradedRemembers(previous, program);
    hide AtMost, SortedSet, Other, InOrder, Distinguishes;
    var current := Upgraded(previous, program);
    var legacy := current.legacy.value;
    forall other
      ensures other in {legacy} + SetOf(current.predecessors) <==> other in SetOf(earlier)
    {
      assert other in SetOf(earlier) <==> other in {legacy} + SetOf(previous.predecessors) + {previous.program};
    }
  }

  lemma SetOfMore(texts: seq<string>, text: string)
    ensures SetOf(texts + [text]) == SetOf(texts) + {text}
  {
  }

  /**
    After any number of upgrades the first program and the predecessors are together exactly the earlier
    programs, and the predecessors are in strict order.
   */
  lemma {:induction false} LineageIsComplete(first: string, later: seq<string>)
    requires later != []
    ensures var installed := Chain(first, later);
            && installed.program == later[|later| - 1] && installed.legacy == Some(first)
            && {first} + SetOf(installed.predecessors) == SetOf([first] + later[..|later| - 1])
            && first !in installed.predecessors
            && InOrder(AtMost, installed.predecessors) && Distinguishes(AtMost, installed.predecessors)
  {
    hide AtMost, Upgraded, InOrder, Distinguishes, SetOf;
    var before := later[..|later| - 1];
    var previous := Chain(first, before);
    UpgradedBasics(previous, later[|later| - 1]);
    if before == [] {
      FirstOnly(first);
      assert [first] + before == [first];
    } else {
      LineageIsComplete(first, before);
      SetOfMore([first] + before[..|before| - 1], before[|before| - 1]);
      assert [first] + before == [first] + before[..|before| - 1] + [before[|before| - 1]];
    }
    RemembersOneMore(previous, later[|later| - 1], [first] + before);
  }

  lemma FirstOnly(first: string)
    ensures {first} + SetOf([]) + {first} == SetOf([first])
  {
  }

  lemma UpgradedBasics(previous: Installation, program: string)
    ensures Upgraded(previous, program).program == program
    ensures Upgraded(previous, program).legacy == Some(previous.legacy.GetOr(previous.program))
  {
  }

  lemma StrictIsDistinct(texts: seq<string>)
    requires Distinguishes(AtMost, texts)
    ensures |SetOf(texts)| == |texts|
    decreases texts
  {
    hide AtMost;
    AtMostIsTotalOrder();
    if texts != [] {
      var rest, last := texts[..|texts| - 1], texts[|texts| - 1];
      StrictIsDistinct(rest);
      assert texts == rest + [last];
      assert last !in rest;
      assert SetOf(texts) == SetOf(rest) + {last};
    }
  }

  lemma FollowsUnlessSame(previous: Installation, program: string)
    requires previous.legacy.GetOr(previous.program) !in previous.predecessors
    ensures FollowsPrevious(previous, Upgraded(previous, program)) <==> program != previous.program
  {
    UpgradedRemembers(previous, program);
    UpgradedBasics(previous, program);
    hide AtMost, Upgraded, InOrder, Distinguishes;
  }

  lemma PreviousOfChain(first: string, later: seq<string>)
    ensures var previous := Chain(first, later);
            && previous.legacy.GetOr(previous.program) == first && first !in previous.predecessors
            && (previous.program == if later == [] then first else later[|later| - 1])
  {
    if later != [] {
      LineageIsComplete(first, later);
    }
  }

  /** Of what was installed so far only the first program may be installed again, and not twice in a row. */
  lemma OnlyTheFirstMayReturn(first: string, later: seq<string>, program: string)
    ensures var previous := Chain(first, later);
            var current := Upgraded(previous, program);
            FollowsPrevious(previous, current) && Bound(current)
            <==> && program != previous.program
                 && (program == first || program !in later)
                 && |SetOf(later) - {first}| <= 32
  {
    hide AtMost, Upgraded, InOrder, Distinguishes, FollowsPrevious;
    var previous := Chain(first, later);
    var current := Upgraded(previous, program);
    PreviousOfChain(first, later);
    FollowsUnlessSame(previous, program);
    UpgradedBasics(previous, program);
    var more := later + [program];
    assert more[..|more| - 1] == later;
    LineageIsComplete(first, more);
    StrictIsDistinct(current.predecessors);
    PredecessorsAre(first, later, current.predecessors);
    assert program in current.predecessors <==> program in SetOf(current.predecessors);
  }

  lemma PredecessorsAre(first: string, later: seq<string>, predecessors: seq<string>)
    requires {first} + SetOf(predecessors) == SetOf([first] + later) && first !in predecessors
    ensures SetOf(predecessors) == SetOf(later) - {first}
  {
    forall other
      ensures other in SetOf(predecessors) <==> other in SetOf(later) - {first}
    {
      assert other in {first} + SetOf(predecessors) <==> other in SetOf([first] + later);
      assert other in SetOf([first] + later) <==> other == first || other in later;
    }
  }

  // ----- Every lineage that is accepted, prepared here or not -----

  /** From a first installation on, each is accepted after the one before it. */
  predicate Accepted(line: seq<Installation>) {
    && line != [] && line[0].legacy == None && line[0].predecessors == []
    && (forall i | 0 <= i < |line| :: Bound(line[i]))
    && forall i | 0 <= i < |line| - 1 :: FollowsPrevious(line[i], line[i + 1])
  }

  predicate Remembers(installed: Installation, program: string) {
    installed.legacy == Some(program) || program in installed.predecessors
  }

  lemma {:induction false} FirstIsLegacy(line: seq<Installation>, i: nat)
    requires Accepted(line) && i < |line|
    ensures line[i].legacy == if i == 0 then None else Some(line[0].program)
  {
    if i > 0 {
      FirstIsLegacy(line, i - 1);
      assert FollowsPrevious(line[i - 1], line[i - 1 + 1]);
    }
  }

  lemma {:induction false} RememberedStays(line: seq<Installation>, i: nat, j: nat, program: string)
    requires Accepted(line) && i <= j < |line| && Remembers(line[i], program)
    ensures Remembers(line[j], program)
  {
    if i < j {
      RememberedStays(line, i, j - 1, program);
      FirstIsLegacy(line, j - 1);
      FirstIsLegacy(line, j);
      assert FollowsPrevious(line[j - 1], line[j - 1 + 1]);
      assert program in line[j - 1].predecessors ==> program in SetOf(line[j - 1].predecessors);
    }
  }

  /** A program is remembered by all later installations if the next one lists any, or it is the first. */
  lemma ListedLineageRemembers(line: seq<Installation>, i: nat, j: nat)
    requires Accepted(line) && i < j < |line|
    ensures line[i + 1].predecessors != [] || line[i].program == line[0].program ==> Remembers(line[j], line[i].program)
    ensures Remembers(line[i + 1], line[i].program)
            <==> line[i + 1].predecessors != [] || line[i].program == line[0].program
  {
    FirstIsLegacy(line, i);
    FirstIsLegacy(line, i + 1);
    assert FollowsPrevious(line[i], line[i + 1]);
    if Remembers(line[i + 1], line[i].program) {
      RememberedStays(line, i + 1, j, line[i].program);
    }
  }

  /** A remembered program other than the first is never installed again, and each is remembered once. */
  lemma RememberedDoesNotReturn(line: seq<Installation>, i: nat, j: nat, program: string)
    requires Accepted(line) && i <= j < |line| && Remembers(line[i], program) && program != line[0].program
    ensures line[j].program != program
    ensures forall a, b | 0 <= a < b < |line[j].predecessors| :: line[j].predecessors[a] != line[j].predecessors[b]
    ensures |line[j].predecessors| <= 32
  {
    RememberedStays(line, i, j, program);
    FirstIsLegacy(line, j);
    if line[j].predecessors != [] {
      CountedOnce(line[j].predecessors);
    }
  }

  lemma CountedOnce(texts: seq<string>)
    requires |SetOf(texts)| == |texts|
    ensures forall a, b | 0 <= a < b < |texts| :: texts[a] != texts[b]
  {
    forall a, b | 0 <= a < b < |texts|
      ensures texts[a] != texts[b]
    {
      if texts[a] == texts[b] {
        var rest := texts[..b] + texts[b + 1..];
        forall text | text in SetOf(texts)
          ensures text in SetOf(rest)
        {
          var k :| 0 <= k < |texts| && texts[k] == text;
          assert rest[if k == b then a else if k < b then k else k - 1] == text;
        }
        assert SetOf(rest) <= SetOf(texts);
        assert SetOf(rest) == SetOf(texts);
        AtMostAsMany(rest);
      }
    }
  }

  lemma {:induction false} AtMostAsMany(texts: seq<string>)
    ensures |SetOf(texts)| <= |texts|
  {
    if texts != [] {
      var rest := texts[..|texts| - 1];
      AtMostAsMany(rest);
      assert texts == rest + [texts[|texts| - 1]];
      SetOfMore(rest, texts[|texts| - 1]);
    }
  }

  /** An accepted lineage that lists no predecessor, forgets the second program and installs it again. */
  lemma AcceptedMayForget()
    ensures var line := [Installation("a", None, []), Installation("b", Some("a"), []), Installation("c", Some("a"), []),
                         Installation("b", Some("a"), [])];
            Accepted(line) && !Remembers(line[2], "b") && line[3].program == line[1].program
  {
    var line := [Installation("a", None, []), Installation("b", Some("a"), []), Installation("c", Some("a"), []),
                 Installation("b", Some("a"), [])];
    forall i | 0 <= i < |line| - 1
      ensures FollowsPrevious(line[i], line[i + 1])
    {
      assert i == 0 || i == 1 || i == 2;
    }
  }
}
