/**
  The preview check of a deployment: which resources a stage of the upgrade may touch.
  Resource identifiers are compared without regard to case.
 */
module UpgradeWhatIf {
  import opened Wrappers

  /** Case folding of the ASCII letters, which are the only cased characters of a resource identifier. */
  function Fold(c: char): char {
    if 'A' <= c <= 'Z' then c - 'A' + 'a' else c
  }

  function Casefold(text: string): (folded: string)
    ensures |folded| == |text|
    ensures forall i | 0 <= i < |text| :: folded[i] == Fold(text[i])
  {
    seq(|text|, i requires 0 <= i < |text| => Fold(text[i]))
  }

  datatype Stage = Prepare | Promote

  datatype Change = Change(changeType: string, resourceId: string)

  function AllowedResources(api: string, stage: Stage, revision: string): set<string> {
    var candidate := Casefold(api) + ";rev=" + Casefold(revision);
    match stage
    case Prepare =>
      {candidate,
       candidate + "/policies/policy",
       candidate + "/operations/images-generations",
       candidate + "/operations/images-generations/policies/policy"}
    case Promote => {Casefold(api) + "/releases/infrastructure-" + Casefold(revision)}
  }

  predicate Ignored(change: Change) {
    change.changeType in {"Ignore", "NoChange"}
  }

  /** Equal but for the case of ASCII letters. */
  predicate FoldsAlike(a: string, b: string) {
    |a| == |b| && forall i | 0 <= i < |a| ::
      || a[i] == b[i]
      || (a[i] as int + 32 == b[i] as int && 97 <= b[i] as int <= 122)
      || (b[i] as int + 32 == a[i] as int && 97 <= a[i] as int <= 122)
  }

  lemma FoldedAlike(a: string, b: string)
    ensures Casefold(a) == Casefold(b) <==> FoldsAlike(a, b)
  {
    if |a| == |b| {
      forall i | 0 <= i < |a|
        ensures Fold(a[i]) == Fold(b[i])
                <==> || a[i] == b[i]
                     || (a[i] as int + 32 == b[i] as int && 97 <= b[i] as int <= 122)
                     || (b[i] as int + 32 == a[i] as int && 97 <= a[i] as int <= 122)
      {
        FoldedChar(a[i], b[i]);
      }
      if FoldsAlike(a, b) {
        assert Casefold(a) == Casefold(b);
      } else {
        var i :| 0 <= i < |a| && Fold(a[i]) != Fold(b[i]);
        assert Casefold(a)[i] != Casefold(b)[i];
      }
    }
  }

  lemma FoldedChar(a: char, b: char)
    ensures Fold(a) == Fold(b)
            <==> || a == b
                 || (a as int + 32 == b as int && 97 <= b as int <= 122)
                 || (b as int + 32 == a as int && 97 <= a as int <= 122)
  {
    assert 'A' as int == 65 && 'Z' as int == 90 && 'a' as int == 97;
    assert Fold(a) as int == if 65 <= a as int <= 90 then a as int + 32 else a as int;
    assert Fold(b) as int == if 65 <= b as int <= 90 then b as int + 32 else b as int;
  }

  /** What a stage may touch: of the candidate the revision, its policy, and the image operation with its policy; or the release. */
  predicate MayTouch(id: string, api: string, stage: Stage, revision: string) {
    match stage
    case Prepare =>
      || FoldsAlike(id, api + ";rev=" + revision)
      || FoldsAlike(id, api + ";rev=" + revision + "/policies/policy")
      || FoldsAlike(id, api + ";rev=" + revision + "/operations/images-generations")
      || FoldsAlike(id, api + ";rev=" + revision + "/operations/images-generations/policies/policy")
    case Promote => FoldsAlike(id, api + "/releases/infrastructure-" + revision)
  }

  /** No change at all, or the creation or modification of something that the stage may touch. */
  predicate Acceptable(change: Change, api: string, stage: Stage, revision: string) {
    || change.changeType == "Ignore" || change.changeType == "NoChange"
    || ((change.changeType == "Create" || change.changeType == "Modify") && MayTouch(change.resourceId, api, stage, revision))
  }

  lemma TouchesAllowed(id: string, api: string, stage: Stage, revision: string)
    ensures Casefold(id) in AllowedResources(api, stage, revision) <==> MayTouch(id, api, stage, revision)
  {
    hide FoldsAlike;
    match stage
    case Prepare =>
      CandidateResources(api, revision);
      assert api + ";rev=" + revision + "" == api + ";rev=" + revision;
      FoldedAlike(id, api + ";rev=" + revision);
      FoldedAlike(id, api + ";rev=" + revision + "/policies/policy");
      FoldedAlike(id, api + ";rev=" + revision + "/operations/images-generations");
      FoldedAlike(id, api + ";rev=" + revision + "/operations/images-generations/policies/policy");
    case Promote =>
      ReleaseResource(api, revision);
      FoldedAlike(id, api + "/releases/infrastructure-" + revision);
  }

  lemma ReleaseResource(api: string, revision: string)
    ensures AllowedResources(api, Promote, revision) == {Casefold(api + "/releases/infrastructure-" + revision)}
  {
    CasefoldConcat(api + "/releases/infrastructure-", revision);
    CasefoldConcat(api, "/releases/infrastructure-");
    assert Casefold("/releases/infrastructure-") == "/releases/infrastructure-";
  }

  lemma ApprovedAreAcceptable(changes: seq<Change>, api: string, stage: Stage, revision: string)
    ensures Approved(changes, api, stage, revision)
            <==> forall change | change in changes :: Acceptable(change, api, stage, revision)
  {
    hide AllowedResources, MayTouch, Casefold;
    forall change | change in changes
      ensures !Ignored(change) ==>
                (change.changeType in {"Create", "Modify"} && Casefold(change.resourceId) in AllowedResources(api, stage, revision)
                 <==> Acceptable(change, api, stage, revision))
      ensures Ignored(change) ==> Acceptable(change, api, stage, revision)
    {
      TouchesAllowed(change.resourceId, api, stage, revision);
    }
  }

  /** The loop over the previewed changes; a preview without a list of changes is refused. */
  method ValidateUpgradeWhatIf(changes: Option<seq<Change>>, api: string, stage: Stage, revision: string)
    returns (accepted: bool)
    ensures accepted <==> changes.Some? && Approved(changes.value, api, stage, revision)
    ensures accepted <==> changes.Some? && forall change | change in changes.value :: Acceptable(change, api, stage, revision)
  {
    hide AllowedResources, Acceptable, Casefold;
    if changes.Some? {
      ApprovedAreAcceptable(changes.value, api, stage, revision);
    }
    if changes.None? {
      return false;
    }
    for i := 0 to |changes.value|
      invariant Approved(changes.value[..i], api, stage, revision)
    {
      var change := changes.value[i];
      if !Ignored(change) {
        var resource := Casefold(change.resourceId);
        if change.changeType !in {"Create", "Modify"} || resource !in AllowedResources(api, stage, revision) {
          assert change in changes.value;
          return false;
        }
      }
    }
    assert changes.value[..|changes.value|] == changes.value;
    return true;
  }

  predicate Approved(changes: seq<Change>, api: string, stage: Stage, revision: string) {
    forall change | change in changes && !Ignored(change) ::
      && change.changeType in {"Create", "Modify"}
      && Casefold(change.resourceId) in AllowedResources(api, stage, revision)
  }

  /** A deployment changes no resource that its preview did not name. */
  ghost predicate Deploys(changes: seq<Change>, before: map<string, string>, after: map<string, string>) {
    forall id | !(id in before && id in after && before[id] == after[id]) && (id in before || id in after) ::
      exists change :: change in changes && change.changeType !in {"Ignore", "NoChange"} && Casefold(change.resourceId) == id
  }

  /** A resource of one revision: the revision itself or something below it. */
  function RevisionResource(api: string, revision: string, below: string): string {
    Casefold(api + ";rev=" + revision + below)
  }

  predicate Below(suffix: string) {
    suffix == "" || suffix[0] == '/'
  }

  lemma CasefoldConcat(a: string, b: string)
    ensures Casefold(a + b) == Casefold(a) + Casefold(b)
  {
  }

  function FirstSlash(text: string): nat {
    if text == "" || text[0] == '/' then 0 else 1 + FirstSlash(text[1..])
  }

  lemma {:induction false} FirstSlashEndsName(name: string, suffix: string)
    requires '/' !in name && Below(suffix)
    ensures FirstSlash(name + suffix) == |name|
  {
    if name == "" {
      assert name + suffix == suffix;
    } else {
      assert (name + suffix)[1..] == name[1..] + suffix;
      FirstSlashEndsName(name[1..], suffix);
    }
  }

  /** Revision names have no slash, so the resources of two revisions only meet where the names fold alike. */
  lemma RevisionResourcesAreDisjoint(api: string, a: string, b: string, x: string, y: string)
    requires '/' !in a && '/' !in b && Below(x) && Below(y)
    requires RevisionResource(api, a, x) == RevisionResource(api, b, y)
    ensures Casefold(a) == Casefold(b)
  {
    CasefoldConcat(api + ";rev=" + a, x);
    CasefoldConcat(api + ";rev=", a);
    CasefoldConcat(api + ";rev=" + b, y);
    CasefoldConcat(api + ";rev=", b);
    var prefix := Casefold(api + ";rev=");
    var left, right := Casefold(a) + Casefold(x), Casefold(b) + Casefold(y);
    assert prefix + left == RevisionResource(api, a, x) && prefix + right == RevisionResource(api, b, y);
    assert left == (prefix + left)[|prefix|..] == right;
    FirstSlashEndsName(Casefold(a), Casefold(x));
    FirstSlashEndsName(Casefold(b), Casefold(y));
    assert Casefold(a) == left[..|a|] && Casefold(b) == right[..|b|];
  }

  /**
    Whatever an approved preparation deploys, every resource of the source revision stays as
    it was, exactly when the two revision names differ by more than case.
   */
  lemma PreparationKeepsSource(api: string, source: string, revision: string)
    requires '/' !in source && '/' !in revision
    ensures Casefold(source) != Casefold(revision) <==>
            forall changes, before, after, below ::
              Approved(changes, api, Prepare, revision) && Deploys(changes, before, after) && Below(below)
              ==> Kept(before, after, RevisionResource(api, source, below))
  {
    if Casefold(source) != Casefold(revision) {
      forall changes, before, after, below
        | Approved(changes, api, Prepare, revision) && Deploys(changes, before, after) && Below(below)
        ensures Kept(before, after, RevisionResource(api, source, below))
      {
        SourceResourceKept(api, source, revision, changes, before, after, below);
      }
    } else {
      var changes, before, after := SourceResourceLost(api, source, revision);
      assert !Kept(before, after, RevisionResource(api, source, ""));
    }
  }

  /**
    A change that the check lets through and that hits a source whose name folds like the candidate's. Planning
    names the candidate by a digest of the source, so only a plan made by hand comes with such a pair of names.
   */
  lemma SourceResourceLost(api: string, source: string, revision: string)
    returns (changes: seq<Change>, before: map<string, string>, after: map<string, string>)
    requires Casefold(source) == Casefold(revision)
    ensures Approved(changes, api, Prepare, revision) && Deploys(changes, before, after) && Below("")
    ensures !Kept(before, after, RevisionResource(api, source, ""))
  {
    var id := RevisionResource(api, source, "");
    CandidateResources(api, revision);
    CandidateResource(api, source, "");
    CandidateResource(api, revision, "");
    assert api + ";rev=" + revision + "" == api + ";rev=" + revision;
    changes := [Change("Modify", api + ";rev=" + revision)];
    before, after := map[id := "old"], map[id := "new"];
    assert changes[0] in changes;
  }

  predicate Kept(before: map<string, string>, after: map<string, string>, id: string) {
    if id in before then id in after && after[id] == before[id] else id !in after
  }

  lemma CandidateResources(api: string, revision: string)
    ensures AllowedResources(api, Prepare, revision)
            == {RevisionResource(api, revision, ""),
                RevisionResource(api, revision, "/policies/policy"),
                RevisionResource(api, revision, "/operations/images-generations"),
                RevisionResource(api, revision, "/operations/images-generations/policies/policy")}
  {
    CandidateResource(api, revision, "");
    assert Casefold(api) + ";rev=" + Casefold(revision) + "" == Casefold(api) + ";rev=" + Casefold(revision);
    CandidateResource(api, revision, "/policies/policy");
    CandidateResource(api, revision, "/operations/images-generations");
    CandidateResource(api, revision, "/operations/images-generations/policies/policy");
  }

  lemma CandidateResource(api: string, revision: string, below: string)
    requires forall c | c in below :: Fold(c) == c
    ensures RevisionResource(api, revision, below) == Casefold(api) + ";rev=" + Casefold(revision) + below
  {
    CasefoldConcat(api + ";rev=" + revision, below);
    CasefoldConcat(api + ";rev=", revision);
    CasefoldConcat(api, ";rev=");
    assert Casefold(below) == below;
    assert Casefold(";rev=") == ";rev=";
  }

  lemma SourceResourceKept(api: string, source: string, revision: string, changes: seq<Change>,
                           before: map<string, string>, after: map<string, string>, below: string)
    requires '/' !in source && '/' !in revision && Casefold(source) != Casefold(revision)
    requires Approved(changes, api, Prepare, revision) && Deploys(changes, before, after) && Below(below)
    ensures Kept(before, after, RevisionResource(api, source, below))
  {
    var id := RevisionResource(api, source, below);
    CandidateResources(api, revision);
    if id in AllowedResources(api, Prepare, revision) {
      assert Below("/policies/policy") && Below("/operations/images-generations");
      assert Below("/operations/images-generations/policies/policy");
      var suffix :=
        if id == RevisionResource(api, revision, "") then ""
        else if id == RevisionResource(api, revision, "/policies/policy") then "/policies/policy"
        else if id == RevisionResource(api, revision, "/operations/images-generations") then
          "/operations/images-generations"
        else "/operations/images-generations/policies/policy";
      RevisionResourcesAreDisjoint(api, source, revision, below, suffix);
    }
  }

  /** An approved promotion touches no resource of any revision. */
  lemma PromotionKeepsRevisions(api: string, revision: string, name: string, below: string, changes: seq<Change>,
                                before: map<string, string>, after: map<string, string>)
    requires Approved(changes, api, Promote, revision) && Deploys(changes, before, after)
    ensures Kept(before, after, RevisionResource(api, name, below))
  {
    var id := RevisionResource(api, name, below);
    CasefoldConcat(api + ";rev=" + name, below);
    CasefoldConcat(api + ";rev=", name);
    CasefoldConcat(api, ";rev=");
    assert Casefold(";rev=") == ";rev=";
    ReleaseResource(api, revision);
    CasefoldConcat(api + "/releases/infrastructure-", revision);
    CasefoldConcat(api, "/releases/infrastructure-");
    assert Casefold("/releases/infrastructure-") == "/releases/infrastructure-";
    assert id[|api|] == ';' && Casefold(api + "/releases/infrastructure-" + revision)[|api|] == '/';
  }
}
