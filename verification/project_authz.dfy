/** Project authorization: from a caller's claims or app id to the set of projects
    it may touch, and the redaction of a project list to that set. */
module ProjectAuthz {
  import opened Wrappers
  import opened Identity
  import opened Admin

  /** The key of the entitlement claim. */
  const EntitlementClaimKey := "entitlement_group"

  /** The error every unsupported claim shape fails with. */
  const ConvertError := "Failed to convert claim " + EntitlementClaimKey

  /** One AppAuth mapping: an OAuth client and the entitlements it is granted. */
  datatype ClientMapping = ClientMapping(clientID: string, projectSets: seq<string>)

  /** The project-authorization configuration. The keys of `projectSets` are stored
      lower-cased by the configuration loader; `userClaim` is configured but the
      entitlement lookup uses `EntitlementClaimKey`. */
  datatype Config = Config(
    projectSets: map<string, seq<string>>,
    mappings: seq<ClientMapping>,
    userClaim: string)

  // ---------------------------------------------------------------------------
  // Lower-casing of entitlement names (ASCII letters only)

  function LowerChar(c: char): (d: char)
    ensures 'A' <= c <= 'Z' ==> 'a' <= d <= 'z' && d as int == c as int + 32
    ensures !('A' <= c <= 'Z') ==> d == c
  {
    if 'A' <= c <= 'Z' then (c as int - 'A' as int + 'a' as int) as char else c
  }

  function Lower(s: string): (r: string)
    ensures |r| == |s|
    ensures forall i :: 0 <= i < |s| ==> r[i] == LowerChar(s[i])
  {
    if s == [] then [] else [LowerChar(s[0])] + Lower(s[1..])
  }

  // ---------------------------------------------------------------------------
  // Claim normalisation

  /** The strings of an untyped list, in order, or None when some element is not a string. */
  function StringsOf(elems: seq<ClaimValue>): Option<seq<string>>
  {
    if elems == [] then Some([])
    else if !elems[0].Str? then None
    else match StringsOf(elems[1..])
      case None => None
      case Some(rest) => Some([elems[0].s] + rest)
  }

  /** An untyped list converts exactly when every element is a string. */
  lemma {:induction false} StringsOfSucceedsIff(elems: seq<ClaimValue>)
    ensures StringsOf(elems).Some? <==> forall i :: 0 <= i < |elems| ==> elems[i].Str?
  {
    if elems != [] {
      StringsOfSucceedsIff(elems[1..]);
      assert forall i :: 1 <= i < |elems| ==> elems[i] == elems[1..][i - 1];
    }
  }

  /** A converted untyped list has the list's length and keeps its order. */
  lemma {:induction false} StringsOfKeepsOrder(elems: seq<ClaimValue>)
    requires StringsOf(elems).Some?
    ensures |StringsOf(elems).value| == |elems|
    ensures forall i :: 0 <= i < |elems| ==> elems[i].Str? && StringsOf(elems).value[i] == elems[i].s
  {
    if elems != [] {
      StringsOfKeepsOrder(elems[1..]);
      assert forall i :: 1 <= i < |elems| ==> elems[i] == elems[1..][i - 1];
    }
  }

  /** What a claim value normalises to: nil is the empty list, a string a
      one-element list, a typed string list itself, an untyped list its strings when
      all elements are strings; every other shape fails closed. */
  function ConvertedClaim(claim: ClaimValue): Result<seq<string>, string>
  {
    match claim
    case Null => Success([])
    case Str(s) => Success([s])
    case StrList(strs) => Success(strs)
    case AnyList(elems) =>
      if StringsOf(elems).Some? then Success(StringsOf(elems).value) else Failure(ConvertError)
    case _ => Failure(ConvertError)
  }

  /** convertClaimToStringSlice: fills a preallocated slice element by element,
      giving up on the first element that is not a string. */
  method ConvertClaimToStringSlice(claim: ClaimValue) returns (r: Result<seq<string>, string>)
    ensures r == ConvertedClaim(claim)
    ensures r.Success? ==> (claim.Null? ==> r.value == []) && (claim.Str? ==> r.value == [claim.s])
    ensures r.Success? && claim.AnyList? ==>
      |r.value| == |claim.elems| && forall i :: 0 <= i < |claim.elems| ==> claim.elems[i] == Str(r.value[i])
    ensures r.Failure? <==> claim.Num? || claim.Bool? || claim.Obj? ||
                            (claim.AnyList? && exists i :: 0 <= i < |claim.elems| && !claim.elems[i].Str?)
    ensures r.Failure? ==> r.error == ConvertError
  {
    if claim.Null? {
      return Success([]);
    }
    match claim {
      case Str(s) =>
        return Success([s]);
      case StrList(strs) =>
        return Success(strs);
      case AnyList(elems) =>
        var entitlements := new string[|elems|];
        var i := 0;
        while i < |elems|
          invariant 0 <= i <= |elems|
          invariant forall j :: 0 <= j < i ==> elems[j] == Str(entitlements[j])
        {
          match elems[i] {
            case Str(s) =>
              entitlements[i] := s;
            case _ =>
              StringsOfSucceedsIff(elems);
              return Failure(ConvertError);
          }
          i := i + 1;
        }
        StringsOfSucceedsIff(elems);
        StringsOfKeepsOrder(elems);
        assert entitlements[..] == StringsOf(elems).value;
        return Success(entitlements[..]);
      case _ =>
        return Failure(ConvertError);
    }
  }

  /** The claim the entitlements are read from: the top-level claim when it is not
      nil, otherwise the user-info additional claim. */
  function EntitlementClaim(id: IdentityContext): ClaimValue
  {
    var additional := Lookup(id.additionalClaims, EntitlementClaimKey);
    var topLevel := Lookup(id.claims, EntitlementClaimKey);
    if topLevel != Null then topLevel else additional
  }

  /** A non-nil top-level claim wins; the additional claim is consulted only when
      the top-level one is nil or absent. */
  lemma EntitlementClaimPrecedence(id: IdentityContext)
    ensures EntitlementClaimKey in id.claims && id.claims[EntitlementClaimKey] != Null ==>
              EntitlementClaim(id) == id.claims[EntitlementClaimKey]
    ensures EntitlementClaimKey !in id.claims || id.claims[EntitlementClaimKey] == Null ==>
              EntitlementClaim(id) == Lookup(id.additionalClaims, EntitlementClaimKey)
  {
  }

  /** entitlementsFromClaim. */
  method EntitlementsFromClaim(id: IdentityContext) returns (r: Result<seq<string>, string>)
    ensures r == ConvertedClaim(EntitlementClaim(id))
  {
    r := ConvertClaimToStringSlice(EntitlementClaim(id));
  }

  // ---------------------------------------------------------------------------
  // Entitlements to projects

  /** Entitlement `e` grants project `p` under `cfg`. */
  predicate Grants(cfg: Config, e: string, p: string)
  {
    Lower(e) in cfg.projectSets && p in cfg.projectSets[Lower(e)]
  }

  /** The projects one entitlement stands for; an unknown entitlement stands for none. */
  function ProjectSetOf(cfg: Config, e: string): (ps: set<string>)
    ensures forall p :: p in ps <==> Grants(cfg, e, p)
  {
    if Lower(e) in cfg.projectSets then (set p | p in cfg.projectSets[Lower(e)]) else {}
  }

  /** The union of the project sets of the entitlements, accumulated in list order. */
  function ProjectsOf(cfg: Config, ents: seq<string>): set<string>
  {
    if ents == [] then {} else ProjectsOf(cfg, ents[..|ents| - 1]) + ProjectSetOf(cfg, ents[|ents| - 1])
  }

  /** A project is eligible exactly when some entitlement in the list grants it. */
  lemma {:induction false} ProjectsOfMembers(cfg: Config, ents: seq<string>, p: string)
    ensures p in ProjectsOf(cfg, ents) <==> exists e :: e in ents && Grants(cfg, e, p)
  {
    if ents != [] {
      var init := ents[..|ents| - 1];
      ProjectsOfMembers(cfg, init, p);
      assert ents == init + [ents[|ents| - 1]];
      if exists e :: e in ents && Grants(cfg, e, p) {
        var e :| e in ents && Grants(cfg, e, p);
        assert e in init || e == ents[|ents| - 1];
      }
    }
  }

  /** The union distributes over concatenation: the order of entitlements does not matter. */
  lemma {:induction false} ProjectsOfAppend(cfg: Config, a: seq<string>, b: seq<string>)
    ensures ProjectsOf(cfg, a + b) == ProjectsOf(cfg, a) + ProjectsOf(cfg, b)
  {
    if b != [] {
      var bInit := b[..|b| - 1];
      assert (a + b)[..|a + b| - 1] == a + bInit;
      ProjectsOfAppend(cfg, a, bInit);
    } else {
      assert a + b == a;
    }
  }

  /** Entitlements are matched case-insensitively: two lists that agree after
      lower-casing resolve to the same projects. */
  lemma {:induction false} ProjectsOfCaseInsensitive(cfg: Config, a: seq<string>, b: seq<string>)
    requires |a| == |b|
    requires forall i :: 0 <= i < |a| ==> Lower(a[i]) == Lower(b[i])
    ensures ProjectsOf(cfg, a) == ProjectsOf(cfg, b)
  {
    if a != [] {
      ProjectsOfCaseInsensitive(cfg, a[..|a| - 1], b[..|b| - 1]);
    }
  }

  /** Without configured project sets every entitlement list resolves to no project. */
  lemma {:induction false} NoProjectSetsNoProjects(cfg: Config, ents: seq<string>)
    requires cfg.projectSets == map[]
    ensures ProjectsOf(cfg, ents) == {}
  {
    if ents != [] {
      NoProjectSetsNoProjects(cfg, ents[..|ents| - 1]);
    }
  }

  /** projectsByEntitlements: inserts every project of every known entitlement into
      a fresh set. */
  method ProjectsByEntitlements(cfg: Config, ents: seq<string>) returns (projects: set<string>)
    ensures projects == ProjectsOf(cfg, ents)
    ensures forall p :: p in projects <==> exists e :: e in ents && Grants(cfg, e, p)
  {
    projects := {};
    for i := 0 to |ents|
      invariant projects == ProjectsOf(cfg, ents[..i])
    {
      var e := ents[i];
      assert ents[..i + 1][..i] == ents[..i];
      if Lower(e) in cfg.projectSets {
        var projectSet := cfg.projectSets[Lower(e)];
        for j := 0 to |projectSet|
          invariant projects == ProjectsOf(cfg, ents[..i]) + set q | q in projectSet[..j]
        {
          assert projectSet[..j + 1] == projectSet[..j] + [projectSet[j]];
          projects := projects + {projectSet[j]};
        }
        assert projectSet[..|projectSet|] == projectSet;
      }
    }
    assert ents[..|ents|] == ents;
    forall p ensures p in projects <==> exists e :: e in ents && Grants(cfg, e, p) {
      ProjectsOfMembers(cfg, ents, p);
    }
  }

  // ---------------------------------------------------------------------------
  // Identity to eligible projects

  /** The index of the first mapping whose client id is `appID`, if any. */
  function FindMapping(mappings: seq<ClientMapping>, appID: string): (k: Option<nat>)
    ensures k.Some? ==> k.value < |mappings| && mappings[k.value].clientID == appID
    ensures k.Some? ==> forall j :: 0 <= j < k.value ==> mappings[j].clientID != appID
    ensures k.None? ==> forall j :: 0 <= j < |mappings| ==> mappings[j].clientID != appID
  {
    if mappings == [] then None
    else if mappings[0].clientID == appID then Some(0)
    else match FindMapping(mappings[1..], appID)
      case None => None
      case Some(k) => Some(k + 1)
  }

  /** The projects an identity may access: through the first app mapping matching
      its app id, or else through the entitlements in its claims, whose conversion
      error is passed on. */
  function Eligible(cfg: Config, id: IdentityContext): Result<set<string>, string>
  {
    match FindMapping(cfg.mappings, id.appID)
    case Some(k) => Success(ProjectsOf(cfg, cfg.mappings[k].projectSets))
    case None =>
      match ConvertedClaim(EntitlementClaim(id))
      case Failure(err) => Failure(err)
      case Success(ents) => Success(ProjectsOf(cfg, ents))
  }

  /** An app client found in the mappings is resolved without looking at any claim:
      two identities with the same app id get the same answer. */
  lemma AppMappingIgnoresClaims(cfg: Config, id1: IdentityContext, id2: IdentityContext)
    requires id1.appID == id2.appID
    requires FindMapping(cfg.mappings, id1.appID).Some?
    ensures Eligible(cfg, id1) == Eligible(cfg, id2)
    ensures Eligible(cfg, id1).Success?
  {
  }

  /** Every eligible project is granted by an entitlement: one of the first matching
      mapping's, or, when no mapping matches, one taken from the entitlement claim. */
  lemma {:induction false} EligibleIsGranted(cfg: Config, id: IdentityContext, p: string)
    requires Eligible(cfg, id).Success?
    ensures p in Eligible(cfg, id).value <==>
      match FindMapping(cfg.mappings, id.appID)
      case Some(k) => exists e :: e in cfg.mappings[k].projectSets && Grants(cfg, e, p)
      case None => exists e :: e in ConvertedClaim(EntitlementClaim(id)).value && Grants(cfg, e, p)
  {
    match FindMapping(cfg.mappings, id.appID)
    case Some(k) => ProjectsOfMembers(cfg, cfg.mappings[k].projectSets, p);
    case None => ProjectsOfMembers(cfg, ConvertedClaim(EntitlementClaim(id)).value, p);
  }

  /** eligibleProjectsByIdentity: scans the mappings and returns on the first match;
      a human user falls through to the entitlement claim. */
  method EligibleProjectsByIdentity(cfg: Config, id: IdentityContext) returns (r: Result<set<string>, string>)
    ensures r == Eligible(cfg, id)
    ensures r.Failure? ==> FindMapping(cfg.mappings, id.appID).None? && r.error == ConvertError
  {
    for i := 0 to |cfg.mappings|
      invariant forall j :: 0 <= j < i ==> cfg.mappings[j].clientID != id.appID
    {
      var client := cfg.mappings[i];
      if client.clientID == id.appID {
        var projects := ProjectsByEntitlements(cfg, client.projectSets);
        return Success(projects);
      }
    }
    var entitlements := EntitlementsFromClaim(id);
    if entitlements.Failure? {
      return Failure(entitlements.error);
    }
    var projects := ProjectsByEntitlements(cfg, entitlements.value);
    return Success(projects);
  }

  // ---------------------------------------------------------------------------
  // Redacting a project list

  /** The projects of `ps` whose id is eligible, in their original order. */
  function Filtered(ps: seq<Project>, eligible: set<string>): seq<Project>
  {
    if ps == [] then []
    else Filtered(ps[..|ps| - 1], eligible) + (if ps[|ps| - 1].id in eligible then [ps[|ps| - 1]] else [])
  }

  /** A project is kept exactly when it is in the input and its id is eligible. */
  lemma {:induction false} FilteredMembers(ps: seq<Project>, eligible: set<string>, p: Project)
    ensures p in Filtered(ps, eligible) <==> p in ps && p.id in eligible
    ensures |Filtered(ps, eligible)| <= |ps|
  {
    if ps != [] {
      FilteredMembers(ps[..|ps| - 1], eligible, p);
      assert ps == ps[..|ps| - 1] + [ps[|ps| - 1]];
    }
  }

  /** Filtering distributes over concatenation, so the relative order of the kept
      projects is that of the input. */
  lemma {:induction false} FilteredAppend(a: seq<Project>, b: seq<Project>, eligible: set<string>)
    ensures Filtered(a + b, eligible) == Filtered(a, eligible) + Filtered(b, eligible)
  {
    if b == [] {
      assert a + b == a;
    } else {
      var bInit := b[..|b| - 1];
      assert (a + b)[..|a + b| - 1] == a + bInit;
      FilteredAppend(a, bInit, eligible);
    }
  }

  /** A list whose projects are all eligible is left as it is; filtering twice is
      filtering once. */
  lemma {:induction false} FilteredKeepsEligible(ps: seq<Project>, eligible: set<string>)
    ensures (forall i :: 0 <= i < |ps| ==> ps[i].id in eligible) ==> Filtered(ps, eligible) == ps
    ensures Filtered(Filtered(ps, eligible), eligible) == Filtered(ps, eligible)
  {
    if ps != [] {
      var init := ps[..|ps| - 1];
      var last := ps[|ps| - 1];
      FilteredKeepsEligible(init, eligible);
      assert ps == init + [last];
      var tail := if last.id in eligible then [last] else [];
      FilteredAppend(Filtered(init, eligible), tail, eligible);
      assert Filtered(tail, eligible) == tail by {
        if tail != [] { assert tail[..0] == []; }
      }
    }
  }

  /** FilterProjectsByEntitlement: on a resolution error the list is left untouched
      and the error returned; otherwise the list is replaced by its eligible projects. */
  method FilterProjectsByEntitlement(cfg: Config, id: IdentityContext, projects: Projects)
    returns (err: Option<string>)
    modifies projects
    ensures err.Some? <==> Eligible(cfg, id).Failure?
    ensures err.Some? ==> err.value == Eligible(cfg, id).error && projects.projects == old(projects.projects)
    ensures err.None? ==> projects.projects == Filtered(old(projects.projects), Eligible(cfg, id).value)
  {
    var eligibleProjects := EligibleProjectsByIdentity(cfg, id);
    if eligibleProjects.Failure? {
      return Some(eligibleProjects.error);
    }
    var eligible := eligibleProjects.value;
    var filterProjects := [];
    var ps := projects.projects;
    for i := 0 to |ps|
      invariant filterProjects == Filtered(ps[..i], eligible)
    {
      assert ps[..i + 1][..i] == ps[..i];
      if ps[i].id in eligible {
        filterProjects := filterProjects + [ps[i]];
      }
    }
    assert ps[..|ps|] == ps;
    projects.projects := filterProjects;
    return None;
  }
}
