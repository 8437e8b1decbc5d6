/** The per-RPC gates. Each takes the request-scoped context, the request and (for
    the project gate) the full method name, and either hands a context and the
    request on to the next handler or denies the call with a status. */
module Interceptor {
  import opened Wrappers
  import opened Identity
  import opened Admin
  import opened ProjectAuthz
  import opened ProjectId
  import opened GoFormat

  /** The catch-all scope that grants access to every RPC. */
  const ScopeAll := "all"

  datatype Code = Unauthenticated

  datatype Status = Status(code: Code, message: string)

  /** status.Errorf(code, format) given no arguments: the message is the format as
      Go's formatter leaves it, which is the format itself when it holds no `%`. */
  function Errorf(code: Code, format: string): (s: Status)
    ensures s.code == code
    ensures '%' !in format ==> s.message == format
  {
    Status(code, Sprintf(format))
  }

  /** The outcome of a gate: the handler is called with the given context and
      request, or the call is denied and the handler is never called. */
  datatype Decision = CallHandler(ctx: Context, req: Request) | Deny(status: Status)

  const MissingScopeMessage := "authenticated user " + "doesn't have required scope"

  /** The scope denial's message holds no directive, so formatting keeps it. */
  lemma MissingScopeMessageKept()
    ensures Errorf(Unauthenticated, MissingScopeMessage).message == MissingScopeMessage
  {
    assert '%' !in "authenticated user ";
    assert '%' !in "doesn't have required scope";
  }

  /** BlanketAuthorization: an unauthenticated caller passes (authentication is
      enforced elsewhere); an authenticated one needs the catch-all scope. */
  function BlanketAuthorization(ctx: Context, req: Request): (d: Decision)
    ensures d.CallHandler? <==>
      IdentityContextFromContext(ctx).IsEmpty() || ScopeAll in IdentityContextFromContext(ctx).scopes
    ensures d.CallHandler? ==> d.ctx == ctx && d.req == req
    ensures d.Deny? ==> d.status == Status(Unauthenticated, MissingScopeMessage)
  {
    var identityContext := IdentityContextFromContext(ctx);
    if identityContext.IsEmpty() then CallHandler(ctx, req)
    else if ScopeAll !in identityContext.scopes then
      MissingScopeMessageKept();
      Deny(Errorf(Unauthenticated, MissingScopeMessage))
    else CallHandler(ctx, req)
  }

  /** ExecutionUserIdentifierInterceptor: never denies; the handler sees the caller's
      identity with its execution identity set to its user id. */
  function ExecutionUserIdentifierInterceptor(ctx: Context, req: Request): (d: Decision)
    ensures d.CallHandler? && d.req == req
    ensures var before := IdentityContextFromContext(ctx);
            var after := IdentityContextFromContext(d.ctx);
      && after.executionIdentity == before.userID
      && after.(executionIdentity := before.executionIdentity) == before
  {
    var identityContext := IdentityContextFromContext(ctx);
    var derived := identityContext.WithExecutionUserIdentifier(identityContext.userID);
    CallHandler(WithContext(derived), req)
  }

  function AuthorizeErrorMessage(userID: string, err: string): string
  {
    "Failed to authorize user " + userID + " due to error: " + err
  }

  function NotPermittedMessage(userID: string, projectID: string): string
  {
    "User " + userID + " not permitted to access project " + projectID
  }

  /** The project gate proper: a request without a project passes; otherwise the
      caller's eligible projects are resolved and must contain the project. */
  function ProjectGate(cfg: Config, ctx: Context, projectID: string, req: Request): (d: Decision)
    ensures var eligible := Eligible(cfg, IdentityContextFromContext(ctx));
      d.CallHandler? <==> projectID == "" || (eligible.Success? && projectID in eligible.value)
    ensures d.CallHandler? ==> d.ctx == ctx && d.req == req
    ensures var id := IdentityContextFromContext(ctx);
      && (projectID != "" && Eligible(cfg, id).Failure? ==>
            d == Deny(Errorf(Unauthenticated, AuthorizeErrorMessage(id.userID, Eligible(cfg, id).error))))
      && (projectID != "" && Eligible(cfg, id).Success? && projectID !in Eligible(cfg, id).value ==>
            d == Deny(Errorf(Unauthenticated, NotPermittedMessage(id.userID, projectID))))
  {
    if projectID != "" then
      var identityContext := IdentityContextFromContext(ctx);
      match Eligible(cfg, identityContext)
      case Failure(err) => Deny(Errorf(Unauthenticated, AuthorizeErrorMessage(identityContext.userID, err)))
      case Success(projects) =>
        if projectID in projects then CallHandler(ctx, req)
        else Deny(Errorf(Unauthenticated, NotPermittedMessage(identityContext.userID, projectID)))
    else
      CallHandler(ctx, req)
  }

  /** AuthorizationInterceptor: the project gate applied to the project id inferred
      from the method and the request. */
  function AuthorizationInterceptor(cfg: Config, ctx: Context, fullMethod: string, req: Request): (d: Decision)
    ensures var projectID := InferProjectID(fullMethod, req);
            var eligible := Eligible(cfg, IdentityContextFromContext(ctx));
      d.CallHandler? <==> projectID == "" || (eligible.Success? && projectID in eligible.value)
    ensures d.CallHandler? ==> d.ctx == ctx && d.req == req
  {
    ProjectGate(cfg, ctx, InferProjectID(fullMethod, req), req)
  }

  /** The project gate fails closed: a call that names a project reaches the handler
      only when some entitlement of the caller (those of its app mapping, or those
      of its entitlement claim) grants that project in the configuration. */
  lemma AuthorizationRequiresGrant(cfg: Config, ctx: Context, projectID: string, req: Request)
    requires projectID != ""
    requires ProjectGate(cfg, ctx, projectID, req).CallHandler?
    ensures var id := IdentityContextFromContext(ctx);
      match FindMapping(cfg.mappings, id.appID)
      case Some(k) => exists e :: e in cfg.mappings[k].projectSets && Grants(cfg, e, projectID)
      case None =>
        ConvertedClaim(EntitlementClaim(id)).Success? &&
        exists e :: e in ConvertedClaim(EntitlementClaim(id)).value && Grants(cfg, e, projectID)
  {
    EligibleIsGranted(cfg, IdentityContextFromContext(ctx), projectID);
  }

  /** An unsupported claim shape never lets a human caller into a project-scoped RPC. */
  lemma MalformedClaimDenies(cfg: Config, ctx: Context, projectID: string, req: Request)
    requires projectID != ""
    requires FindMapping(cfg.mappings, IdentityContextFromContext(ctx).appID).None?
    requires ConvertedClaim(EntitlementClaim(IdentityContextFromContext(ctx))).Failure?
    ensures ProjectGate(cfg, ctx, projectID, req) ==
      Deny(Errorf(Unauthenticated,
        AuthorizeErrorMessage(IdentityContextFromContext(ctx).userID, ConvertError)))
  {
  }

  /** ListProjects is gated on the text rendering of its request: a request with
      every field at its default passes, and any other one reaches the handler only
      when that rendering (e.g. `limit:10`) is itself an eligible project id. */
  lemma ListProjectsGatedOnRequestText(cfg: Config, ctx: Context, lr: ProjectListRequest)
    ensures var eligible := Eligible(cfg, IdentityContextFromContext(ctx));
      AuthorizationInterceptor(cfg, ctx, FullMethodName(ListProjects), ProjectListMessage(lr)).CallHandler? <==>
        lr == DefaultProjectListRequest ||
        (eligible.Success? && ProjectListText(Some(lr)) in eligible.value)
  {
    ListProjectsUsesTextRendering(lr);
  }

  /** The gate's messages come out of the second formatting pass as written as long
      as the user id, the project id and the error text hold no `%`. */
  lemma PlainIdsKeepMessages(userID: string, projectID: string, err: string)
    requires '%' !in userID && '%' !in projectID && '%' !in err
    ensures Errorf(Unauthenticated, NotPermittedMessage(userID, projectID)).message
      == NotPermittedMessage(userID, projectID)
    ensures Errorf(Unauthenticated, AuthorizeErrorMessage(userID, err)).message
      == AuthorizeErrorMessage(userID, err)
  {
    assert '%' !in "User " && '%' !in " not permitted to access project ";
    assert '%' !in "Failed to authorize user " && '%' !in " due to error: ";
  }

  /** The caller of the project-gate tests: a user whose entitlement claim is the
      typed list ["r1", "r2"]. */
  const ExampleCaller := IdentityContext("", "yeee", "", "", {},
                                         map[EntitlementClaimKey := StrList(["r1", "r2"])], map[])

  lemma ExampleCallerEntitlements(cfg: Config)
    requires cfg.mappings == []
    ensures Eligible(cfg, ExampleCaller) == Success(ProjectsOf(cfg, ["r1", "r2"]))
  {
    assert Lookup(ExampleCaller.claims, EntitlementClaimKey) == StrList(["r1", "r2"]);
  }

  /** A CreateExecution call for project "p1" passes when r1 grants p1. */
  lemma ExampleGrantedProjectPasses(domain: string, name: string)
    ensures var cfg := Config(map["r1" := ["p1"]], [], EntitlementClaimKey);
            var req := ExecutionCreateRequest("p1", domain, name);
      AuthorizationInterceptor(cfg, WithContext(ExampleCaller), FullMethodName(CreateExecution), req)
        == CallHandler(WithContext(ExampleCaller), req)
  {
    var cfg := Config(map["r1" := ["p1"]], [], EntitlementClaimKey);
    CreateExecutionReadsProject("p1", domain, name);
    ExampleCallerEntitlements(cfg);
    assert Grants(cfg, "r1", "p1") by { assert Lower("r1") == "r1"; }
    ProjectsOfMembers(cfg, ["r1", "r2"], "p1");
  }

  /** A CreateExecution call for project "p1" is denied, naming the user and the
      project, when only r3 grants anything. */
  lemma ExampleUngrantedProjectDenied(domain: string, name: string)
    ensures var cfg := Config(map["r3" := ["p3"]], [], EntitlementClaimKey);
            var req := ExecutionCreateRequest("p1", domain, name);
      AuthorizationInterceptor(cfg, WithContext(ExampleCaller), FullMethodName(CreateExecution), req)
        == Deny(Status(Unauthenticated, NotPermittedMessage("yeee", "p1")))
  {
    var cfg := Config(map["r3" := ["p3"]], [], EntitlementClaimKey);
    CreateExecutionReadsProject("p1", domain, name);
    ExampleCallerDeniedP1(cfg);
    PlainIdsKeepMessages("yeee", "p1", "");
  }

  /** A letter verb in the user id is formatted once more: the denial reports a
      missing argument in its place. */
  lemma UserIdVerbReformatted(prefix: string, v: char, projectID: string)
    requires '%' !in prefix && '%' !in projectID
    requires 'a' <= v <= 'z' || 'A' <= v <= 'Z'
    ensures Errorf(Unauthenticated, NotPermittedMessage(prefix + ['%', v], projectID)).message
      == NotPermittedMessage(prefix + Missing(v), projectID)
  {
    var head, tail := "User " + prefix, " not permitted to access project " + projectID;
    assert '%' !in "User " && '%' !in " not permitted to access project ";
    calc {
      Errorf(Unauthenticated, NotPermittedMessage(prefix + ['%', v], projectID)).message;
      Sprintf(NotPermittedMessage(prefix + ['%', v], projectID));
      { Regroup("User ", prefix, ['%', v], " not permitted to access project ", projectID); }
      Sprintf(head + (['%', v] + tail));
      { PlainPrefixCopied(head, ['%', v] + tail); }
      head + Sprintf(['%', v] + tail);
      { MissingArgumentReported(v, tail); }
      head + (Missing(v) + tail);
      { Regroup("User ", prefix, Missing(v), " not permitted to access project ", projectID); }
      NotPermittedMessage(prefix + Missing(v), projectID);
    }
  }

  /** A project id ending in `%.` ends the denial with a `.` verb that has no
      argument: project `p%.` is reported as `p%!.(MISSING)`. */
  lemma ProjectTrailingDotReported(userID: string, prefix: string)
    requires '%' !in userID && '%' !in prefix
    ensures Errorf(Unauthenticated, NotPermittedMessage(userID, prefix + "%.")).message
      == NotPermittedMessage(userID, prefix) + Missing('.')
  {
    var m := NotPermittedMessage(userID, prefix);
    assert '%' !in "User " && '%' !in " not permitted to access project ";
    assert NotPermittedMessage(userID, prefix + "%.") == m + "%.";
    TrailingDotIsVerb(m);
  }

  lemma Regroup(a: string, b: string, c: string, d: string, e: string)
    ensures a + (b + c) + d + e == (a + b) + (c + (d + e))
  {
  }

  /** The denial message passes through the formatter a second time: a user id
      holding `%d` is reported as if it were `u%!d(MISSING)`. */
  lemma ExamplePercentInUserIdReformatted(req: Request)
    ensures var cfg := Config(map["r3" := ["p3"]], [], EntitlementClaimKey);
      ProjectGate(cfg, WithContext(ExampleCaller.(userID := "u%d")), "p1", req)
        == Deny(Status(Unauthenticated, NotPermittedMessage("u%!d(MISSING)", "p1")))
  {
    assert "u" + ['%', 'd'] == "u%d";
    assert "u" + Missing('d') == "u%!d(MISSING)";
    var cfg := Config(map["r3" := ["p3"]], [], EntitlementClaimKey);
    var caller := ExampleCaller.(userID := "u%d");
    assert Eligible(cfg, caller) == Eligible(cfg, ExampleCaller);
    ExampleCallerDeniedP1(cfg);
    UserIdVerbReformatted("u", 'd', "p1");
  }

  lemma ExampleCallerDeniedP1(cfg: Config)
    requires cfg == Config(map["r3" := ["p3"]], [], EntitlementClaimKey)
    ensures Eligible(cfg, ExampleCaller).Success? && "p1" !in Eligible(cfg, ExampleCaller).value
  {
    ExampleCallerEntitlements(cfg);
    assert !Grants(cfg, "r1", "p1") by { assert Lower("r1") == "r1"; }
    assert !Grants(cfg, "r2", "p1") by { assert Lower("r2") == "r2"; }
    ProjectsOfMembers(cfg, ["r1", "r2"], "p1");
  }
}
