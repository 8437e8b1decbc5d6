# flyteadmin authorization, modelled in Dafny

This project models the authorization layer of flyteadmin's gRPC admin service and the token endpoint of its embedded OAuth 2.0 authorization server.

- **Project authorization** (`project_authz.dfy`, module `ProjectAuthz`). An entitlement claim is normalised to a list of entitlement names. The names are matched, lower-cased, against the configured project sets. An app client is resolved through its AppAuth mapping instead. Finally, a project list is redacted to the caller's eligible projects.
- **Project id inference** (`projectid.dfy`, module `ProjectId`). This is the table from full gRPC method names to extractors. Each extractor type-asserts the request and reads the project id it names.
- **Interceptors** (`interceptor.dfy`, module `Interceptor`). These are the three unary gates: the blanket `all`-scope check, the execution-identity injection, and the per-project gate. Each is a pure function from context and request to a `Decision`: call the handler with a context and request, or deny with a status.
- **Status formatting** (`goformat.dfy`, module `GoFormat`). `status.Errorf(code, format)` runs its format through Go's `fmt.Sprintf`. The gates pass no further arguments, so the model is `fmt.Sprintf` with no arguments. It covers flags, `[n]` indexes, widths, `*`, precisions and the numeric cap, and the `%!…` reports for a missing verb, argument, width, precision or index. A `.` starts a precision only when something follows it; a `.` that ends the format is the verb.
- **Token endpoint** (`token.dfy`, module `AuthzServer`). This is the endpoint's control flow, written imperatively. The client id comes from Basic auth for `client_credentials` requests. The grant type must be one of the grant types of sections 4 and 6 of RFC 6749 that the server supports. The granted scopes are reset, then each requested scope is granted with the scope prefix trimmed, and the issuer is granted as audience. Errors are written using the error codes of section 5.2 of RFC 6749. The OAuth 2.0 provider is an oracle: its two decisions are the function fields of a `Provider` value.
- **Shared data** (`identity.dfy`, `admin.dfy`, `wrappers.dfy`). These hold:
  - the caller's `IdentityContext`, its claim values, and the request-scoped context;
  - the admin-service request messages, with the protobuf getters' nil behaviour (a nil message yields the zero value);
  - the `Projects` list object that the filter rewrites in place;
  - the `Option` and `Result` wrappers.

Each loop of the source is a method proved against a specification function:
- `ConvertClaimToStringSlice` against `ConvertedClaim`;
- `ProjectsByEntitlements` against `ProjectsOf`;
- `EligibleProjectsByIdentity` against `Eligible`;
- `FilterProjectsByEntitlement` against `Filtered`;
- `TokenEndpoint` against `TokenOutcome` and `Granted`.

The lemmas state the properties of those functions. The interceptors are stated over the same functions.

Where the code and its description differ, the model follows the code. Three such places:
- A request of the wrong type for ListProjects does not yield an empty project id. That extractor renders the request as text, and a nil `ProjectListRequest` renders as `<nil>`. Every other extractor yields `""` on a type mismatch.
- For ListProjects, only a request with every field at its default yields `""`. Any other request is gated on its text rendering (`ListProjectsGatedOnRequestText`). A listing sorted by name, for instance, is gated as the project `sort_by:{key:"name"}`.
- The project gate builds each denial message with `fmt.Sprintf`. It then passes that message as the *format* of `status.Errorf`, so the message is formatted a second time. A user id or project id holding `%` comes out altered: user `u%d` is reported as `u%!d(MISSING)` (`ExamplePercentInUserIdReformatted`), and project `p%.` as `p%!.(MISSING)` (`ProjectTrailingDotReported`).

Scope granting goes through the provider's append-if-absent. So the granted scopes are the trimmed requested scopes without repeats. They are exactly the trimmed requested scopes, in order, when those are distinct (`GrantedIsTrimmedRequest`).

## Model

| member | source | states |
|---|---|---|
| Identity.Lookup | flyteadmin/auth/project_authz.go:74-77 | A claim lookup yields the stored value, or nil (`Null`) for a missing key |
| Identity.IdentityContext.WithExecutionUserIdentifier | flyteadmin/auth/identity_context_test.go:37-44 | The derived identity has the given execution identity and every other field of the original; emptiness is unchanged |
| Identity.WithExecutionUserIdentifierKeepsOriginal | flyteadmin/auth/identity_context_test.go:37-44 | Deriving an execution identity leaves the original value as it was, and deriving back restores it |
| Identity.IdentityContextFromContext | flyteadmin/auth/interceptor.go:17-20 | A context without an identity reads as the empty identity, with no scopes and no claims |
| Identity.WithContext | flyteadmin/auth/interceptor.go:33-36 | The identity attached to a context is the one read back from it |
| ProjectAuthz.Lower | flyteadmin/auth/project_authz.go:61-64 | Lower-casing keeps the length and lower-cases each character |
| ProjectAuthz.StringsOfSucceedsIff | flyteadmin/auth/project_authz.go:92-102 | An untyped list converts exactly when every element is a string |
| ProjectAuthz.StringsOfKeepsOrder | flyteadmin/auth/project_authz.go:93-97 | A converted untyped list has the list's length and its strings in the same positions |
| ProjectAuthz.ConvertClaimToStringSlice | flyteadmin/auth/project_authz.go:85-108 | nil gives the empty list; a string gives a one-element list; a typed list gives itself; an untyped list gives its strings in order. It fails, with the "Failed to convert claim entitlement_group" error, exactly for other shapes or a non-string element |
| ProjectAuthz.EntitlementClaimPrecedence | flyteadmin/auth/project_authz.go:74-80 | A non-nil top-level entitlement claim wins; otherwise the user-info additional claim is read |
| ProjectAuthz.EntitlementsFromClaim | flyteadmin/auth/project_authz.go:73-83 | The entitlements are the normalisation of the claim chosen by precedence |
| ProjectAuthz.ProjectSetOf | flyteadmin/auth/project_authz.go:64-67 | A project is in an entitlement's set exactly when the lower-cased entitlement is configured with that project; an unknown entitlement gives none |
| ProjectAuthz.ProjectsOfMembers | flyteadmin/auth/project_authz.go:57-71 | A project is eligible exactly when some entitlement in the list grants it |
| ProjectAuthz.ProjectsOfAppend | flyteadmin/auth/project_authz.go:59-69 | The eligible projects of concatenated lists are the union of each list's |
| ProjectAuthz.ProjectsOfCaseInsensitive | flyteadmin/auth/project_authz.go:61-64 | Entitlement lists that agree after lower-casing give the same projects |
| ProjectAuthz.NoProjectSetsNoProjects | flyteadmin/auth/project_authz.go:57-71 | With no configured project sets, every entitlement list gives no project |
| ProjectAuthz.ProjectsByEntitlements | flyteadmin/auth/project_authz.go:57-71 | The loop builds exactly the set of projects granted by some entitlement of the list |
| ProjectAuthz.FindMapping | flyteadmin/auth/project_authz.go:44-48 | The index found is that of the first mapping whose client id is the app id; none is found only when no mapping matches |
| ProjectAuthz.AppMappingIgnoresClaims | flyteadmin/auth/project_authz.go:44-48 | An app client with a mapping is resolved successfully, and independently of any claim |
| ProjectAuthz.EligibleIsGranted | flyteadmin/auth/project_authz.go:40-55 | A project is eligible exactly when an entitlement of the first matching mapping grants it, or, with no mapping, an entitlement from the claim |
| ProjectAuthz.EligibleProjectsByIdentity | flyteadmin/auth/project_authz.go:40-55 | The scan with early return gives the eligible projects; it fails only for a caller without a mapping whose claim does not convert, with the conversion error |
| ProjectAuthz.FilteredMembers | flyteadmin/auth/project_authz.go:28-34 | A project is kept exactly when it is in the list and its id is eligible; the list does not grow |
| ProjectAuthz.FilteredAppend | flyteadmin/auth/project_authz.go:30-34 | Filtering distributes over concatenation, so kept projects keep their relative order |
| ProjectAuthz.FilteredKeepsEligible | flyteadmin/auth/project_authz.go:28-35 | A fully eligible list is unchanged, and filtering is idempotent |
| ProjectAuthz.FilterProjectsByEntitlement | flyteadmin/auth/project_authz.go:21-38 | On a resolution error the list is untouched and the error returned; otherwise the list becomes its eligible projects, in order |
| ProjectId.ProjectListText | flyteadmin/auth/projectid.go:130-133 | A nil request renders as `<nil>`; a request renders as `""` exactly when every field (limit, token, filters and sort_by) is at its default |
| ProjectId.SortText | flyteadmin/auth/projectid.go:130-133 | A set sort_by message renders its entries as `""` exactly when its key is empty and its direction is the default |
| ProjectId.Join | flyteadmin/auth/projectid.go:130-133 | Joining non-empty parts gives `""` exactly when there are no parts |
| ProjectId.InferProjectID | flyteadmin/auth/projectid.go:228-234 | A method name without a table entry yields `""`; the full method name of any registered RPC yields that RPC's extractor applied to the request |
| ProjectId.MethodsFindsEveryRpc | flyteadmin/auth/projectid.go:9-226 | The full method name of each of the 52 registered RPCs is a key of the table, and it finds that RPC |
| ProjectId.Methods | flyteadmin/auth/projectid.go:9-226 | Only names under the admin service's `/flyteidl.service.AdminService/` prefix are keys of the table |
| ProjectId.Extract | flyteadmin/auth/projectid.go:9-226 | A request of the wrong type for its RPC is no fault: it yields `""`, except for ListProjects, where it yields `<nil>` |
| ProjectId.ListMatchableAttributesPassesThrough | flyteadmin/auth/projectid.go:194-197 | ListMatchableAttributes has no entry and yields `""` for every request |
| ProjectId.GetVersionPassesThrough | flyteadmin/auth/projectid.go:210-213 | GetVersion has no entry and yields `""` for every request |
| ProjectId.CreateExecutionReadsProject | flyteadmin/auth/projectid.go:70-73 | Looked up by its full method name, CreateExecution yields the request's project field |
| ProjectId.NodeExecutionReadsExecutionId | flyteadmin/auth/projectid.go:102-109 | GetNodeExecution and GetDynamicNodeWorkflow read the project of the nested execution id; a nil id at either level yields `""` |
| ProjectId.NodeExecutionDataReadsExecutionId | flyteadmin/auth/projectid.go:118-121 | GetNodeExecutionData and ListTaskExecutions read the project of the nested execution id, or `""` |
| ProjectId.TaskExecutionReadsTaskId | flyteadmin/auth/projectid.go:114-117 | Task-execution RPCs and ListNodeExecutionsForTask read the project of the nested task id, or `""` |
| ProjectId.ListProjectsUsesTextRendering | flyteadmin/auth/projectid.go:130-133 | ListProjects yields the request's text rendering, which is `""` exactly for a request with every field, sort_by included, at its default |
| ProjectId.SortedListingRendersSortBy | flyteadmin/auth/projectid.go:130-133 | A listing sorted by name yields `sort_by:{key:"name"}` as its project id |
| ProjectId.EventMethodsYieldRequestId | flyteadmin/auth/projectid.go:134-145 | The three event-creation RPCs yield the request id |
| Interceptor.Errorf | flyteadmin/auth/interceptor.go:57 | A status made from a format has the given code, and a format without `%` is its own message |
| Interceptor.BlanketAuthorization | flyteadmin/auth/interceptor.go:14-28 | The handler is called, with context and request unchanged, exactly when the caller is unauthenticated or holds the `all` scope; otherwise Unauthenticated with the missing-scope message |
| Interceptor.ExecutionUserIdentifierInterceptor | flyteadmin/auth/interceptor.go:30-37 | The handler is always called, with the request unchanged and an identity whose execution identity is the user id and which otherwise equals the caller's |
| Interceptor.ProjectGate | flyteadmin/auth/interceptor.go:42-58 | The handler is called, unchanged, exactly when the project id is empty or among the caller's eligible projects. A resolution error and a missing project are each denied with their own message, formatted a second time as a `status.Errorf` format |
| Interceptor.AuthorizationInterceptor | flyteadmin/auth/interceptor.go:39-60 | The handler is called, unchanged, exactly when the project id inferred from the method and request is empty or eligible |
| Interceptor.AuthorizationRequiresGrant | flyteadmin/auth/interceptor.go:42-53 | A call naming a project reaches the handler only when an entitlement of the caller's mapping, or of its claim, grants that project |
| Interceptor.MalformedClaimDenies | flyteadmin/auth/interceptor.go:44-48 | A human caller whose entitlement claim does not convert is denied every project-scoped call, with the conversion error in the message |
| Interceptor.PlainIdsKeepMessages | flyteadmin/auth/interceptor.go:46-57 | When the user id, the project id and the error text hold no `%`, both denial messages come out exactly as built |
| Interceptor.UserIdVerbReformatted | flyteadmin/auth/interceptor.go:55-57 | A user id ending in `%` and a letter verb is reported with `%!v(MISSING)` in place of that verb |
| Interceptor.ListProjectsGatedOnRequestText | flyteadmin/auth/projectid.go:130-133 | A ListProjects call passes exactly when its request is at its defaults or its text rendering is an eligible project id |
| Interceptor.ExampleCallerEntitlements | flyteadmin/auth/interceptor_test.go:91-98 | A caller whose claim is the typed list [r1, r2], with no mappings, is eligible for the projects of r1 and r2 |
| Interceptor.ExampleGrantedProjectPasses | flyteadmin/auth/interceptor_test.go:100-115 | With r1 granting p1, that caller's CreateExecution call for project p1 reaches the handler |
| Interceptor.ExampleUngrantedProjectDenied | flyteadmin/auth/interceptor_test.go:117-133 | With only r3 granting p3, that caller's CreateExecution call for project p1 is denied with "User yeee not permitted to access project p1" |
| Interceptor.ExamplePercentInUserIdReformatted | flyteadmin/auth/interceptor.go:55-57 | A caller with user id `u%d` who is denied p1 gets the message for user `u%!d(MISSING)` |
| Interceptor.ProjectTrailingDotReported | flyteadmin/auth/interceptor.go:55-57 | A project id ending in `%.` ends the denial message with `%!.(MISSING)` in their place: project `p%.` is reported as `p%!.(MISSING)` |
| GoFormat.Sprintf | flyteadmin/auth/interceptor.go:57 | A format with no `%` is formatted to itself |
| GoFormat.PlainPrefixCopied | flyteadmin/auth/interceptor.go:57 | Text before the first `%` is copied unchanged |
| GoFormat.PercentEscaped | flyteadmin/auth/interceptor.go:57 | `%%` is formatted as a single `%` |
| GoFormat.MissingArgumentReported | flyteadmin/auth/interceptor.go:57 | A letter verb with no argument is formatted as `%!v(MISSING)` |
| GoFormat.TrailingPercentHasNoVerb | flyteadmin/auth/interceptor.go:57 | A `%` at the end of the format is formatted as `%!(NOVERB)` |
| GoFormat.TrailingDotIsVerb | flyteadmin/auth/interceptor.go:57 | A `.` at the end of the format is the verb, not a precision: `%.` is formatted as `%!.(MISSING)` |
| AuthzServer.FormValue | flyteadmin/auth/authzserver/token.go:38 | A form field reads as its first value, or `""` when absent |
| AuthzServer.ClientIdFor | flyteadmin/auth/authzserver/token.go:30-42 | The client id is the Basic-auth user name when the grant type is client_credentials and Basic auth is present; otherwise `""` |
| AuthzServer.TrimPrefix | flyteadmin/auth/authzserver/token.go:70 | The trimmed scope plus the prefix is the scope when the scope starts with the prefix; otherwise the scope is unchanged |
| AuthzServer.TrimPrefixRoundTrip | flyteadmin/auth/authzserver/token.go:70 | Trimming the prefix from prefix + s gives back s |
| AuthzServer.AppendAbsent | flyteadmin/auth/authzserver/token.go:70-74 | Granting adds the value, keeps every earlier grant in order, and adds at most one entry |
| AuthzServer.GrantedMembers | flyteadmin/auth/authzserver/token.go:67-71 | A scope is granted exactly when it is some requested scope with the prefix trimmed |
| AuthzServer.GrantedNoDuplicates | flyteadmin/auth/authzserver/token.go:68-71 | No scope is granted twice |
| AuthzServer.GrantedIsTrimmedRequest | flyteadmin/auth/authzserver/token.go:67-71 | When the trimmed requested scopes are distinct, the granted scopes are exactly those, in request order |
| AuthzServer.TokenOutcome | flyteadmin/auth/authzserver/token.go:44-91 | An issued token's request has the trimmed requested scopes as its granted scopes and the issuer among its audience |
| AuthzServer.TokenIssuedIff | flyteadmin/auth/authzserver/token.go:44-91 | A response is written exactly when the provider accepts, the request has the expected type, a grant type is supported and the provider builds a response. The issued request holds the trimmed scopes, the issuer audience, and the original grant types and requested scopes |
| AuthzServer.ErrorsAreSurfaced | flyteadmin/auth/authzserver/token.go:48-88 | A provider rejection is written as is; the wrong request type gives invalid_request; an unsupported grant type gives unsupported_grant_type; a response-building failure is written as is |
| AuthzServer.UnsupportedGrantNeverReachesResponse | flyteadmin/auth/authzserver/token.go:66-78 | Without a supported grant type the outcome is unsupported_grant_type, whatever the provider's response builder does |
| AuthzServer.FormErrorIgnored | flyteadmin/auth/authzserver/token.go:33-36 | A form-decoding error changes nothing the endpoint itself decides |
| AuthzServer.AccessRequest.constructor | flyteadmin/auth/authzserver/token.go:55-60 | The access request object holds the state the provider returned |
| AuthzServer.AccessRequest.GrantScope | flyteadmin/auth/authzserver/token.go:70 | Granting a scope appends it unless already granted, and changes nothing else |
| AuthzServer.AccessRequest.GrantAudience | flyteadmin/auth/authzserver/token.go:73-74 | Granting the audience appends it unless already granted, and changes nothing else |
| AuthzServer.ResponseWriter.Write | flyteadmin/auth/authzserver/token.go:48-91 | A write is appended to what the response holds |
| AuthzServer.TokenEndpoint | flyteadmin/auth/authzserver/token.go:24-94 | Exactly one write is appended to the response, and it is the outcome `TokenOutcome` describes (the scope loop is proved against `Granted`) |

## Left out

- Logging (`logger.Debugf`, `logger.Infof`, `logger.Errorf`) is left out. The gRPC status plumbing is reduced to a code and a message, and the handler's own result is not modelled.
- On a denial, `AuthorizationInterceptor` also returns the context as its response value. gRPC discards that value when an error is returned, so `Decision.Deny` carries only the status.
- The configuration accessor `getAuthConfigFunc` is replaced by an explicit `Config` parameter. The `Config.userClaim` field is carried but never read, as in the source.
- `entitlementClaimKey` (`entitlement_group`), `ScopeAll` (`all`), `requestedScopePrefix` and `GetIssuer` are defined in files that are not part of this model. The first two are constants here, with the values the tests use. The prefix and the issuer are parameters of `TokenEndpoint`.
- ProjectAuthz.Lower: `strings.ToLower` is modelled for ASCII letters only; Unicode case mapping is not modelled.
- ProjectId.ProjectListText: protobuf-go's text format is modelled as `name:value` entries separated by single spaces, with a set message field as `name:{…}`. The library may insert other whitespace, and it escapes special characters in strings; neither is modelled. The property proved is only which requests render as `""` and that nil renders as `<nil>`.
- ProjectId.ProjectListText: `ProjectListRequest` carries `limit`, `token`, `filters` and `sort_by`. Later flyteidl releases add an `org` field, which would also be rendered. The flyteidl version the fork builds against is not part of this model, so `org` is not modelled.
- The admin-service messages keep only the fields the extractors read. The exception is `ProjectListRequest`, which ListProjects renders whole.
- The full method names are generated constants of flyteidl, which is not part of this model. They are written as `/flyteidl.service.AdminService/` followed by the RPC name.
- ProjectId.Methods: that a method name finds only the RPC it names (the converse of `MethodsFindsEveryRpc`) is not proved. The lookup's definition shows it, but the proof compares each name with 52 literals and does not fit the verifier's resource limit.
- ProjectAuthz.FilterProjectsByEntitlement: a nil `*admin.Projects`, or a nil element in its list, makes the source dereference nil and panic (project_authz.go:30-31). The model rules both out: `Projects` is a non-null object and `Project` is a value.
- GoFormat.Sprintf: the format is read as Unicode characters rather than bytes, so invalid UTF-8 in an id is not modelled.
- Identity.IdentityContext.IsEmpty: defined as an empty user id and an empty app id, the identity's documented meaning. identity_context.go, which holds the method itself, is not part of this model; if it compares further fields with their zero values, the blanket gate treats some identities differently from the model.
- `IdentityContext` keeps only the fields the core reads. Its constructor and the context-key machinery live in files that are not part of this model.
- The OAuth 2.0 provider (fosite) is an oracle:
  - `NewAccessRequest` and `NewAccessResponse` are function fields of `Provider`;
  - `WriteAccessError` and `WriteAccessResponse` append a `Written` value;
  - JWT signing, key sets, token expiry and HTTP status codes are not modelled.
  - Its argument comparisons (`HasOneOf`, the append-if-absent of `GrantScope` and `GrantAudience`) are modelled as exact string equality.
- The Go type assertion of the access request to `*fosite.AccessRequest` is the boolean `isFositeRequest` of the provider's result.
- `req.ParseForm` is reduced to the already-decoded form and a flag telling whether decoding reported an error.
- The `ctx` passed to the provider and to `GetIssuer` carries nothing the endpoint reads, and is left out.
