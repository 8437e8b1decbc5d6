/** The OAuth 2.0 token endpoint of the embedded authorization server. The OAuth 2.0
    provider it drives is an oracle: its two decisions (validating an access
    request, building an access response) are functions supplied by the caller;
    the endpoint's own control flow, scope granting and error paths are modelled. */
module AuthzServer {
  import opened Wrappers

  /** The grant types (sections 4 and 6 of RFC 6749) for which the endpoint grants scopes
      and an audience. */
  const SupportedGrantTypes := ["client_credentials", "refresh_token", "authorization_code"]

  /** An OAuth 2.0 error, identified by its error code (section 5.2 of RFC 6749). */
  datatype OAuthError = OAuthError(code: string)

  const ErrInvalidRequest := OAuthError("invalid_request")
  const ErrUnsupportedGrantType := OAuthError("unsupported_grant_type")

  /** The parts of an HTTP request the endpoint reads: the decoded form values, the
      Basic-auth credentials if the request carries them, and whether decoding the
      form reported an error. */
  datatype HttpRequest = HttpRequest(
    form: map<string, seq<string>>,
    basicAuth: Option<(string, string)>,
    formError: bool)

  /** The first value of a form field, or "" when the field is absent. */
  function FormValue(req: HttpRequest, key: string): (v: string)
    ensures key !in req.form || req.form[key] == [] ==> v == ""
    ensures key in req.form && req.form[key] != [] ==> v == req.form[key][0]
  {
    if key in req.form && |req.form[key]| > 0 then req.form[key][0] else ""
  }

  /** The empty session handed to the provider; it carries only the client id that
      the issued token is associated with. */
  datatype Session = Session(clientID: string)

  /** The state of a validated access request, as the provider hands it back. */
  datatype AccessRequestData = AccessRequestData(
    isFositeRequest: bool,
    grantTypes: seq<string>,
    requestedScopes: seq<string>,
    grantedScope: seq<string>,
    grantedAudience: seq<string>)

  datatype TokenResponse = TokenResponse(accessToken: string, tokenType: string)

  /** The provider's two decisions, left abstract. */
  datatype Provider = Provider(
    newAccessRequest: (HttpRequest, Session) -> Result<AccessRequestData, OAuthError>,
    newAccessResponse: AccessRequestData -> Result<TokenResponse, OAuthError>)

  /** What the endpoint writes to the HTTP response. */
  datatype Written =
    | AccessError(err: OAuthError)
    | AccessResponse(request: AccessRequestData, response: TokenResponse)

  /** strings.TrimPrefix: `s` without the leading `prefix`, or `s` unchanged when it
      does not start with `prefix`. */
  function TrimPrefix(s: string, prefix: string): (r: string)
    ensures prefix <= s ==> prefix + r == s
    ensures !(prefix <= s) ==> r == s
  {
    if prefix <= s then s[|prefix|..] else s
  }

  lemma TrimPrefixRoundTrip(prefix: string, s: string)
    ensures TrimPrefix(prefix + s, prefix) == s
  {
    assert prefix <= prefix + s;
  }

  /** Appending to a list of OAuth arguments: the value is added at the end unless
      it is already present. */
  function AppendAbsent(args: seq<string>, x: string): (r: seq<string>)
    ensures x in r && forall y :: y in r <==> y in args || y == x
    ensures args <= r && |r| <= |args| + 1
  {
    if x in args then args else args + [x]
  }

  /** Some supported grant type is among `grantTypes`. */
  predicate HasOneOf(grantTypes: seq<string>, items: seq<string>)
  {
    exists g :: g in items && g in grantTypes
  }

  /** The client id: the Basic-auth user name of a client_credentials request, "" for
      any other request. */
  function ClientIdFor(req: HttpRequest): (clientID: string)
    ensures clientID != "" ==> FormValue(req, "grant_type") == "client_credentials" &&
                               req.basicAuth.Some? && req.basicAuth.value.0 == clientID
    ensures FormValue(req, "grant_type") == "client_credentials" && req.basicAuth.Some? ==>
              clientID == req.basicAuth.value.0
  {
    if FormValue(req, "grant_type") == "client_credentials" && req.basicAuth.Some? then
      req.basicAuth.value.0
    else ""
  }

  /** The scopes granted to a request for `requested` scopes: starting from none,
      each requested scope with `prefix` trimmed, in request order. */
  function Granted(requested: seq<string>, prefix: string): seq<string>
  {
    if requested == [] then []
    else AppendAbsent(Granted(requested[..|requested| - 1], prefix), TrimPrefix(requested[|requested| - 1], prefix))
  }

  /** Every granted scope is a trimmed requested scope, and every trimmed requested
      scope is granted. */
  lemma {:induction false} GrantedMembers(requested: seq<string>, prefix: string, x: string)
    ensures x in Granted(requested, prefix) <==>
      exists i :: 0 <= i < |requested| && TrimPrefix(requested[i], prefix) == x
  {
    if requested != [] {
      var init, last := requested[..|requested| - 1], |requested| - 1;
      var trimmed := TrimPrefix(requested[last], prefix);
      assert Granted(requested, prefix) == AppendAbsent(Granted(init, prefix), trimmed);
      assert x in Granted(requested, prefix) <==> x in Granted(init, prefix) || x == trimmed;
      GrantedMembers(init, prefix, x);
      if x in Granted(init, prefix) {
        var i :| 0 <= i < |init| && TrimPrefix(init[i], prefix) == x;
        assert requested[i] == init[i];
      } else if x == trimmed {
        // The last requested scope is the witness.
        assert 0 <= last < |requested|;
      } else {
        forall i | 0 <= i < |requested|
          ensures TrimPrefix(requested[i], prefix) != x
        {
          if i < |init| {
            assert init[i] == requested[i];
          }
        }
      }
    }
  }

  predicate Distinct(s: seq<string>)
  {
    forall i, j :: 0 <= i < j < |s| ==> s[i] != s[j]
  }

  /** No scope is granted twice. */
  lemma {:induction false} GrantedNoDuplicates(requested: seq<string>, prefix: string)
    ensures Distinct(Granted(requested, prefix))
  {
    if requested != [] {
      var init := Granted(requested[..|requested| - 1], prefix);
      GrantedNoDuplicates(requested[..|requested| - 1], prefix);
      var x := TrimPrefix(requested[|requested| - 1], prefix);
      if x !in init {
        var g := init + [x];
        forall i, j | 0 <= i < j < |g|
          ensures g[i] != g[j]
        {
          if j == |init| {
            assert g[i] == init[i] && init[i] in init && g[j] == x;
          } else {
            assert g[i] == init[i] && g[j] == init[j];
          }
        }
        assert Granted(requested, prefix) == g;
      }
    }
  }

  /** When the trimmed requested scopes are distinct, the granted scopes are exactly
      those, in order. */
  lemma {:induction false} GrantedIsTrimmedRequest(requested: seq<string>, prefix: string)
    requires forall i, j :: 0 <= i < j < |requested| ==>
      TrimPrefix(requested[i], prefix) != TrimPrefix(requested[j], prefix)
    ensures |Granted(requested, prefix)| == |requested|
    ensures forall i :: 0 <= i < |requested| ==> Granted(requested, prefix)[i] == TrimPrefix(requested[i], prefix)
  {
    if requested != [] {
      var n := |requested| - 1;
      var init := requested[..n];
      var last := TrimPrefix(requested[n], prefix);
      forall i, j | 0 <= i < j < |init|
        ensures TrimPrefix(init[i], prefix) != TrimPrefix(init[j], prefix)
      {
        assert init[i] == requested[i] && init[j] == requested[j];
      }
      GrantedIsTrimmedRequest(init, prefix);
      forall i | 0 <= i < |init| ensures TrimPrefix(init[i], prefix) != last {
        assert init[i] == requested[i];
      }
      GrantedMembers(init, prefix, last);
      var g := Granted(requested, prefix);
      assert g == Granted(init, prefix) + [last];
      forall i | 0 <= i < |requested| ensures g[i] == TrimPrefix(requested[i], prefix) {
        if i < n {
          assert g[i] == Granted(init, prefix)[i] && requested[i] == init[i];
        }
      }
    }
  }

  /** The request state after a supported grant: scopes re-granted from the
      requested ones, and the issuer granted as audience. */
  function GrantedState(ar: AccessRequestData, issuer: string, prefix: string): AccessRequestData
  {
    ar.(grantedScope := Granted(ar.requestedScopes, prefix),
        grantedAudience := AppendAbsent(ar.grantedAudience, issuer))
  }

  /** What the endpoint writes for `req`. An issued token's request holds the
      requested scopes, trimmed, as its granted scopes and the issuer among its
      audience. */
  function TokenOutcome(provider: Provider, issuer: string, prefix: string, req: HttpRequest): (w: Written)
    ensures w.AccessResponse? ==>
      w.request.grantedScope == Granted(w.request.requestedScopes, prefix) &&
      issuer in w.request.grantedAudience
  {
    match provider.newAccessRequest(req, Session(ClientIdFor(req)))
    case Failure(err) => AccessError(err)
    case Success(ar) =>
      if !ar.isFositeRequest then AccessError(ErrInvalidRequest)
      else if !HasOneOf(ar.grantTypes, SupportedGrantTypes) then AccessError(ErrUnsupportedGrantType)
      else
        var granted := GrantedState(ar, issuer, prefix);
        match provider.newAccessResponse(granted)
        case Failure(err) => AccessError(err)
        case Success(response) => AccessResponse(granted, response)
  }

  /** A token is issued exactly when the provider accepts the request, the request
      has the expected type, one of its grant types is supported and the provider
      builds a response; the issued request holds the trimmed requested scopes,
      the issuer as audience, and its grant types and requested scopes unchanged. */
  lemma TokenIssuedIff(provider: Provider, issuer: string, prefix: string, req: HttpRequest)
    ensures var w := TokenOutcome(provider, issuer, prefix, req);
            var r := provider.newAccessRequest(req, Session(ClientIdFor(req)));
      w.AccessResponse? <==>
        && r.Success? && r.value.isFositeRequest
        && (exists g :: g in SupportedGrantTypes && g in r.value.grantTypes)
        && provider.newAccessResponse(GrantedState(r.value, issuer, prefix)).Success?
    ensures var w := TokenOutcome(provider, issuer, prefix, req);
            var r := provider.newAccessRequest(req, Session(ClientIdFor(req)));
      w.AccessResponse? ==>
        && w.request.grantTypes == r.value.grantTypes
        && w.request.requestedScopes == r.value.requestedScopes
        && w.request.grantedScope == Granted(r.value.requestedScopes, prefix)
        && issuer in w.request.grantedAudience
        && Success(w.response) == provider.newAccessResponse(w.request)
  {
  }

  /** The error paths: a provider rejection is written as is; a request of an
      unexpected type is answered with invalid_request; an unsupported grant type
      with unsupported_grant_type; a failure to build the response as is. */
  lemma ErrorsAreSurfaced(provider: Provider, issuer: string, prefix: string, req: HttpRequest)
    ensures var w := TokenOutcome(provider, issuer, prefix, req);
            var r := provider.newAccessRequest(req, Session(ClientIdFor(req)));
      && (r.Failure? ==> w == AccessError(r.error))
      && (r.Success? && !r.value.isFositeRequest ==> w == AccessError(ErrInvalidRequest))
      && (r.Success? && r.value.isFositeRequest && !HasOneOf(r.value.grantTypes, SupportedGrantTypes) ==>
            w == AccessError(ErrUnsupportedGrantType))
      && (r.Success? && r.value.isFositeRequest && HasOneOf(r.value.grantTypes, SupportedGrantTypes) &&
          provider.newAccessResponse(GrantedState(r.value, issuer, prefix)).Failure? ==>
            w == AccessError(provider.newAccessResponse(GrantedState(r.value, issuer, prefix)).error))
  {
  }

  /** A grant type outside the supported set is rejected before any response is
      built: the outcome does not depend on the provider's response builder. */
  lemma UnsupportedGrantNeverReachesResponse(provider: Provider, other: Provider, issuer: string, prefix: string, req: HttpRequest)
    requires other.newAccessRequest == provider.newAccessRequest
    requires var r := provider.newAccessRequest(req, Session(ClientIdFor(req)));
      r.Success? && r.value.isFositeRequest && forall g :: g in r.value.grantTypes ==> g !in SupportedGrantTypes
    ensures TokenOutcome(provider, issuer, prefix, req) == AccessError(ErrUnsupportedGrantType)
    ensures TokenOutcome(other, issuer, prefix, req) == TokenOutcome(provider, issuer, prefix, req)
  {
  }

  /** An error while decoding the form is only logged: for a provider that does not
      itself look at the decoding error, the outcome is the same as without it. */
  lemma FormErrorIgnored(provider: Provider, issuer: string, prefix: string, req: HttpRequest)
    requires forall s :: provider.newAccessRequest(req, s) == provider.newAccessRequest(req.(formError := false), s)
    ensures TokenOutcome(provider, issuer, prefix, req) == TokenOutcome(provider, issuer, prefix, req.(formError := false))
  {
  }

  /** The provider's access request object. Granting a scope or an audience appends
      it unless it is already granted. */
  class AccessRequest {
    var isFositeRequest: bool
    var grantTypes: seq<string>
    var requestedScopes: seq<string>
    var grantedScope: seq<string>
    var grantedAudience: seq<string>

    constructor (data: AccessRequestData)
      ensures State() == data
    {
      isFositeRequest := data.isFositeRequest;
      grantTypes := data.grantTypes;
      requestedScopes := data.requestedScopes;
      grantedScope := data.grantedScope;
      grantedAudience := data.grantedAudience;
    }

    function State(): AccessRequestData
      reads this
    {
      AccessRequestData(isFositeRequest, grantTypes, requestedScopes, grantedScope, grantedAudience)
    }

    method GrantScope(scope: string)
      modifies this
      ensures State() == old(State()).(grantedScope := AppendAbsent(old(grantedScope), scope))
    {
      if scope !in grantedScope {
        grantedScope := grantedScope + [scope];
      }
    }

    method GrantAudience(audience: string)
      modifies this
      ensures State() == old(State()).(grantedAudience := AppendAbsent(old(grantedAudience), audience))
    {
      if audience !in grantedAudience {
        grantedAudience := grantedAudience + [audience];
      }
    }
  }

  /** The HTTP response, as the sequence of what has been written to it. */
  class ResponseWriter {
    var writes: seq<Written>

    constructor ()
      ensures writes == []
    {
      writes := [];
    }

    method Write(w: Written)
      modifies this
      ensures writes == old(writes) + [w]
    {
      writes := writes + [w];
    }
  }

  /** tokenEndpoint: exactly one write is appended to the response, and it is the
      outcome `TokenOutcome` describes. */
  method TokenEndpoint(provider: Provider, issuer: string, prefix: string, req: HttpRequest, rw: ResponseWriter)
    modifies rw
    ensures rw.writes == old(rw.writes) + [TokenOutcome(provider, issuer, prefix, req)]
  {
    var clientID := "";
    if "client_credentials" == FormValue(req, "grant_type") {
      if req.basicAuth.Some? {
        clientID := req.basicAuth.value.0;
      }
    }
    var emptySession := Session(clientID);

    var accessRequest := provider.newAccessRequest(req, emptySession);
    if accessRequest.Failure? {
      rw.Write(AccessError(accessRequest.error));
      return;
    }
    if !accessRequest.value.isFositeRequest {
      rw.Write(AccessError(ErrInvalidRequest));
      return;
    }
    var fositeAccessRequest := new AccessRequest(accessRequest.value);

    if HasOneOf(fositeAccessRequest.grantTypes, SupportedGrantTypes) {
      var requestedScopes := fositeAccessRequest.requestedScopes;
      fositeAccessRequest.grantedScope := [];
      for i := 0 to |requestedScopes|
        invariant fositeAccessRequest.State() ==
          accessRequest.value.(grantedScope := Granted(requestedScopes[..i], prefix))
        invariant rw.writes == old(rw.writes)
      {
        assert requestedScopes[..i + 1][..i] == requestedScopes[..i];
        fositeAccessRequest.GrantScope(TrimPrefix(requestedScopes[i], prefix));
      }
      assert requestedScopes[..|requestedScopes|] == requestedScopes;
      fositeAccessRequest.GrantAudience(issuer);
    } else {
      rw.Write(AccessError(ErrUnsupportedGrantType));
      return;
    }

    var response := provider.newAccessResponse(fositeAccessRequest.State());
    if response.Failure? {
      rw.Write(AccessError(response.error));
      return;
    }
    rw.Write(AccessResponse(fositeAccessRequest.State(), response.value));
  }
}
