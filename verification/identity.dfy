/** The request-scoped identity of a caller and the claim values it carries. */
module Identity {
  import opened Wrappers

  /** A decoded claim value, by its runtime shape. `Null` stands for Go's nil
      interface: an absent map key or an explicit JSON null. `StrList` is a typed
      `[]string`; `AnyList` an untyped `[]interface{}` as JSON decoding produces. */
  datatype ClaimValue =
    | Null
    | Str(s: string)
    | StrList(strs: seq<string>)
    | AnyList(elems: seq<ClaimValue>)
    | Num(n: int)
    | Bool(b: bool)
    | Obj(fields: map<string, ClaimValue>)

  /** The value a Go map lookup yields: the stored value, or nil for a missing key. */
  function Lookup(m: map<string, ClaimValue>, key: string): (v: ClaimValue)
    ensures key !in m ==> v == Null
    ensures key in m ==> v == m[key]
  {
    if key in m then m[key] else Null
  }

  /** The caller's identity. `claims` are the token's top-level claims (an empty map
      for a nil map); `additionalClaims` are the user-info additional claims (empty
      when there is no user info). */
  datatype IdentityContext = IdentityContext(
    audience: string,
    userID: string,
    appID: string,
    executionIdentity: string,
    scopes: set<string>,
    claims: map<string, ClaimValue>,
    additionalClaims: map<string, ClaimValue>)
  {
    /** Unauthenticated: neither a user nor an app is known. */
    predicate IsEmpty() {
      userID == "" && appID == ""
    }

    /** A copy of this identity whose execution identity is `euid`; the receiver,
        being a value, is left as it was. */
    function WithExecutionUserIdentifier(euid: string): (r: IdentityContext)
      ensures r.executionIdentity == euid
      ensures r.audience == audience && r.userID == userID && r.appID == appID
      ensures r.scopes == scopes && r.claims == claims && r.additionalClaims == additionalClaims
      ensures r.IsEmpty() <==> IsEmpty()
    {
      this.(executionIdentity := euid)
    }
  }

  const EmptyIdentity := IdentityContext("", "", "", "", {}, map[], map[])

  /** The request-scoped context: it may or may not carry an identity. */
  type Context = Option<IdentityContext>

  /** The identity attached to `ctx`; an absent one reads as the empty identity. */
  function IdentityContextFromContext(ctx: Context): (id: IdentityContext)
    ensures ctx.None? ==> id.IsEmpty() && id.scopes == {} && id.claims == map[]
    ensures ctx.Some? ==> id == ctx.value
  {
    ctx.GetOr(EmptyIdentity)
  }

  /** A context carrying `id`. */
  function WithContext(id: IdentityContext): (ctx: Context)
    ensures IdentityContextFromContext(ctx) == id
  {
    Some(id)
  }

  /** Deriving an execution identity never changes the original value, and the
      derived identity is the original in every field but the execution identity. */
  lemma WithExecutionUserIdentifierKeepsOriginal(id: IdentityContext, euid: string)
    ensures id.WithExecutionUserIdentifier(euid).(executionIdentity := id.executionIdentity) == id
    ensures id.WithExecutionUserIdentifier(euid).WithExecutionUserIdentifier(id.executionIdentity) == id
  {
  }
}
