/** The stream authenticator of the gateway's gRPC transport
    (gateway/transport/interceptors.go): it reads the call's metadata, extracts a bearer
    token, classifies it into one of four credential schemes, resolves it through that
    scheme's validator and runs the stream handler with the resolved identity attached
    to the stream's context. The validators, the JSON decoder and the handler are
    outside this model and are passed in as functions. */
module Transport {
  import opened Types
  import opened GoStrings
  import Base64

  /** gRPC metadata: lower-case keys, each with its list of values. */
  type Metadata = map<string, seq<string>>

  /** `md.Get(key)` for a lower-case key: the values, or none. */
  function MdGet(md: Metadata, key: string): seq<string>
  {
    if key in md then md[key] else []
  }

  /** The first value of a key, or "" (the helper `mdget`). */
  function MdFirst(md: Metadata, key: string): string
  {
    var values := MdGet(md, key);
    if |values| == 0 then "" else values[0]
  }

  const OriginKey := "origin"
  const AuthorizationKey := "authorization"
  const UserAgentKey := "user-agent"

  const AgentTokenPrefix := "x-agt-"
  const LegacyClientUserAgentPrefix := "hoopagent/s"
  const DevAgentToken := "x-agt-test-token"
  const DevUserToken := "x-hooper-test-token"

  /** Constants defined by other packages of the gateway: the development profile name,
      the agent origin tag, the admin key prefix and the metadata key of the encoded
      user information. */
  datatype Protocol = Protocol(
    devProfile: string,
    agentOrigin: string,
    adminKeyPrefix: string,
    userInfoKey: string)

  datatype Code = InvalidArgument | Unauthenticated | Internal

  datatype Status = Status(code: Code, message: string)

  datatype Result<T> = Ok(value: T) | Err(status: Status)

  const InvalidAuthentication := Status(Unauthenticated, "invalid authentication")

  /** The user information carried by an admin call and produced for an end user
      (types.APIContext). */
  datatype APIContext = APIContext(
    orgId: string,
    orgName: string,
    userId: string,
    userName: string,
    userEmail: string,
    userStatus: string,
    slackId: string,
    userGroups: seq<string>)

  datatype Agent = Agent(id: string, orgId: string, name: string)

  datatype ClientKey = ClientKey(id: string, orgId: string, name: string)

  /** What the authenticator stores in the context under its private key. The first
      three are the types downstream code asks for; `ForeignValue` is a value of any
      other type. */
  datatype AuthValue =
    | ApiContextValue(api: APIContext)
    | ClientKeyValue(key: ClientKey)
    | AgentValue(agent: Agent)
    | ForeignValue(typeName: string)

  /** Outcome of resolving a subject to a user profile: a lookup error, or the profile,
      which may lack an underlying user record (its API context otherwise). */
  datatype UserLookup = UserLookupFailed | UserProfile(user: Option<APIContext>)

  /** The validators of the four schemes and the JSON decoder of the user information. */
  datatype Validators = Validators(
    adminAuthenticate: string -> bool,
    findAgentByToken: string -> Fetched<Agent>,
    validateDsn: string -> Fetched<ClientKey>,
    exchangeUserToken: string -> Option<string>,
    findUserBySub: string -> UserLookup,
    decodeUserInfoJson: seq<Base64.Byte> -> Option<APIContext>)

  // ---------------------------------------------------------------------------
  // Bearer token

  /** `parseBearerToken`: a fixed test token in the development profile; otherwise the
      first `authorization` value must be `Bearer <token>`, split on single spaces into
      exactly two pieces, with a non-empty token. Every failure is the same
      Unauthenticated status. */
  function ParseBearerToken(profile: string, isAgentOrigin: bool, md: Metadata, proto: Protocol): (r: Result<string>)
    ensures r.Err? ==> r.status == InvalidAuthentication
    ensures r.Ok? ==> r.value != "" && ' ' !in r.value
  {
    if profile == proto.devProfile then
      Ok(if isAgentOrigin then DevAgentToken else DevUserToken)
    else
      var values := MdGet(md, AuthorizationKey);
      if |values| == 0 then Err(InvalidAuthentication)
      else
        var parts := Split(values[0], ' ');
        if |parts| != 2 || parts[0] != "Bearer" || parts[1] == "" then Err(InvalidAuthentication)
        else Ok(parts[1])
  }

  /** In the development profile the metadata is ignored. */
  lemma DevProfileToken(isAgentOrigin: bool, md: Metadata, proto: Protocol)
    ensures ParseBearerToken(proto.devProfile, isAgentOrigin, md, proto)
      == Ok(if isAgentOrigin then "x-agt-test-token" else "x-hooper-test-token")
  {
  }

  /** Soundness: outside the development profile a parsed token is exactly what follows
      `Bearer ` in the first authorization value. */
  lemma ParseBearerTokenSound(profile: string, isAgentOrigin: bool, md: Metadata, proto: Protocol)
    requires profile != proto.devProfile
    requires ParseBearerToken(profile, isAgentOrigin, md, proto).Ok?
    ensures var t := ParseBearerToken(profile, isAgentOrigin, md, proto).value;
            |MdGet(md, AuthorizationKey)| > 0 && MdGet(md, AuthorizationKey)[0] == "Bearer " + t
  {
    var header := MdGet(md, AuthorizationKey)[0];
    var parts := Split(header, ' ');
    JoinSplit(header, ' ');
    assert Join(parts, ' ') == parts[0] + [' '] + Join(parts[1..], ' ');
    assert parts[1..] == [parts[1]];
  }

  /** Completeness, the round trip: `Bearer <t>` parses to `t` for every non-empty `t`
      without spaces. */
  lemma ParseBearerTokenComplete(profile: string, isAgentOrigin: bool, md: Metadata, proto: Protocol, t: string)
    requires profile != proto.devProfile
    requires |MdGet(md, AuthorizationKey)| > 0 && MdGet(md, AuthorizationKey)[0] == "Bearer " + t
    requires t != "" && ' ' !in t
    ensures ParseBearerToken(profile, isAgentOrigin, md, proto) == Ok(t)
  {
    assert "Bearer " + t == "Bearer" + [' '] + t;
    SplitAtFirst("Bearer", ' ', t);
    SplitWithoutSeparator(t, ' ');
  }

  // ---------------------------------------------------------------------------
  // User information of admin calls

  const MissingSystemAttributes := Status(Unauthenticated, "invalid authentication, missing system attributes")
  const BadBase64UserInfo := Status(Unauthenticated, "invalid authentication, failed decoding (base64) user info")
  const BadJsonUserInfo := Status(Unauthenticated, "invalid authentication, failed decoding (json) user info")

  /** `getUserInfo`: the first value of the user-info key, decoded from standard base64
      and then from JSON; each stage has its own Unauthenticated status. */
  function GetUserInfo(md: Metadata, key: string, decodeJson: seq<Base64.Byte> -> Option<APIContext>): (r: Result<APIContext>)
    ensures |MdGet(md, key)| == 0 ==> r == Err(MissingSystemAttributes)
    ensures r.Err? ==> r.status.code == Unauthenticated
  {
    var encoded := MdGet(md, key);
    if |encoded| == 0 then Err(MissingSystemAttributes)
    else
      match Base64.Decode(encoded[0])
      case None => Err(BadBase64UserInfo)
      case Some(json) =>
        match decodeJson(json)
        case None => Err(BadJsonUserInfo)
        case Some(ctx) => Ok(ctx)
  }

  /** Round trip: user information sent as base64 of a JSON document is decoded back to
      what the JSON document holds. */
  lemma UserInfoRoundTrip(md: Metadata, key: string, decodeJson: seq<Base64.Byte> -> Option<APIContext>,
                          json: seq<Base64.Byte>, ctx: APIContext)
    requires |MdGet(md, key)| > 0 && MdGet(md, key)[0] == Base64.Encode(json)
    requires decodeJson(json) == Some(ctx)
    ensures GetUserInfo(md, key, decodeJson) == Ok(ctx)
  {
    Base64.DecodeEncode(json);
  }

  /** The three stages are checked in order: a value that is not base64 fails as such,
      whatever the JSON decoder would say. */
  lemma UserInfoStages(md: Metadata, key: string, decodeJson: seq<Base64.Byte> -> Option<APIContext>)
    requires |MdGet(md, key)| > 0
    ensures Base64.Decode(MdGet(md, key)[0]).None? ==> GetUserInfo(md, key, decodeJson) == Err(BadBase64UserInfo)
    ensures Base64.Decode(MdGet(md, key)[0]).Some? && decodeJson(Base64.Decode(MdGet(md, key)[0]).value).None?
            ==> GetUserInfo(md, key, decodeJson) == Err(BadJsonUserInfo)
  {
  }

  // ---------------------------------------------------------------------------
  // Scheme classification

  datatype Scheme = AdminScheme | AgentScheme | ClientKeyScheme | AccessTokenScheme

  /** The first-match-wins classification of `AuthGrpcInterceptor`: admin key prefix,
      then agent key prefix, then a legacy client user agent, then the default
      end-user access token. */
  function Classify(token: string, userAgent: string, proto: Protocol): (r: Scheme)
    ensures Claims(r, token, userAgent, proto)
    ensures HasPrefix(token, proto.adminKeyPrefix) ==> r == AdminScheme
  {
    if HasPrefix(token, proto.adminKeyPrefix) then AdminScheme
    else if HasPrefix(token, AgentTokenPrefix) then AgentScheme
    else if HasPrefix(userAgent, LegacyClientUserAgentPrefix) then ClientKeyScheme
    else AccessTokenScheme
  }

  /** The classification as an explicit table: the schemes in order of precedence, and
      the condition under which each one claims a call. */
  const SchemeOrder: seq<Scheme> := [AdminScheme, AgentScheme, ClientKeyScheme, AccessTokenScheme]

  predicate Claims(scheme: Scheme, token: string, userAgent: string, proto: Protocol)
  {
    match scheme
    case AdminScheme => HasPrefix(token, proto.adminKeyPrefix)
    case AgentScheme => HasPrefix(token, AgentTokenPrefix)
    case ClientKeyScheme => HasPrefix(userAgent, LegacyClientUserAgentPrefix)
    case AccessTokenScheme => true
  }

  function FirstClaim(schemes: seq<Scheme>, token: string, userAgent: string, proto: Protocol): Option<Scheme>
  {
    if |schemes| == 0 then None
    else if Claims(schemes[0], token, userAgent, proto) then Some(schemes[0])
    else FirstClaim(schemes[1..], token, userAgent, proto)
  }

  /** The scheme chosen is the first in `SchemeOrder` that claims the call: it claims
      it, and no scheme before it does. */
  lemma ClassifyIsFirstClaim(token: string, userAgent: string, proto: Protocol)
    ensures FirstClaim(SchemeOrder, token, userAgent, proto) == Some(Classify(token, userAgent, proto))
    ensures forall i :: 0 <= i < |SchemeOrder| && SchemeOrder[i] == Classify(token, userAgent, proto) ==>
              Claims(SchemeOrder[i], token, userAgent, proto) &&
              forall j :: 0 <= j < i ==> !Claims(SchemeOrder[j], token, userAgent, proto)
  {
    var order := SchemeOrder;
    assert order[1..] == [AgentScheme, ClientKeyScheme, AccessTokenScheme];
    assert order[1..][1..] == [ClientKeyScheme, AccessTokenScheme];
    assert order[1..][1..][1..] == [AccessTokenScheme];
    assert FirstClaim([AccessTokenScheme], token, userAgent, proto) == Some(AccessTokenScheme);
    assert FirstClaim([ClientKeyScheme, AccessTokenScheme], token, userAgent, proto)
        == if Claims(ClientKeyScheme, token, userAgent, proto) then Some(ClientKeyScheme) else Some(AccessTokenScheme);
  }

  // ---------------------------------------------------------------------------
  // Resolution

  /** Whether a resolved value is the identity kind of its scheme. */
  predicate IdentityOf(scheme: Scheme, value: AuthValue)
  {
    match scheme
    case AdminScheme => value.ApiContextValue?
    case AgentScheme => value.AgentValue?
    case ClientKeyScheme => value.ClientKeyValue?
    case AccessTokenScheme => value.ApiContextValue?
  }

  /** The validator step of each scheme. Only a failing DSN validation is Internal;
      every other rejection is Unauthenticated. */
  function Resolve(scheme: Scheme, token: string, md: Metadata, v: Validators, proto: Protocol): (r: Result<AuthValue>)
    ensures r.Ok? ==> IdentityOf(scheme, r.value)
    ensures r.Err? ==> (r.status.code == Internal <==> scheme == ClientKeyScheme && v.validateDsn(token).FetchFailed?)
    ensures r.Err? ==> r.status.code != InvalidArgument
  {
    match scheme
    case AdminScheme =>
      if !v.adminAuthenticate(token) then Err(Status(Unauthenticated, "failed to authenticate internal request"))
      else
        (match GetUserInfo(md, proto.userInfoKey, v.decodeUserInfoJson)
         case Err(s) => Err(s)
         case Ok(u) => Ok(ApiContextValue(u)))
    case AgentScheme =>
      (match v.findAgentByToken(token)
       case Found(a) => Ok(AgentValue(a))
       case _ => Err(InvalidAuthentication))
    case ClientKeyScheme =>
      (match v.validateDsn(token)
       case FetchFailed(_) => Err(Status(Internal, "failed validating dsn"))
       case Missing => Err(InvalidAuthentication)
       case Found(k) => Ok(ClientKeyValue(k)))
    case AccessTokenScheme =>
      match v.exchangeUserToken(token)
      case None => Err(InvalidAuthentication)
      case Some(sub) =>
        match v.findUserBySub(sub)
        case UserProfile(Some(api)) => Ok(ApiContextValue(api))
        case _ => Err(InvalidAuthentication)
  }

  /** A token that no scheme recognises by prefix and that the token exchange rejects is
      Unauthenticated. */
  lemma UnknownTokenRejected(token: string, md: Metadata, v: Validators, proto: Protocol)
    requires v.exchangeUserToken(token).None?
    ensures Resolve(AccessTokenScheme, token, md, v, proto) == Err(InvalidAuthentication)
  {
  }

  /** Whether the interceptor scrubs the authorization value from the logged metadata
      when the scheme rejects the call. */
  predicate ScrubsOnRejection(scheme: Scheme, token: string, v: Validators)
  {
    scheme == AgentScheme || (scheme == ClientKeyScheme && v.validateDsn(token).Missing?)
  }

  /** The rejections after which the authorization value is deleted from the metadata
      are exactly the agent rejections and the client key rejections that are
      Unauthenticated (an unknown key, not a failed validation); a rejected admin key or
      access token keeps it. */
  lemma ScrubbedRejections(scheme: Scheme, token: string, md: Metadata, v: Validators, proto: Protocol)
    requires Resolve(scheme, token, md, v, proto).Err?
    ensures ScrubsOnRejection(scheme, token, v) <==>
              scheme == AgentScheme ||
              (scheme == ClientKeyScheme && Resolve(scheme, token, md, v, proto).status.code == Unauthenticated)
  {
  }

  // ---------------------------------------------------------------------------
  // The interceptor

  /** How a call ends: rejected before the handler runs, or handled exactly once with the
      identity of the scheme that accepted it (the handler's own error is returned). */
  datatype Interception =
    | Rejected(status: Status)
    | Handled(scheme: Scheme, identity: AuthValue, returned: Option<Status>)

  const MissingMetadata := Status(InvalidArgument, "missing context metadata")
  const MissingOrigin := Status(InvalidArgument, "missing client origin")

  /** `AuthGrpcInterceptor`. `incoming` is the call's metadata, if any; `logged` is the
      metadata as it stands when the call returns (what the diagnostic log prints), from
      which the authorization value has been deleted on the paths that delete it. */
  method AuthGrpcInterceptor(incoming: Option<Metadata>, profile: string, proto: Protocol,
                             v: Validators, handler: AuthValue -> Option<Status>)
    returns (outcome: Interception, logged: Metadata)
    ensures incoming.None? ==> outcome == Rejected(MissingMetadata)
    ensures incoming.Some? && |MdGet(incoming.value, OriginKey)| == 0 ==>
              outcome == Rejected(MissingOrigin) && logged == incoming.value - {AuthorizationKey}
    ensures incoming.Some? && |MdGet(incoming.value, OriginKey)| > 0 ==>
              var md := incoming.value;
              var token := ParseBearerToken(profile, MdGet(md, OriginKey)[0] == proto.agentOrigin, md, proto);
              (token.Err? ==> outcome == Rejected(token.status) && logged == md) &&
              (token.Ok? ==>
                 var scheme := Classify(token.value, MdFirst(md, UserAgentKey), proto);
                 var id := Resolve(scheme, token.value, md, v, proto);
                 (id.Err? ==> outcome == Rejected(id.status) &&
                              logged == if ScrubsOnRejection(scheme, token.value, v) then md - {AuthorizationKey} else md) &&
                 (id.Ok? ==> outcome == Handled(scheme, id.value, handler(id.value)) && logged == md))
    ensures outcome.Handled? ==> IdentityOf(outcome.scheme, outcome.identity) && outcome.returned == handler(outcome.identity)
  {
    if incoming.None? {
      return Rejected(MissingMetadata), map[];
    }
    var md := incoming.value;
    var clientOrigin := MdGet(md, OriginKey);
    if |clientOrigin| == 0 {
      md := md - {AuthorizationKey};
      return Rejected(MissingOrigin), md;
    }
    var isAgentOrigin := clientOrigin[0] == proto.agentOrigin;
    var bearerToken := ParseBearerToken(profile, isAgentOrigin, md, proto);
    if bearerToken.Err? {
      return Rejected(bearerToken.status), md;
    }
    var scheme := Classify(bearerToken.value, MdFirst(md, UserAgentKey), proto);
    var ctxVal := Resolve(scheme, bearerToken.value, md, v, proto);
    if ctxVal.Err? {
      if ScrubsOnRejection(scheme, bearerToken.value, v) {
        md := md - {AuthorizationKey};
      }
      return Rejected(ctxVal.status), md;
    }
    outcome := Handled(scheme, ctxVal.value, handler(ctxVal.value));
    logged := md;
  }

  // ---------------------------------------------------------------------------
  // The stream context seen by the handler

  /** The two things of a call's context this core reads: the value stored under the
      authenticator's private key, and the incoming metadata. */
  datatype Ctx = Ctx(authValue: Option<AuthValue>, incoming: Option<Metadata>)

  /** `wrappedStream`: the original stream's context, the value to attach, and the
      derived context once computed. */
  class WrappedStream {
    const base: Ctx
    const newCtxVal: Option<AuthValue>
    var newCtx: Option<Ctx>

    constructor (base: Ctx, newCtxVal: Option<AuthValue>)
      ensures this.base == base && this.newCtxVal == newCtxVal && newCtx == None
    {
      this.base := base;
      this.newCtxVal := newCtxVal;
      newCtx := None;
    }

    /** `Context()`: a cached derived context is returned as it is; without a value to
        attach, or without incoming metadata, the original context is returned and
        nothing is cached; otherwise the derived context carries the value and a copy of
        the metadata, and is cached. */
    method Context() returns (ctx: Ctx)
      modifies this`newCtx
      ensures old(newCtx).Some? ==> ctx == old(newCtx).value && newCtx == old(newCtx)
      ensures old(newCtx).None? && (newCtxVal.None? || base.incoming.None?) ==> ctx == base && newCtx == None
      ensures old(newCtx).None? && newCtxVal.Some? && base.incoming.Some? ==>
                ctx == Ctx(newCtxVal, base.incoming) && newCtx == Some(ctx)
    {
      if newCtx.Some? {
        return newCtx.value;
      }
      ctx := base;
      if newCtxVal.None? {
        return;
      }
      if base.incoming.Some? {
        newCtx := Some(Ctx(newCtxVal, base.incoming));
        return newCtx.value;
      }
    }
  }

  // ---------------------------------------------------------------------------
  // Reading the identity back

  /** The pointer type downstream code passes to `parseAuthContextInto`. */
  datatype AuthKind = ApiContextKind | ClientKeyKind | AgentKind

  /** The stored value is copied, the call fails with a status, or the unchecked type
      assertion on the destination panics. */
  datatype AuthRead = Copied(value: AuthValue) | ReadFailed(status: Status) | TypeAssertionPanic

  function KindOf(value: AuthValue): Option<AuthKind>
  {
    match value
    case ApiContextValue(_) => Some(ApiContextKind)
    case ClientKeyValue(_) => Some(ClientKeyKind)
    case AgentValue(_) => Some(AgentKind)
    case ForeignValue(_) => None
  }

  /** `parseAuthContextInto`. */
  function ParseAuthContextInto(ctx: Option<Ctx>, into: AuthKind): (r: AuthRead)
    ensures ctx.None? || ctx.value.authValue.None? ==> r.ReadFailed? && r.status.code == Internal
    ensures r.Copied? ==> ctx.Some? && ctx.value.authValue == Some(r.value) && KindOf(r.value) == Some(into)
  {
    if ctx.None? then ReadFailed(Status(Internal, "authentication context not found (nil)"))
    else
      match ctx.value.authValue
      case None => ReadFailed(Status(Internal, "authentication context not found"))
      case Some(val) =>
        match KindOf(val)
        case None =>
          ReadFailed(Status(Unauthenticated, "invalid authentication, missing auth context, type: " + val.typeName))
        case Some(kind) => if kind == into then Copied(val) else TypeAssertionPanic
  }

  /** A context holding a value of an unrecognised type is Unauthenticated; one holding
      a recognised value of another type than requested panics. */
  lemma ParseAuthContextMismatch(ctx: Ctx, into: AuthKind)
    requires ctx.authValue.Some?
    ensures KindOf(ctx.authValue.value).None? ==>
              ParseAuthContextInto(Some(ctx), into).ReadFailed? &&
              ParseAuthContextInto(Some(ctx), into).status.code == Unauthenticated
    ensures KindOf(ctx.authValue.value).Some? && KindOf(ctx.authValue.value) != Some(into) ==>
              ParseAuthContextInto(Some(ctx), into) == TypeAssertionPanic
  {
  }

  /** What the handler reads back: the identity a successful interception attaches is
      copied out by a request for its own kind. */
  lemma HandledIdentityReadable(scheme: Scheme, identity: AuthValue, md: Metadata)
    requires IdentityOf(scheme, identity)
    ensures KindOf(identity).Some?
    ensures ParseAuthContextInto(Some(Ctx(Some(identity), Some(md))), KindOf(identity).value) == Copied(identity)
  {
  }

  // ---------------------------------------------------------------------------
  // Legacy user context

  datatype Org = Org(id: string, name: string)

  datatype User = User(id: string, org: string, name: string, email: string, status: string,
                       slackId: string, groups: seq<string>)

  datatype UserContext = UserContext(org: Org, user: User)

  /** `parseToLegacyUserContext`: the organization's id appears both as the org and as
      the user's org, and the user's email is the context's email. */
  function ParseToLegacyUserContext(api: APIContext): (r: UserContext)
    ensures r.org.id == r.user.org == api.orgId
    ensures r.user.email == api.userEmail
  {
    UserContext(
      Org(api.orgId, api.orgName),
      User(api.userId, api.orgId, api.userName, api.userEmail, api.userStatus, api.slackId, api.userGroups))
  }

  /** No modelled field is lost (the API context keeps only the fields the mapping
      copies): two API contexts with the same legacy context are the same. */
  lemma LegacyUserContextInjective(a: APIContext, b: APIContext)
    requires ParseToLegacyUserContext(a) == ParseToLegacyUserContext(b)
    ensures a == b
  {
  }
}
