/** The session HTTP API of the gateway (gateway/session/api.go): the listing options of
    `FindAll`, the access token of the authorization header, the per-session execution
    lock registry, and `RunReviewedExec`, which is meant to run an approved one-time
    review's command at most once and records the review's terminal status. Storage,
    the plugin service, the command execution client and the wall clock are outside
    this model: their answers are inputs. */
module SessionApi {
  import opened Types
  import opened GoStrings

  // ---------------------------------------------------------------------------
  // Listing options of FindAll

  const OptionUser := "user"
  const OptionType := "type"
  const OptionConnection := "connection"
  const OptionStartDate := "start_date"
  const OptionEndDate := "end_date"
  const OptionOffset := "offset"
  const OptionLimit := "limit"

  /** The query parameters `FindAll` looks at, in the order it looks at them. */
  const AvailableSessionOptions: seq<string> :=
    [OptionUser, OptionType, OptionConnection, OptionStartDate, OptionEndDate, OptionLimit, OptionOffset]

  /** The standard-library parsers the handler uses: `time.Parse(time.RFC3339, _)` and
      `strconv.Atoi`; `None` is a parse error. */
  datatype QueryParsers = QueryParsers(parseTime: string -> Option<Time>, atoi: string -> Option<int>)

  /** Whether the query parameter `key` turns into an option: it is present, and it is
      not the user filter of a caller who is not an admin. */
  predicate Requested(key: string, query: map<string, string>, isAdmin: bool)
  {
    key in query && (key != OptionUser || isAdmin)
  }

  /** The option the loop appends for one key. Dates and pagination numbers that do not
      parse still give an option, with a nil value. */
  function QueryOption(key: string, query: map<string, string>, isAdmin: bool, parsers: QueryParsers): (r: Option<SessionOption>)
    ensures r.Some? <==> Requested(key, query, isAdmin)
    ensures r.Some? ==> r.value.key == key
  {
    if key !in query then None
    else if key == OptionStartDate || key == OptionEndDate then
      Some(SessionOption(key, match parsers.parseTime(query[key]) case Some(t) => TimeValue(t) case None => NilValue))
    else if key == OptionLimit || key == OptionOffset then
      Some(SessionOption(key, match parsers.atoi(query[key]) case Some(n) => IntValue(n) case None => NilValue))
    else if key == OptionUser && !isAdmin then None
    else Some(SessionOption(key, TextValue(query[key])))
  }

  /** The options produced for `keys`, in the order of `keys`. */
  function QueryOptions(keys: seq<string>, query: map<string, string>, isAdmin: bool, parsers: QueryParsers): (r: seq<SessionOption>)
    ensures |r| <= |keys|
    ensures forall o :: o in r ==> o.key in keys && Requested(o.key, query, isAdmin)
    decreases |keys|
  {
    if |keys| == 0 then []
    else
      var last := keys[|keys| - 1];
      QueryOptions(keys[..|keys| - 1], query, isAdmin, parsers)
        + (match QueryOption(last, query, isAdmin, parsers) case Some(o) => [o] case None => [])
  }

  /** The requested keys among `keys`, in their order. */
  function RequestedKeys(keys: seq<string>, query: map<string, string>, isAdmin: bool): (r: seq<string>)
    ensures |r| <= |keys|
    ensures forall k :: k in r <==> k in keys && Requested(k, query, isAdmin)
    decreases |keys|
  {
    if |keys| == 0 then []
    else
      var last := keys[|keys| - 1];
      RequestedKeys(keys[..|keys| - 1], query, isAdmin)
        + (if Requested(last, query, isAdmin) then [last] else [])
  }

  /** One option per requested key, in the order of the keys, each the option for its
      key. */
  lemma {:induction false} QueryOptionsFollowKeys(keys: seq<string>, query: map<string, string>, isAdmin: bool, parsers: QueryParsers)
    ensures |QueryOptions(keys, query, isAdmin, parsers)| == |RequestedKeys(keys, query, isAdmin)|
    ensures forall i :: 0 <= i < |RequestedKeys(keys, query, isAdmin)| ==>
              QueryOption(RequestedKeys(keys, query, isAdmin)[i], query, isAdmin, parsers)
                == Some(QueryOptions(keys, query, isAdmin, parsers)[i])
    decreases |keys|
  {
    if |keys| > 0 {
      QueryOptionsFollowKeys(keys[..|keys| - 1], query, isAdmin, parsers);
    }
  }

  /** A caller who is not an admin never gets a user option from the query. */
  lemma {:induction false} NoQueryUserOptionForNonAdmin(keys: seq<string>, query: map<string, string>, parsers: QueryParsers)
    ensures forall o :: o in QueryOptions(keys, query, false, parsers) ==> o.key != OptionUser
    decreases |keys|
  {
    if |keys| > 0 {
      NoQueryUserOptionForNonAdmin(keys[..|keys| - 1], query, parsers);
    }
  }

  /** An unparseable date or page number keeps its option, with a nil value. */
  lemma UnparseableOptionKept(key: string, query: map<string, string>, isAdmin: bool, parsers: QueryParsers)
    requires key in query
    requires ((key == OptionStartDate || key == OptionEndDate) && parsers.parseTime(query[key]).None?) ||
             ((key == OptionLimit || key == OptionOffset) && parsers.atoi(query[key]).None?)
    ensures QueryOption(key, query, isAdmin, parsers) == Some(SessionOption(key, NilValue))
  {
  }

  /** The option building of `FindAll`: the query options in the order of
      `AvailableSessionOptions`, then, for a caller who is not an admin, a user option
      with the caller's own id, which is then the only user option. */
  method FindAllOptions(query: map<string, string>, isAdmin: bool, callerId: string, parsers: QueryParsers)
    returns (options: seq<SessionOption>)
    ensures options == QueryOptions(AvailableSessionOptions, query, isAdmin, parsers)
                       + (if isAdmin then [] else [SessionOption(OptionUser, TextValue(callerId))])
    ensures !isAdmin ==> |options| > 0 && options[|options| - 1] == SessionOption(OptionUser, TextValue(callerId))
                         && forall i :: 0 <= i < |options| - 1 ==> options[i].key != OptionUser
  {
    options := [];
    var i := 0;
    while i < |AvailableSessionOptions|
      invariant 0 <= i <= |AvailableSessionOptions|
      invariant options == QueryOptions(AvailableSessionOptions[..i], query, isAdmin, parsers)
    {
      var optKey := AvailableSessionOptions[i];
      if optKey in query {
        var queryOptVal := query[optKey];
        var optVal: OptionValue := NilValue;
        var skip := false;
        if optKey == OptionStartDate || optKey == OptionEndDate {
          var parsed := parsers.parseTime(queryOptVal);
          if parsed.Some? {
            optVal := TimeValue(parsed.value);
          }
        } else if optKey == OptionLimit || optKey == OptionOffset {
          var parsed := parsers.atoi(queryOptVal);
          if parsed.Some? {
            optVal := IntValue(parsed.value);
          }
        } else if optKey == OptionUser {
          // the user filter is for admins only
          skip := !isAdmin;
          optVal := TextValue(queryOptVal);
        } else {
          optVal := TextValue(queryOptVal);
        }
        if !skip {
          options := options + [SessionOption(optKey, optVal)];
        }
      }
      assert AvailableSessionOptions[..i + 1][..i] == AvailableSessionOptions[..i];
      i := i + 1;
    }
    assert AvailableSessionOptions[..i] == AvailableSessionOptions;
    var fromQuery := options;
    if !isAdmin {
      options := options + [SessionOption(OptionUser, TextValue(callerId))];
      NoQueryUserOptionForNonAdmin(AvailableSessionOptions, query, parsers);
      assert forall i :: 0 <= i < |options| - 1 ==> options[i] in fromQuery;
    }
  }

  // ---------------------------------------------------------------------------
  // Access token

  /** `getAccessToken`: the second space-separated piece of the authorization header,
      or "" when the header has no space. */
  function GetAccessToken(header: string): (token: string)
    ensures ' ' !in token
  {
    var tokenParts := Split(header, ' ');
    if |tokenParts| > 1 then tokenParts[1] else ""
  }

  lemma GetAccessTokenWithoutSpace(header: string)
    requires ' ' !in header
    ensures GetAccessToken(header) == ""
  {
    SplitWithoutSeparator(header, ' ');
  }

  /** The token is what lies between the first space and the next space (or the end),
      whatever the scheme word before it. */
  lemma GetAccessTokenSecondPiece(scheme: string, token: string, rest: string)
    requires ' ' !in scheme && ' ' !in token
    requires rest == "" || rest[0] == ' '
    ensures GetAccessToken(scheme + " " + token + rest) == token
  {
    assert scheme + " " + token + rest == scheme + [' '] + (token + rest);
    SplitAtFirst(scheme, ' ', token + rest);
    if rest == "" {
      assert token + rest == token;
      SplitWithoutSeparator(token, ' ');
    } else {
      assert token + rest == token + [' '] + rest[1..];
      SplitAtFirst(token, ' ', rest[1..]);
    }
  }

  // ---------------------------------------------------------------------------
  // Execution lock registry

  /** A step recorded in the registry's history: a lock, an unlock, or a locked stage run
      for a session id. */
  datatype RegistryOp = LockOp(id: string) | UnlockOp(id: string) | RanOp(id: string)

  /** The process-wide set of session ids with an execution in flight (`mutexExecMap`).
      The registry-wide mutex that serializes these operations is not modelled: the
      operations are taken one at a time. `ops` is the history of what was done with
      the registry, kept for the proofs only. */
  class ExecLockRegistry {
    var held: set<string>
    ghost var ops: seq<RegistryOp>

    constructor ()
      ensures held == {} && ops == []
    {
      held := {};
      ops := [];
    }

    /** `lockExec`: the id is held afterwards; no other id changes. */
    method Lock(id: string)
      modifies this
      ensures held == old(held) + {id}
      ensures id in held
      ensures forall other :: other != id ==> (other in held <==> other in old(held))
      ensures ops == old(ops) + [LockOp(id)]
    {
      held := held + {id};
      ops := ops + [LockOp(id)];
    }

    /** `unlockExec`: the id is free afterwards; unlocking a free id changes nothing;
        no other id changes. */
    method Unlock(id: string)
      modifies this
      ensures held == old(held) - {id}
      ensures id !in held
      ensures id !in old(held) ==> held == old(held)
      ensures forall other :: other != id ==> (other in held <==> other in old(held))
      ensures ops == old(ops) + [UnlockOp(id)]
    {
      held := held - {id};
      ops := ops + [UnlockOp(id)];
    }

    /** `isLockedForExec`. */
    method IsLocked(id: string) returns (locked: bool)
      ensures locked <==> id in held
    {
      locked := id in held;
    }
  }

  // ---------------------------------------------------------------------------
  // Reviewed execution: inputs and answers

  const ReviewTypeOneTime := "onetime"

  datatype ReviewStatus = Pending | Approved | Rejected | Processing | Executed | Unknown

  /** The parts of a review the gate reads and writes. */
  datatype Review = Review(id: string, reviewType: string, status: ReviewStatus, connectionName: string)

  /** What the command execution client returns for a run, with its own error verdict. */
  datatype ExecResponse = ExecResponse(
    sessionId: string,
    exitCode: Option<int>,
    output: string,
    errorMessage: string,
    truncated: bool,
    isError: bool)

  /** Which arm of the race between the run and the 50 second timer fires first. */
  datatype RunOutcome = Completed(resp: ExecResponse) | TimedOut

  /** `clientexec.New`: an error, or a client for the given session id. */
  datatype ClientSetup = ClientFailed(message: string) | ClientReady(sessionId: string)

  /** The request and what the collaborators answer: the JSON binding error, the review
      and session lookups, the caller's email, the connection names enrolled in the
      review plugin (`None` when the plugin lookup fails), the client creation and the
      run. */
  datatype GateEnv = GateEnv(
    sessionId: string,
    bindError: Option<string>,
    review: Fetched<Review>,
    session: Fetched<Session>,
    callerEmail: string,
    pluginConnections: Option<seq<string>>,
    client: ClientSetup,
    outcome: RunOutcome)

  const StatusOK := 200
  const StatusAccepted := 202
  const StatusBadRequest := 400
  const StatusNotFound := 404
  const StatusConflict := 409
  const StatusUnprocessableEntity := 422
  const StatusInternalServerError := 500

  datatype Body =
    | ErrorMessage(message: string)
    | BindError(sessionId: string, message: string)
    | ClientError(message: string)
    | ExecError(sessionId: string, message: string, exitCode: Option<int>)
    | ExecResult(resp: ExecResponse)
    | Async(sessionId: string)

  datatype Reply = Reply(code: int, body: Body)

  /** The reply, and the review handed to `PersistReview`, if any. */
  datatype Decision = Decision(reply: Reply, persisted: Option<Review>)

  function Rejection(code: int, message: string): Decision
  {
    Decision(Reply(code, ErrorMessage(message)), None)
  }

  // ---------------------------------------------------------------------------
  // Reviewed execution: the decision

  /** The part of `RunReviewedExec` that runs while the session's lock is held. */
  function LockedStage(env: GateEnv, review: Review): (r: Decision)
    ensures r.persisted.Some? ==>
              && review.status == Approved && env.client.ClientReady?
              && r.persisted.value == review.(status := r.persisted.value.status)
              && (r.persisted.value.status == Executed <==> env.outcome.Completed?)
              && (r.persisted.value.status == Unknown <==> env.outcome.TimedOut?)
    ensures r.reply.code == StatusOK || r.reply.code == StatusAccepted ==> r.persisted.Some?
  {
    if review.reviewType != ReviewTypeOneTime then Rejection(StatusNotFound, "session not found")
    else
      match env.session
      case FetchFailed(_) => Rejection(StatusInternalServerError, "failed fetching sessions")
      case Missing => Rejection(StatusNotFound, "session not found")
      case Found(session) =>
        if session.userEmail != env.callerEmail then
          Rejection(StatusBadRequest, "only the creator can trigger this action")
        else if review.status != Approved then
          Rejection(StatusBadRequest, "review not approved or already executed")
        else
          match env.pluginConnections
          case None => Rejection(StatusInternalServerError, "failed retrieving review plugin")
          case Some(connections) =>
            if review.connectionName !in connections then
              Rejection(StatusUnprocessableEntity, "review plugin is not enabled for the connection " + review.connectionName)
            else
              match env.client
              case ClientFailed(message) => Decision(Reply(StatusBadRequest, ClientError(message)), None)
              case ClientReady(clientSessionId) =>
                match env.outcome
                case Completed(resp) =>
                  Decision(
                    if resp.isError then Reply(StatusBadRequest, ExecError(resp.sessionId, resp.errorMessage, resp.exitCode))
                    else Reply(StatusOK, ExecResult(resp)),
                    Some(review.(status := Executed)))
                case TimedOut =>
                  Decision(Reply(StatusAccepted, Async(clientSessionId)), Some(review.(status := Unknown)))
  }

  /** The whole handler, given whether the session id was already locked. */
  function Gate(env: GateEnv, locked: bool): (r: Decision)
    ensures r.persisted.Some? ==> TakesLock(env, locked)
  {
    if env.bindError.Some? then Decision(Reply(StatusBadRequest, BindError(env.sessionId, env.bindError.value)), None)
    else
      match env.review
      case FetchFailed(_) => Rejection(StatusInternalServerError, "failed retrieving review")
      case Missing => Rejection(StatusNotFound, "reviewed session not found")
      case Found(review) =>
        if locked then Rejection(StatusConflict, "the session " + env.sessionId + " is already being processed")
        else LockedStage(env, review)
  }

  /** Whether the handler gets as far as taking the lock. */
  predicate TakesLock(env: GateEnv, locked: bool)
  {
    env.bindError.None? && env.review.Found? && !locked
  }

  // ---------------------------------------------------------------------------
  // Reviewed execution: the precondition table

  /** The handler's rejections, as a table in the order they are checked. */
  datatype Check =
    | BadBody | ReviewLookupFailed | ReviewMissing | AlreadyLocked | NotOneTime
    | SessionLookupFailed | SessionMissing | NotOwner | NotApproved
    | PluginLookupFailed | PluginNotEnabled | ClientSetupFailed

  const CheckOrder: seq<Check> := [
    BadBody, ReviewLookupFailed, ReviewMissing, AlreadyLocked, NotOneTime,
    SessionLookupFailed, SessionMissing, NotOwner, NotApproved,
    PluginLookupFailed, PluginNotEnabled, ClientSetupFailed]

  /** Each check, stated on its own. */
  predicate Fails(check: Check, env: GateEnv, locked: bool)
  {
    match check
    case BadBody => env.bindError.Some?
    case ReviewLookupFailed => env.review.FetchFailed?
    case ReviewMissing => env.review.Missing?
    case AlreadyLocked => locked
    case NotOneTime => env.review.Found? && env.review.value.reviewType != ReviewTypeOneTime
    case SessionLookupFailed => env.session.FetchFailed?
    case SessionMissing => env.session.Missing?
    case NotOwner => env.session.Found? && env.session.value.userEmail != env.callerEmail
    case NotApproved => env.review.Found? && env.review.value.status != Approved
    case PluginLookupFailed => env.pluginConnections.None?
    case PluginNotEnabled =>
      env.review.Found? && env.pluginConnections.Some? && env.review.value.connectionName !in env.pluginConnections.value
    case ClientSetupFailed => env.client.ClientFailed?
  }

  function StatusFor(check: Check): int
  {
    match check
    case BadBody => StatusBadRequest
    case ReviewLookupFailed => StatusInternalServerError
    case ReviewMissing => StatusNotFound
    case AlreadyLocked => StatusConflict
    case NotOneTime => StatusNotFound
    case SessionLookupFailed => StatusInternalServerError
    case SessionMissing => StatusNotFound
    case NotOwner => StatusBadRequest
    case NotApproved => StatusBadRequest
    case PluginLookupFailed => StatusInternalServerError
    case PluginNotEnabled => StatusUnprocessableEntity
    case ClientSetupFailed => StatusBadRequest
  }

  function FirstFailure(checks: seq<Check>, env: GateEnv, locked: bool): Option<Check>
  {
    if |checks| == 0 then None
    else if Fails(checks[0], env, locked) then Some(checks[0])
    else FirstFailure(checks[1..], env, locked)
  }

  /** Precedence: the first failing check of the table decides the status, and nothing
      is persisted. */
  lemma RejectsAtFirstFailure(env: GateEnv, locked: bool)
    requires FirstFailure(CheckOrder, env, locked).Some?
    ensures Gate(env, locked).reply.code == StatusFor(FirstFailure(CheckOrder, env, locked).value)
    ensures Gate(env, locked).persisted == None
  {
    CheckOrderUnrolled(env, locked);
    if Gate(env, locked).persisted.Some? {
      PersistedOnlyWhenAllPass(env, locked);
    }
  }

  /** A review is persisted only when no check of the table fails. */
  lemma PersistedOnlyWhenAllPass(env: GateEnv, locked: bool)
    requires Gate(env, locked).persisted.Some?
    ensures FirstFailure(CheckOrder, env, locked).None?
  {
    CheckOrderUnrolled(env, locked);
  }

  /** When every check passes, the review is persisted as executed if the run completed
      first and as unknown if the timer fired first. */
  lemma RunsWhenAllChecksPass(env: GateEnv, locked: bool)
    requires FirstFailure(CheckOrder, env, locked).None?
    ensures env.review.Found?
    ensures Gate(env, locked).persisted ==
              Some(env.review.value.(status := if env.outcome.Completed? then Executed else Unknown))
  {
    NoFailureMeansAllPass(env, locked);
  }

  /** No failing check in the table: every precondition of the handler holds. */
  lemma NoFailureMeansAllPass(env: GateEnv, locked: bool)
    requires FirstFailure(CheckOrder, env, locked).None?
    ensures TakesLock(env, locked)
    ensures env.review.value.reviewType == ReviewTypeOneTime && env.review.value.status == Approved
    ensures env.session.Found? && env.session.value.userEmail == env.callerEmail
    ensures env.pluginConnections.Some? && env.review.value.connectionName in env.pluginConnections.value
    ensures env.client.ClientReady?
  {
    CheckOrderUnrolled(env, locked);
  }

  /** `FirstFailure` over the table, written out. */
  lemma CheckOrderUnrolled(env: GateEnv, locked: bool)
    ensures FirstFailure(CheckOrder, env, locked) ==
              if Fails(BadBody, env, locked) then Some(BadBody)
              else if Fails(ReviewLookupFailed, env, locked) then Some(ReviewLookupFailed)
              else if Fails(ReviewMissing, env, locked) then Some(ReviewMissing)
              else if Fails(AlreadyLocked, env, locked) then Some(AlreadyLocked)
              else if Fails(NotOneTime, env, locked) then Some(NotOneTime)
              else if Fails(SessionLookupFailed, env, locked) then Some(SessionLookupFailed)
              else if Fails(SessionMissing, env, locked) then Some(SessionMissing)
              else if Fails(NotOwner, env, locked) then Some(NotOwner)
              else if Fails(NotApproved, env, locked) then Some(NotApproved)
              else if Fails(PluginLookupFailed, env, locked) then Some(PluginLookupFailed)
              else if Fails(PluginNotEnabled, env, locked) then Some(PluginNotEnabled)
              else if Fails(ClientSetupFailed, env, locked) then Some(ClientSetupFailed)
              else None
  {
    var c := CheckOrder;
    assert c[1..] == [ReviewLookupFailed, ReviewMissing, AlreadyLocked, NotOneTime, SessionLookupFailed, SessionMissing, NotOwner, NotApproved, PluginLookupFailed, PluginNotEnabled, ClientSetupFailed];
    assert c[2..] == [ReviewMissing, AlreadyLocked, NotOneTime, SessionLookupFailed, SessionMissing, NotOwner, NotApproved, PluginLookupFailed, PluginNotEnabled, ClientSetupFailed];
    assert c[3..] == [AlreadyLocked, NotOneTime, SessionLookupFailed, SessionMissing, NotOwner, NotApproved, PluginLookupFailed, PluginNotEnabled, ClientSetupFailed];
    assert c[4..] == [NotOneTime, SessionLookupFailed, SessionMissing, NotOwner, NotApproved, PluginLookupFailed, PluginNotEnabled, ClientSetupFailed];
    assert c[5..] == [SessionLookupFailed, SessionMissing, NotOwner, NotApproved, PluginLookupFailed, PluginNotEnabled, ClientSetupFailed];
    assert c[6..] == [SessionMissing, NotOwner, NotApproved, PluginLookupFailed, PluginNotEnabled, ClientSetupFailed];
    assert c[7..] == [NotOwner, NotApproved, PluginLookupFailed, PluginNotEnabled, ClientSetupFailed];
    assert c[8..] == [NotApproved, PluginLookupFailed, PluginNotEnabled, ClientSetupFailed];
    assert c[9..] == [PluginLookupFailed, PluginNotEnabled, ClientSetupFailed];
    assert c[10..] == [PluginNotEnabled, ClientSetupFailed];
    assert c[11..] == [ClientSetupFailed];
    FirstFailureUnfold(c[0..], env, locked);
    FirstFailureUnfold(c[1..], env, locked);
    FirstFailureUnfold(c[2..], env, locked);
    FirstFailureUnfold(c[3..], env, locked);
    FirstFailureUnfold(c[4..], env, locked);
    FirstFailureUnfold(c[5..], env, locked);
    FirstFailureUnfold(c[6..], env, locked);
    FirstFailureUnfold(c[7..], env, locked);
    FirstFailureUnfold(c[8..], env, locked);
    FirstFailureUnfold(c[9..], env, locked);
    FirstFailureUnfold(c[10..], env, locked);
    FirstFailureUnfold(c[11..], env, locked);
    assert c[11..][1..] == [];
  }

  /** One step of `FirstFailure` over a non-empty table. */
  lemma FirstFailureUnfold(checks: seq<Check>, env: GateEnv, locked: bool)
    requires |checks| > 0
    ensures FirstFailure(checks, env, locked) ==
              if Fails(checks[0], env, locked) then Some(checks[0]) else FirstFailure(checks[1..], env, locked)
  {
  }

  /** A locked session id is answered 409 and nothing is persisted. */
  lemma LockedSessionConflicts(env: GateEnv)
    requires env.bindError.None? && env.review.Found?
    ensures Gate(env, true) == Rejection(StatusConflict, "the session " + env.sessionId + " is already being processed")
  {
  }

  /** A review that is not approved is never executed: the handler rejects it with 400
      or an earlier error, and persists nothing. */
  lemma UnapprovedReviewNeverRuns(env: GateEnv, locked: bool)
    requires env.review.Found? && env.review.value.status != Approved
    ensures Gate(env, locked).persisted == None
    ensures Gate(env, locked).reply.code != StatusOK && Gate(env, locked).reply.code != StatusAccepted
  {
  }

  /** Only the two terminal arms write, each exactly its own status; everything else about
      the review is kept. */
  lemma PersistedOnlyAtTheEnd(env: GateEnv, locked: bool)
    requires Gate(env, locked).persisted.Some?
    ensures TakesLock(env, locked) && env.pluginConnections.Some? && env.client.ClientReady?
    ensures var p := Gate(env, locked).persisted.value;
            p == env.review.value.(status := p.status) && env.review.value.status == Approved &&
            (p.status == Executed <==> env.outcome.Completed?) &&
            (p.status == Unknown <==> env.outcome.TimedOut?)
  {
  }

  /** The timed-out arm answers 202 with the client's session id and no exit code. */
  lemma TimeoutAnswersAccepted(env: GateEnv, locked: bool)
    requires FirstFailure(CheckOrder, env, locked).None? && env.outcome.TimedOut?
    ensures env.client.ClientReady?
    ensures Gate(env, locked).reply == Reply(StatusAccepted, Async(env.client.sessionId))
  {
    NoFailureMeansAllPass(env, locked);
  }

  /** The completed arm answers 400 with the run's session id, error message and exit
      code when the run reports an error, and 200 with the response otherwise. */
  lemma CompletedAnswers(env: GateEnv, locked: bool)
    requires FirstFailure(CheckOrder, env, locked).None? && env.outcome.Completed?
    ensures var resp := env.outcome.resp;
            Gate(env, locked).reply ==
              if resp.isError then Reply(StatusBadRequest, ExecError(resp.sessionId, resp.errorMessage, resp.exitCode))
              else Reply(StatusOK, ExecResult(resp))
  {
    NoFailureMeansAllPass(env, locked);
  }

  // ---------------------------------------------------------------------------
  // Reviewed execution: the handler

  /** The loop over the review plugin's connections. */
  method HasReviewPlugin(connections: seq<string>, name: string) returns (found: bool)
    ensures found <==> name in connections
  {
    found := false;
    var i := 0;
    while i < |connections|
      invariant 0 <= i <= |connections|
      invariant name !in connections[..i]
    {
      if connections[i] == name {
        found := true;
        break;
      }
      i := i + 1;
    }
    assert !found ==> connections[..i] == connections;
  }

  /** What `RunReviewedExec` does after `lockExec`, until the deferred `unlockExec`:
      it runs only while the session's id is held in the registry, and records that it ran
      in the registry's history. */
  method ExecLocked(registry: ExecLockRegistry, env: GateEnv, review: Review) returns (reply: Reply, persisted: Option<Review>)
    requires env.sessionId in registry.held
    modifies registry`ops
    ensures Decision(reply, persisted) == LockedStage(env, review)
    ensures registry.ops == old(registry.ops) + [RanOp(env.sessionId)]
  {
    registry.ops := registry.ops + [RanOp(env.sessionId)];
    persisted := None;
    if review.reviewType != ReviewTypeOneTime {
      return Reply(StatusNotFound, ErrorMessage("session not found")), None;
    }
    if env.session.FetchFailed? {
      return Reply(StatusInternalServerError, ErrorMessage("failed fetching sessions")), None;
    }
    if env.session.Missing? {
      return Reply(StatusNotFound, ErrorMessage("session not found")), None;
    }
    var session := env.session.value;
    if session.userEmail != env.callerEmail {
      return Reply(StatusBadRequest, ErrorMessage("only the creator can trigger this action")), None;
    }
    if review.status != Approved {
      return Reply(StatusBadRequest, ErrorMessage("review not approved or already executed")), None;
    }
    if env.pluginConnections.None? {
      return Reply(StatusInternalServerError, ErrorMessage("failed retrieving review plugin")), None;
    }
    var hasReviewPlugin := HasReviewPlugin(env.pluginConnections.value, review.connectionName);
    if !hasReviewPlugin {
      var errMsg := "review plugin is not enabled for the connection " + review.connectionName;
      return Reply(StatusUnprocessableEntity, ErrorMessage(errMsg)), None;
    }
    if env.client.ClientFailed? {
      return Reply(StatusBadRequest, ClientError(env.client.message)), None;
    }
    var updated := review;
    match env.outcome {
      case Completed(resp) =>
        updated := updated.(status := Executed);
        persisted := Some(updated);
        if resp.isError {
          reply := Reply(StatusBadRequest, ExecError(resp.sessionId, resp.errorMessage, resp.exitCode));
        } else {
          reply := Reply(StatusOK, ExecResult(resp));
        }
      case TimedOut =>
        updated := updated.(status := Unknown);
        persisted := Some(updated);
        reply := Reply(StatusAccepted, Async(env.client.sessionId));
    }
  }

  /** `RunReviewedExec`: answers as `Gate` decides for the lock state it finds. When it
      gets past the lock check it locks the session's id, runs the locked stage (which
      demands the id is held) and unlocks it, and that is all it does with the registry;
      otherwise it does nothing with it. Either way the registry ends as it was found. */
  method RunReviewedExec(registry: ExecLockRegistry, env: GateEnv) returns (reply: Reply, persisted: Option<Review>)
    modifies registry
    ensures Decision(reply, persisted) == Gate(env, env.sessionId in old(registry.held))
    ensures registry.ops == old(registry.ops) +
              if TakesLock(env, env.sessionId in old(registry.held))
              then [LockOp(env.sessionId), RanOp(env.sessionId), UnlockOp(env.sessionId)]
              else []
    ensures registry.held == old(registry.held)
  {
    if env.bindError.Some? {
      return Reply(StatusBadRequest, BindError(env.sessionId, env.bindError.value)), None;
    }
    if env.review.FetchFailed? {
      return Reply(StatusInternalServerError, ErrorMessage("failed retrieving review")), None;
    }
    if env.review.Missing? {
      return Reply(StatusNotFound, ErrorMessage("reviewed session not found")), None;
    }
    var review := env.review.value;
    var isLocked := registry.IsLocked(env.sessionId);
    if isLocked {
      var errMsg := "the session " + env.sessionId + " is already being processed";
      return Reply(StatusConflict, ErrorMessage(errMsg)), None;
    }
    registry.Lock(env.sessionId);
    reply, persisted := ExecLocked(registry, env, review);
    registry.Unlock(env.sessionId);
  }
}
