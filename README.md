# hoop gateway: reviewed execution, stream authentication and session storage

This project models three parts of the hoop gateway in Dafny and proves properties of
them.

- **Session HTTP API** (`gateway/session/api.go`, module `SessionApi`):
  - the listing options `FindAll` builds from the query string;
  - `getAccessToken`;
  - the process-wide execution lock registry (`lockExec`, `unlockExec`, `isLockedForExec`);
  - `RunReviewedExec`. It is meant to run the command of an approved one-time review at
    most once, under a per-session lock, and records the review as `executed` or
    `unknown`. The source does not guarantee "at most once" across calls, and the model
    proves nothing across calls: the check and the lock are two separate steps, and a
    review whose new status fails to be stored stays approved (both under "## Left out").
- **gRPC stream authenticator** (`gateway/transport/interceptors.go`, module `Transport`):
  - `parseBearerToken`;
  - the scheme classification and error kinds of `AuthGrpcInterceptor`;
  - the three-stage `getUserInfo` decoding;
  - the cached `wrappedStream.Context`;
  - `parseAuthContextInto` and `parseToLegacyUserContext`.
- **Session storage front** (`gateway/storagev2/session/session.go`, module `SessionStorage`):
  - `FindOne`, which merges the non-indexed events into the event stream;
  - `List`, which passes the options through and projects fetched rows.

Supporting modules:

- `Types` holds the shared session record and the three-way outcome of a lookup: error,
  nil, or found.
- `GoStrings` models `strings.Split` and `strings.HasPrefix`, with `Join` as the inverse
  of `Split`.
- `Base64` models the decoder of section 4 of RFC 4648 as Go's
  `base64.StdEncoding.DecodeString` applies it:
  - carriage returns and line feeds are skipped;
  - padding is required;
  - unused low bits are tolerated.

  It also defines an encoder, so the round trip can be stated.

The collaborators are inputs. These are the storage services, the plugin service, the
command execution client, the admin-key check, the agent and user lookups, DSN
validation, the token exchange, the JSON decoder, `time.Parse` and `strconv.Atoi`. Each is
a function-typed parameter or a value in the handler's environment (`GateEnv`,
`Validators`, `QueryParsers`, `fetchAll`). The race between the command run and the
50-second timer is an input too: `RunOutcome` is `Completed(resp)` or `TimedOut`.

`RunReviewedExec` is specified twice:

- `Gate` is a pure decision function.
- `CheckOrder` is an independent table of the handler's rejections, listed in the order
  the handler checks them. `Fails` gives each check's condition and `StatusFor` its
  status.

The lemmas tie the two together. The method is then proved to answer as `Gate` does, to
leave the lock registry as it found it, and to do with the registry exactly this when it
gets past the lock check: lock the session id, run the locked stage (which requires the
id to be held), unlock it. A ghost history of registry operations records this.

`parseAuthContextInto` is modelled as the code behaves. A destination of another
recognised type than the stored value makes the unchecked type assertion `into.(*T)`
panic (`TypeAssertionPanic`); the call does not return Unauthenticated. Unauthenticated
is returned only for a stored value of an unrecognised type.

## Model

| member | source | states |
|---|---|---|
| SessionApi.QueryOption | gateway/session/api.go:134-154 | a key yields an option iff it is in the query and is not the user filter of a non-admin; the option carries that key |
| SessionApi.RequestedKeys | gateway/session/api.go:133-134 | the keys that yield options are exactly those present in the query and allowed for the caller |
| SessionApi.QueryOptions | gateway/session/api.go:132-156 | the options built from the query: at most one per available key, each for a key that is present and allowed for the caller |
| SessionApi.QueryOptionsFollowKeys | gateway/session/api.go:132-156 | one option per requested key, in the order of the available keys |
| SessionApi.NoQueryUserOptionForNonAdmin | gateway/session/api.go:145-149 | a non-admin never gets a user option from the query |
| SessionApi.UnparseableOptionKept | gateway/session/api.go:137-144 | a date or page number that does not parse still adds its option, with a nil value |
| SessionApi.FindAllOptions | gateway/session/api.go:132-159 | the query options in the order of the available keys (api.go:59-63), then, for a non-admin only, the caller's own user option, which comes last and is the only user option |
| SessionApi.GetAccessToken | gateway/session/api.go:171-178 | the token returned never contains a space |
| SessionApi.GetAccessTokenWithoutSpace | gateway/session/api.go:173-177 | a header without a space gives "" |
| SessionApi.GetAccessTokenSecondPiece | gateway/session/api.go:173-175 | the token is the text between the first space and the next space or the end, whatever the scheme word |
| SessionApi.ExecLockRegistry.constructor | gateway/session/api.go:328 | the registry starts empty |
| SessionApi.ExecLockRegistry.Lock | gateway/session/api.go:330-334 | afterwards the id is held, and no other id's membership changes; the lock is recorded in the registry's history |
| SessionApi.ExecLockRegistry.Unlock | gateway/session/api.go:336-340 | afterwards the id is free; unlocking a free id changes nothing; no other id's membership changes; the unlock is recorded in the registry's history |
| SessionApi.ExecLockRegistry.IsLocked | gateway/session/api.go:342-347 | true iff the id is held |
| SessionApi.LockedStage | gateway/session/api.go:220-323 | the decision under the lock: a review is persisted only when it was approved and a client was created, with only its status changed, to executed iff the run finished first and to unknown iff the timer fired; a 200 or 202 answer always persists the review |
| SessionApi.Gate | gateway/session/api.go:181-325 | the handler's decision given the lock state it finds: a review is persisted only when the body bound, the review was found and the session id was not locked |
| SessionApi.RejectsAtFirstFailure | gateway/session/api.go:188-276 | the first failing check in the handler's order decides the status, and nothing is persisted |
| SessionApi.PersistedOnlyWhenAllPass | gateway/session/api.go:188-276 | a review is persisted only when no check in the handler's order fails |
| SessionApi.NoFailureMeansAllPass | gateway/session/api.go:188-276 | when no check in the table fails, the lock is taken and every precondition holds: one-time type, the caller owns the session, approved, plugin enabled, client created |
| SessionApi.RunsWhenAllChecksPass | gateway/session/api.go:292-323 | when every check passes, the review is persisted as executed if the run finished first, and as unknown if the timer fired first |
| SessionApi.CheckOrderUnrolled | gateway/session/api.go:188-276 | the first failure of the table, written out check by check |
| SessionApi.LockedSessionConflicts | gateway/session/api.go:209-213 | a session id already held is answered 409 and nothing is persisted |
| SessionApi.UnapprovedReviewNeverRuns | gateway/session/api.go:239-242 | a review that is not approved is never run and never persisted |
| SessionApi.PersistedOnlyAtTheEnd | gateway/session/api.go:292-323 | a review is persisted only on the two terminal arms, after every check passed; only its status changes, to executed iff the run finished first and to unknown iff the timer fired |
| SessionApi.TimeoutAnswersAccepted | gateway/session/api.go:310-323 | the timer arm answers 202 with the client's session id and no exit code |
| SessionApi.CompletedAnswers | gateway/session/api.go:293-309 | the completed arm answers 400 with the run's session id, error message and exit code when the run reports an error, and 200 with the response otherwise |
| SessionApi.HasReviewPlugin | gateway/session/api.go:249-255 | true iff the review's connection name is among the plugin's connections |
| SessionApi.ExecLocked | gateway/session/api.go:220-323 | runs only while the session id is held in the registry, records that it ran in the registry's history, and answers and persists as the locked stage of the decision |
| SessionApi.RunReviewedExec | gateway/session/api.go:181-325 | answers and persists as the decision for the lock state it finds; the registry's history grows by exactly lock, locked stage, unlock of the session id when it gets past the lock check, and by nothing otherwise; the registry afterwards equals the registry before, because the lock is released on every path after it is taken |
| Transport.ParseBearerToken | gateway/transport/interceptors.go:173-195 | every failure is the same Unauthenticated status; a token returned is non-empty and has no space |
| Transport.DevProfileToken | gateway/transport/interceptors.go:174-180 | in the development profile the metadata is ignored; agents get "x-agt-test-token", everyone else "x-hooper-test-token" |
| Transport.ParseBearerTokenSound | gateway/transport/interceptors.go:181-194 | outside the development profile, a parsed token t means the first authorization value is exactly "Bearer " + t |
| Transport.ParseBearerTokenComplete | gateway/transport/interceptors.go:181-194 | round trip: "Bearer " + t parses to t for every non-empty t without spaces |
| Transport.GetUserInfo | gateway/transport/interceptors.go:155-171 | a missing user-info value is its own error, and every error is Unauthenticated |
| Transport.UserInfoRoundTrip | gateway/transport/interceptors.go:160-170 | the base64 of a JSON document decodes back to what the JSON document holds |
| Transport.UserInfoStages | gateway/transport/interceptors.go:160-169 | invalid base64 fails as such, whatever the JSON decoder says; valid base64 with invalid JSON fails as JSON |
| Transport.Classify | gateway/transport/interceptors.go:94-139 | the chosen scheme's condition holds for the call, and an admin key prefix always selects the admin scheme |
| Transport.ClassifyIsFirstClaim | gateway/transport/interceptors.go:94-150 | the chosen scheme is the first of admin key, agent key, legacy client user agent and access token whose condition holds |
| Transport.Resolve | gateway/transport/interceptors.go:96-149 | an accepted call carries the identity kind of its scheme; a rejection is Internal iff DSN validation failed, and is never InvalidArgument |
| Transport.UnknownTokenRejected | gateway/transport/interceptors.go:139-144 | a token the exchange rejects is Unauthenticated |
| Transport.ScrubbedRejections | gateway/transport/interceptors.go:114-136 | the authorization value is deleted on a rejection exactly for the agent scheme and for a client key rejected as Unauthenticated; a rejected admin key or access token keeps it |
| Transport.AuthGrpcInterceptor | gateway/transport/interceptors.go:73-153 | missing metadata or origin fails with InvalidArgument before any token parsing, and a missing origin deletes the authorization value; otherwise the token error, then the scheme's own error; the handler runs once, only on success, with that scheme's identity |
| Transport.WrappedStream.constructor | gateway/transport/interceptors.go:152 | the wrapped stream starts with no cached context |
| Transport.WrappedStream.Context | gateway/transport/interceptors.go:35-49 | a cached context is returned unchanged; with no value or no incoming metadata, the original context is returned and nothing is cached; otherwise the derived context carries the value and the metadata, and is cached |
| Transport.ParseAuthContextInto | gateway/transport/interceptors.go:51-71 | a nil context or a missing value is Internal; a copy is the stored value, of the requested kind |
| Transport.ParseAuthContextMismatch | gateway/transport/interceptors.go:59-69 | an unrecognised stored type is Unauthenticated; a recognised type other than the requested one panics |
| Transport.HandledIdentityReadable | gateway/transport/interceptors.go:59-65 | the identity a successful interception attaches is copied out by a request for its own kind |
| Transport.ParseToLegacyUserContext | gateway/transport/interceptors.go:197-213 | the org id is both the org's id and the user's org; the email is copied |
| Transport.LegacyUserContextInjective | gateway/transport/interceptors.go:197-213 | no modelled field is lost: equal legacy contexts come from equal API contexts (the API context keeps only the eight fields the mapping copies) |
| GoStrings.Split | gateway/transport/interceptors.go:188 | at least one piece, and no piece contains the separator |
| GoStrings.JoinSplit | gateway/transport/interceptors.go:188 | joining the pieces gives the original string |
| GoStrings.SplitJoin | gateway/transport/interceptors.go:188 | separator-free pieces, joined and split again, come back unchanged |
| GoStrings.SplitWithoutSeparator | gateway/session/api.go:173 | a string without the separator is a single piece |
| GoStrings.SplitAtFirst | gateway/session/api.go:173 | the first separator ends the first piece |
| Base64.CharSextet | gateway/transport/interceptors.go:160 | a character's value is the inverse of the alphabet, and padding has no value |
| Base64.CharOfSextet | gateway/transport/interceptors.go:160 | every sextet's character decodes back to it |
| Base64.StripLineBreaks | gateway/transport/interceptors.go:160 | the decoder's input after skipping line breaks has none left |
| Base64.Decode | gateway/transport/interceptors.go:160 | a decoded value has at most three bytes per four input characters |
| Base64.DecodeQuanta | gateway/transport/interceptors.go:160 | only whole quanta decode, to at most three bytes each |
| Base64.Encode | gateway/transport/interceptors.go:160 | encoded text comes in whole quanta, without line breaks |
| Base64.StripWithoutLineBreaks | gateway/transport/interceptors.go:160 | text without line breaks passes through unchanged |
| Base64.QuantumRoundTrip | gateway/transport/interceptors.go:160 | a full quantum decodes to its three bytes |
| Base64.OnePaddedRoundTrip | gateway/transport/interceptors.go:160 | a "xx==" quantum decodes to its byte |
| Base64.TwoPaddedRoundTrip | gateway/transport/interceptors.go:160 | a "xxx=" quantum decodes to its two bytes |
| Base64.DecodeQuantaStep | gateway/transport/interceptors.go:160 | a quantum followed by more text is decoded as a non-final quantum |
| Base64.DecodeQuantaEncode | gateway/transport/interceptors.go:160 | round trip, before line-break skipping |
| Base64.DecodeEncode | gateway/transport/interceptors.go:160 | round trip: decoding what was encoded gives the bytes back |
| Base64.DecodeIgnoresLineBreak | gateway/transport/interceptors.go:160 | a line feed or carriage return anywhere in the input does not change the result |
| Base64.StripSplit | gateway/transport/interceptors.go:160 | line-break skipping distributes over concatenation |
| SessionStorage.FindOne | gateway/storagev2/session/session.go:25-40 | a fetch error is returned as is, and a missing session stays missing; a found session gets the entries under "stream" appended, in order, after its own events, and nothing else changes; with no non-indexed streams it is returned unchanged |
| SessionStorage.Project | gateway/storagev2/session/session.go:67-85 | the listed item has the row's identity, owner, connection, status, sizes and times, a script reduced to an empty "data" entry, and no event streams |
| SessionStorage.List | gateway/storagev2/session/session.go:46-88 | options reach the store one to one, in order, with key and value; not-found lists nothing, and any other error is returned; the totals are copied, and each row becomes one item in order, with identity, owner, connection, status and times copied, the script reduced to an empty "data" entry and no event streams |

## Left out

- The goroutine, the channel and the 50-second timer of `RunReviewedExec`
  (gateway/session/api.go:278-292, 310) are not modelled. They are concurrency and wall-clock
  time, so which arm wins is the input `RunOutcome`. Closing the client is not modelled.
  `RunOutcome` cannot express a third ending. `client.Run` finishes before the
  non-blocking send (api.go:282-285), so if the handler has not reached its `select` yet,
  the result is dropped. `close(clientResp)` then hands the handler a nil response: it
  persists `executed` (api.go:294-295) and then dereferences nil at `resp.Truncated`
  (api.go:299).
- The registry mutex `syncMutexExecMap` is not modelled. The registry operations are
  taken one at a time. The gap between the check and the lock (api.go:209-217) is modelled
  as written, as two calls, and is not claimed race-free: two concurrent requests can
  both pass the check and both run the command.
- SessionApi.RunReviewedExec: a review that `PersistReview` fails to store
  (api.go:295-297, 319-321) is not an input. The failure is only logged, so the reply is
  the same either way. The model states which review is handed to `PersistReview`. When
  the store fails after a run, the stored review stays approved, so a later request
  passes the status check (api.go:239) and runs the command again.
- The `Location` header (api.go:290), logging, and `sentry.CaptureException` are left out.
- The error test at api.go:266-269 is not modelled. It looks at the plugin lookup's error, which
  is already nil at that point, so it is dead code.
- A plugin lookup that returns no plugin and no error would make the handler read
  `p.Connections` from a nil plugin. The plugin service is not part of this model, so its
  lookup is modelled as an error or a list of connection names.
- `clientexec.New` failing (api.go:272-276, status 400) is an input (`ClientSetup`).
  The request's command, environment and arguments are not modelled, because only the
  client uses them.
- The `StatusHistory` handler is left out, as is the review-field copy of the `FindOne`
  handler; both are pass-throughs. So are `Put`, `FindReviewBySID` and
  `ListAllSessionsID`.
- `json.Unmarshal`, `time.Parse(time.RFC3339, _)` and `strconv.Atoi` are partial functions
  given as inputs; they are not re-implemented.
- `mdget` is not part of this model. The user agent is taken as the first value of the
  `user-agent` key, or "" when there is none.
- `adminapi.PrefixAuthKey`, `pb.DevProfile` and `pb.ConnectionOriginAgent` are constants
  defined outside this core. They are fields of `Protocol`.
- The validators are not modelled: `adminapi.Authenticate`,
  `AgentService.FindByToken`, `ValidateDSN`, `exchangeUserToken` and
  `UserService.FindBySub`. Their answers are the inputs in `Validators`.
- The other fields of the API context, agent and client key types are not modelled.
  Only the fields this core copies are kept.
- A context is reduced to the authenticator's stored value and the incoming metadata.
  Context chaining and the metadata deep copy (`md.Copy()`) are not modelled.
- Transport.AuthGrpcInterceptor: logging is left out. The metadata at return is kept,
  because the authorization value is deleted from it before the missing-origin, agent and
  unknown client key paths print it (interceptors.go:82, 117, 133). The malformed-header
  path is not scrubbed: `parseBearerToken` prints the metadata with the authorization
  value still in it (interceptors.go:190), and the model keeps it there.
- A `UserService.FindBySub` answer with neither a user context nor an error would make
  the interceptor read `userCtx.User` from a nil pointer (interceptors.go:145-146). The user
  service is not part of this model, so its answer is an error or a profile, with or
  without a user record.
- Go's nil slices and maps are not told apart from empty ones. For example, a listing
  with no rows gives an empty item list where Go gives a nil slice.
- The getters on fetched rows are not modelled: `GetBlobStream`, `GetRedactCount`,
  `GetCreatedAt` and `GetEndedAt`. They are read as row fields (`blobStreamSize`,
  `redactCount`, `createdAt`, `endedAt`).
- A fetch that returns neither a list nor an error is not modelled, since the store
  is not part of this model.
- SessionStorage.FindOne works on the session value. The pointer the store returns is
  not modelled, and neither is the aliasing of its in-place update.
