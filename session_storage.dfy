/** The session storage front (gateway/storagev2/session): reading one session with its
    non-indexed events merged into the event stream, and listing sessions with the
    listing options passed through and each fetched row projected to a session whose
    script and streams are blanked. The relational store behind it (`FetchOne`,
    `FetchAll`) is an input. */
module SessionStorage {
  import opened Types

  /** The stream key under which the store keeps the events not indexed with the session. */
  const NonIndexedStreamKey: string := "stream"

  /** The entries `FindOne` appends: those under the stream key, none when the session
      has no non-indexed streams or none under that key (a nil map or a missing key reads
      as an empty list). */
  function NonIndexedEntries(s: Session): seq<Event>
  {
    match s.nonIndexedStream
    case None => []
    case Some(streams) =>
      if NonIndexedStreamKey in streams then streams[NonIndexedStreamKey] else []
  }

  /** Reads one session (`FindOne`). A fetch error is returned as it is, a missing session
      stays missing, and a found session comes back with the non-indexed entries appended,
      in order, after its own event stream; nothing else in the record changes. */
  method FindOne(fetched: Fetched<Session>) returns (r: Fetched<Session>)
    ensures fetched.FetchFailed? ==> r == fetched
    ensures fetched.Missing? ==> r.Missing?
    ensures fetched.Found? ==> r.Found?
    ensures fetched.Found? ==>
      var s := fetched.value;
      && |r.value.eventStream| == |s.eventStream| + |NonIndexedEntries(s)|
      && r.value.eventStream[..|s.eventStream|] == s.eventStream
      && r.value.eventStream[|s.eventStream|..] == NonIndexedEntries(s)
      && r.value == s.(eventStream := r.value.eventStream)
    ensures fetched.Found? && fetched.value.nonIndexedStream.None? ==> r == fetched
  {
    match fetched {
      case FetchFailed(_) =>
        return fetched;
      case Missing =>
        return Missing;
      case Found(s) =>
        var sess := s;
        if sess.nonIndexedStream.Some? {
          var entries := NonIndexedEntries(sess);
          var i := 0;
          while i < |entries|
            invariant 0 <= i <= |entries|
            invariant sess == s.(eventStream := s.eventStream + entries[..i])
          {
            sess := sess.(eventStream := sess.eventStream + [entries[i]]);
            assert entries[..i + 1] == entries[..i] + [entries[i]];
            i := i + 1;
          }
          assert entries[..i] == entries;
        }
        assert sess.eventStream[..|s.eventStream|] == s.eventStream;
        return Found(sess);
    }
  }

  /** A listing option as the store takes it: the key converted to the store's key type,
      the value passed through. */
  datatype PgOption = PgOption(key: string, value: OptionValue)

  /** The store's errors: `ErrNotFound`, or any other failure. */
  datatype PgError = ErrNotFound | PgFailure(message: string)

  /** A fetched session row. The getters the projection calls (blob stream size, redact
      count, creation and end times) are read as fields. */
  datatype PgSession = PgSession(
    id: string,
    orgId: string,
    labels: map<string, string>,
    userEmail: string,
    userId: string,
    userName: string,
    connectionType: string,
    connection: string,
    verb: string,
    status: string,
    redactCount: int,
    blobStreamSize: int,
    createdAt: Time,
    endedAt: Option<Time>)

  datatype PgSessionList = PgSessionList(total: int, hasNextPage: bool, rows: seq<PgSession>)

  datatype FetchAllResult = FetchAllFailed(error: PgError) | FetchedAll(list: PgSessionList)

  /** The listing handed back to the API. */
  datatype SessionList = SessionList(total: int, hasNextPage: bool, items: seq<Session>)

  /** The script shown for every listed session: only an empty "data" entry. */
  const ListedScript: map<string, string> := map["data" := ""]

  /** The session a fetched row is listed as. */
  function Project(row: PgSession): (item: Session)
    ensures ListedFrom(item, row)
  {
    Session(
      id := row.id,
      orgId := row.orgId,
      script := ListedScript,
      labels := row.labels,
      userEmail := row.userEmail,
      userId := row.userId,
      userName := row.userName,
      sessionType := row.connectionType,
      connection := row.connection,
      verb := row.verb,
      status := row.status,
      dlpCount := row.redactCount,
      eventStream := [],
      nonIndexedStream := None,
      eventSize := row.blobStreamSize,
      startSession := row.createdAt,
      endSession := row.endedAt)
  }

  /** Lists sessions (`List`). The options are handed to the store one to one, in order;
      `sent` is what the store received. A not-found error lists nothing, any other error
      is returned; otherwise the totals are copied and every fetched row becomes one item,
      in the same order, carrying the row's identity, owner and connection, with the
      script reduced to an empty "data" entry and no event streams. */
  method List(opts: seq<SessionOption>, fetchAll: seq<PgOption> -> FetchAllResult)
    returns (sent: seq<PgOption>, r: Fetched<SessionList>)
    ensures |sent| == |opts|
    ensures forall i :: 0 <= i < |opts| ==> sent[i].key == opts[i].key && sent[i].value == opts[i].value
    ensures fetchAll(sent) == FetchAllFailed(ErrNotFound) ==> r.Missing?
    ensures fetchAll(sent).FetchAllFailed? && fetchAll(sent).error.PgFailure? ==>
              r == FetchFailed(fetchAll(sent).error.message)
    ensures fetchAll(sent).FetchedAll? ==> r.Found?
    ensures fetchAll(sent).FetchedAll? ==>
      var list := fetchAll(sent).list;
      && r.value.total == list.total
      && r.value.hasNextPage == list.hasNextPage
      && |r.value.items| == |list.rows|
      && forall i :: 0 <= i < |list.rows| ==> ListedFrom(r.value.items[i], list.rows[i])
  {
    sent := [];
    var k := 0;
    while k < |opts|
      invariant 0 <= k <= |opts|
      invariant |sent| == k
      invariant forall i :: 0 <= i < k ==> sent[i] == PgOption(opts[i].key, opts[i].value)
    {
      sent := sent + [PgOption(opts[k].key, opts[k].value)];
      k := k + 1;
    }
    match fetchAll(sent) {
      case FetchAllFailed(err) =>
        if err == ErrNotFound {
          r := Missing;
        } else {
          r := FetchFailed(err.message);
        }
      case FetchedAll(list) =>
        var items: seq<Session> := [];
        var j := 0;
        while j < |list.rows|
          invariant 0 <= j <= |list.rows|
          invariant |items| == j
          invariant forall i :: 0 <= i < j ==> items[i] == Project(list.rows[i])
        {
          items := items + [Project(list.rows[j])];
          j := j + 1;
        }
        r := Found(SessionList(list.total, list.hasNextPage, items));
    }
  }

  /** How a listed item relates to the row it comes from: identity, owner, connection,
      status and sizes copied, the script blanked and no event streams. */
  predicate ListedFrom(item: Session, row: PgSession)
  {
    && item.id == row.id && item.orgId == row.orgId && item.labels == row.labels
    && item.userEmail == row.userEmail && item.userId == row.userId && item.userName == row.userName
    && item.sessionType == row.connectionType && item.connection == row.connection
    && item.verb == row.verb && item.status == row.status
    && item.dlpCount == row.redactCount && item.eventSize == row.blobStreamSize
    && item.startSession == row.createdAt && item.endSession == row.endedAt
    && item.script == ListedScript
    && item.eventStream == [] && item.nonIndexedStream.None?
  }
}
