/** Values shared by the gateway's session API, its session storage and the stream
    authenticator: optional values, the three-way outcome of a storage lookup, and the
    session record with its listing options. */
module Types {

  datatype Option<T> = None | Some(value: T)

  /** Outcome of a lookup that returns `(*T, error)` in the gateway:
      an error, a nil record, or the record. */
  datatype Fetched<T> = FetchFailed(err: string) | Missing | Found(value: T)

  /** An instant; clocks and calendars are outside the model. */
  type Time = int

  /** One serialized entry of a session's event stream. */
  type Event = string

  /** The value of a session listing option: nil, a string, a page number or an instant. */
  datatype OptionValue = NilValue | TextValue(text: string) | IntValue(n: int) | TimeValue(t: Time)

  /** A listing filter, a key such as "user" or "limit" with its value. */
  datatype SessionOption = SessionOption(key: string, value: OptionValue)

  /** The session record (types.Session) as the gateway reads and lists it. */
  datatype Session = Session(
    id: string,
    orgId: string,
    script: map<string, string>,
    labels: map<string, string>,
    userEmail: string,
    userId: string,
    userName: string,
    sessionType: string,
    connection: string,
    verb: string,
    status: string,
    dlpCount: int,
    eventStream: seq<Event>,
    nonIndexedStream: Option<map<string, seq<Event>>>,
    eventSize: int,
    startSession: Time,
    endSession: Option<Time>)
}
