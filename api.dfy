/**
 * The shapes of what the authentication and event services resolve or reject
 * with. The services themselves are thin wrappers over an HTTP client; their
 * outcomes enter the model as parameters of the flows that await them.
 */
module Api {
  import opened Js

  /** The `user` object of a successful login response. */
  datatype User = User(id: int, name: string, email: string)

  /** `error.response.data` of a rejected request. */
  datatype ErrorBody = ErrorBody(error: Option<string>)

  /** `error.response` of a rejected request: an HTTP status and a JSON body, either possibly missing. */
  datatype ErrorResponse = ErrorResponse(status: Option<int>, data: Option<ErrorBody>)

  /** What a rejected service call throws; a network failure has no `response`. */
  datatype Failure = Failure(response: Option<ErrorResponse>)

  /** `error?.response?.status` */
  function StatusOf(f: Failure): Option<int> {
    if f.response.Some? then f.response.value.status else None
  }

  /** `error?.response?.data?.error` */
  function ErrorTextOf(f: Failure): Option<string> {
    if f.response.Some? && f.response.value.data.Some? then f.response.value.data.value.error else None
  }

  /** Outcome of `login(email, password)`. */
  datatype LoginResult = LoggedIn(user: User, token: string) | LoginRejected(failure: Failure)

  /** Outcome of `register(name, email, password)`. */
  datatype RegisterResult = Registered | RegisterRejected(failure: Failure)

  /** An event as the API lists it; `date` is the instant in milliseconds. */
  datatype EventItem = EventItem(
    id: int, title: string, description: string, location: string, date: int, userId: int)

  /** The editable fields of an event, as sent to `updateEvent` and used to pre-fill the form. */
  datatype EventFields = EventFields(title: string, description: string, location: string, date: int)

  /** The body sent to `createEvent`: the fields plus the owner's id. */
  datatype EventData = EventData(fields: EventFields, userId: int)

  /** Outcome of `getEvents()`. */
  datatype FetchResult = Fetched(items: seq<EventItem>) | FetchRejected

  /** Outcome of `createEvent`, `updateEvent` or `deleteEvent`, whose values the pages ignore. */
  datatype CallResult = Resolved | Rejected
}
