/** Values shared by the batch coordinator of packages/core-data/src/controls.js. */
module BatchTypes {

  /** BATCH_SIZE: at most this many sub-requests go into one bulk call. */
  const BATCH_SIZE: nat := 20

  /** The bulk endpoint, its HTTP method and the validation mode sent with every chunk. */
  const BATCH_PATH: string := "/__experimental/batch"
  const BATCH_METHOD: string := "POST"
  const VALIDATION: string := "require-all-validate"

  datatype Option<T> = None | Some(value: T)

  datatype Result<T, E> = Ok(value: T) | Err(error: E)

  /** An opaque JSON value (a request's `data`, a response's `body`), kept as its text. */
  type Payload = string

  type Headers = map<string, string>

  /** A request descriptor as callers enqueue it: `path`, `data`, `headers` and `parse`.
      An absent property is `None`. */
  datatype Request = Request(path: string, data: Option<Payload>, headers: Option<Headers>, parse: Option<bool>)

  /** `request.parse === false`: the caller asked for a raw response object. */
  predicate WantsRaw(r: Request) {
    r.parse == Some(false)
  }

  /** The sub-request that is sent to the bulk endpoint for one enqueued request. */
  datatype SubRequest = SubRequest(path: string, body: Option<Payload>, headers: Option<Headers>)

  /** One entry of a bulk response's `responses` list. */
  datatype SubResponse = SubResponse(status: int, body: Payload, headers: Headers)

  /** What a request's promise is settled with: the parsed body, or a response object
      carrying status, headers and body (raw mode). */
  datatype SettledValue = Body(body: Payload) | RawResponse(status: int, headers: Headers, body: Payload)

  /** The state of a request's promise; a promise settles at most once. */
  datatype Settlement = Pending | Resolved(value: SettledValue) | Rejected(value: SettledValue)

  /** `{ resolve, reject, request }`: the stored request and the promise it settles. */
  datatype Entry = Entry(request: Request, slot: Settlement)

  datatype State = Waiting | InFlight | Completed

  /** The contents of one `BATCHES[batchId]` object. */
  datatype BatchState = BatchState(requests: seq<Entry>, state: State)

  /** What one bulk call yields: a response whose `responses` list is given, or a failure of
      the call as a whole (the awaited promise rejects). */
  datatype ChunkResult = Delivered(responses: seq<SubResponse>) | TransportFailed

  /** The options of one bulk call: `{ path, method, data: { validation, requests } }` (`method` is `httpMethod` here). */
  datatype BulkCall = BulkCall(path: string, httpMethod: string, validation: string, requests: seq<SubRequest>)

  /** The error thrown by ADD_TO_BATCH: 'Trying to add to an in-progress batch.' */
  datatype AddError = InProgressBatch

  /** Why a commit throws: the bulk call failed, or the settlement loop read a request slot
      that does not exist (`requests[index]` is undefined, so destructuring it throws). */
  datatype CommitError = TransportFailure | MissingRequest(index: nat)

  /** How COMMIT_BATCH ends: it returns null, returns the responses, throws, or is still
      awaiting a bulk call that never answers. */
  datatype CommitOutcome = ReturnedNull | Returned(responses: seq<SubResponse>) | Threw(error: CommitError) | Awaiting
}
