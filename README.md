# Request batch coordinator (core-data `controls.js`)

This project models the request batch coordinator of the WordPress block editor's
data layer, `packages/core-data/src/controls.js`, and proves properties of the model.

The coordinator keeps a process-wide plain object `BATCHES`, used as a dictionary from a
batch id to a batch object `{ requests, state }`. Two controls act on it:

- `ADD_TO_BATCH` creates the batch lazily in state `waiting`. It throws when the batch is
  not `waiting`. Otherwise it appends `{ resolve, reject, request }` and hands back the
  request's promise.
- `COMMIT_BATCH` returns `null` for an unknown id. Otherwise it sets the state to
  `in-flight`, projects every stored request to `{ path, body, headers }` and cuts the
  list into chunks of `BATCH_SIZE` (20). It sends each chunk, in order and awaiting each
  one, as a POST to `/__experimental/batch` with validation `require-all-validate`. It
  settles promises from each bulk response, concatenates the response lists, sets the
  state to `completed` and returns the list.

How the model is built:

- `batch_types.dfy` (`BatchTypes`): the values. A promise is a write-once slot
  `Pending | Resolved(v) | Rejected(v)` stored beside its request.
- `actions.dfy` (`Actions`): the action creators `addToBatch` and `commitBatch`.
- `chunking.dfy` (`Chunking`): the contract of lodash `chunk` and its laws.
- `settlement.dfy` (`Settlement`): the chunk-settlement callback as a function.
- `dispatching.dfy` (`Dispatching`): the chunk loop as a function.
- `coordinator.dfy` (`Coordinator`): the imperative model. `Registry` holds
  `batches: map<string, Batch>`; `Batch` holds `requests: seq<Entry>` and `state`. The
  methods `AddToBatch`, `CommitBatch`, `SendChunks` (the `for` loop over chunks) and
  `ResolveChunk` (the inner `for (let j …)` loop) change these fields in place. Each is
  proved equal to a value-level step: `AddSpec`, `CommitSpec`, `DispatchFrom` or
  `SettleChunk`.
- `registry_laws.dfy` (`RegistryLaws`) and `scenarios.dfy` (`Scenarios`): the properties,
  stated on those steps.

The transport (`apiFetch`) is a parameter: a sequence `transport` whose i-th element is
the result of the i-th bulk call. That result is `Delivered(responses)` or
`TransportFailed`. When the sequence has no element for a call, that call never answers:
the commit's outcome is `Awaiting` and the batch stays `in-flight`.

The model follows the code as written, including these behaviours:

- **Settlement index.** The callback for chunk k runs `j` from `k * 20` while
  `j < responses.length`. It settles `requests[j]` from `responses[j]`, where `responses`
  is that chunk's own list. Chunk 0 settles its requests correctly. For a later chunk
  whose list has at most 20 entries, the loop never runs. With a transport that answers
  each sub-request once, every request from position 20 on stays pending
  (`RegistryLaws.CommitSettlesFirstChunkOnly`, `Scenarios.TwentyFiveRequestsTwoCalls`).
- **Too many responses.** When a response list is longer than the batch, the loop
  reaches a `requests[j]` that is undefined. Destructuring it throws, so the commit
  throws (`MissingRequest(j)`) after settling the earlier entries.
- **Status classification.** Raw mode (`parse === false`) uses `Response.ok`, which is
  true for an "ok status" (200-299) as section 2.2.3 (Statuses) of the WHATWG Fetch
  Standard defines it. Parsed mode uses `status < 400`. The two modes disagree below 200
  and on 300-399 (`Settlement.ModesAgreeIff`).
- **No guards, no clean-up.** A second commit re-sets `in-flight` and re-sends every
  stored request. Because a promise settles only once, it changes no settled promise.
  Requests are never cleared. A failed bulk call throws out of the commit: later chunks
  are not sent, nothing is returned, pending promises stay pending and the state stays
  `in-flight`.

In short: raw and parsed responses are classified by different rules; the requests of
a chunk after the first are never settled when its response list has at most 20
entries; a second commit of the same id is not refused; and nothing is ever removed
from `BATCHES`.

## Model

| member | source | states |
|---|---|---|
| `Actions.AddToBatch` | packages/core-data/src/controls.js:11-17 | builds an action of type `ADD_TO_BATCH` carrying the batch id and the request unchanged |
| `Actions.CommitBatch` | packages/core-data/src/controls.js:19-24 | builds an action of type `COMMIT_BATCH` carrying the batch id |
| `Chunking.Chunk` | packages/core-data/src/controls.js:57 | lodash `chunk`: consecutive slices of `size` in order, the last possibly shorter; its laws are `ChunkFlatten`, `ChunkShape`, `ChunkCount`, `ChunkCountCeil`, `ChunkAt`, `ChunkOf` and `LastChunkSize` |
| `Chunking.ChunkFlatten` | packages/core-data/src/controls.js:57 | concatenating the chunks gives back the input, in order |
| `Chunking.ChunkShape` | packages/core-data/src/controls.js:57 | every chunk is non-empty and at most `size` long; all but the last are exactly `size` long |
| `Chunking.ChunkCount` | packages/core-data/src/controls.js:57 | the number of chunks c satisfies `N <= c * size < N + size`, i.e. c = ceil(N / size) |
| `Chunking.ChunkCountCeil` | packages/core-data/src/controls.js:57 | in closed form there are `(N + size - 1) / size` chunks, i.e. ceil(N / size) |
| `Chunking.ChunkAt` | packages/core-data/src/controls.js:57 | element i of chunk k is input element `k * size + i` |
| `Chunking.ChunkOf` | packages/core-data/src/controls.js:57 | input element p is element `p % size` of chunk `p / size`, both indices in range |
| `Chunking.LastChunkSize` | packages/core-data/src/controls.js:57 | the last chunk holds the `N - (c - 1) * size` remaining elements |
| `Settlement.Classify` | packages/core-data/src/controls.js:80-100 | the outcome one sub-response gives its request: raw mode by `Response.ok` with a status/headers/body value, parsed mode by `status < 400` with the body; stated by `ClassifyCarriesResponse` and `ModesAgreeIff` |
| `Settlement.SettleEntry` | packages/core-data/src/controls.js:96-100 | a pending promise takes the classified outcome; a settled one is left as it is; the request is kept |
| `Settlement.SettleRange` | packages/core-data/src/controls.js:70-78 | entries in `[lo, hi)` that index the response list are settled from the response at the same index; all others are unchanged |
| `Settlement.ClassifyCarriesResponse` | packages/core-data/src/controls.js:80-100 | the outcome is never pending; raw mode settles with status, headers and body, resolved iff 200 <= status <= 299; parsed mode settles with the body, resolved iff status < 400 |
| `Settlement.ModesAgreeIff` | packages/core-data/src/controls.js:82-94 | raw and parsed mode agree on success exactly when status is 200-299 or at least 400; otherwise raw rejects and parsed resolves |
| `Settlement.SettleChunk` | packages/core-data/src/controls.js:69-101 | the callback for chunk k as written: `j` from `k * 20` while `j < responses.length`, settling entry j from `responses[j]`, throwing at the first missing entry; stated by `SettleChunkKeeps`, `SettleChunkFaultIff`, `FirstChunkSettles`, `LaterChunkSettlesNothing` and `Batch.ResolveChunk` |
| `Settlement.SettleChunkKeeps` | packages/core-data/src/controls.js:69-101 | the callback keeps the number of entries and every stored request, and never changes a settled promise |
| `Settlement.SettleChunkFaultIff` | packages/core-data/src/controls.js:70-78 | the callback throws exactly when the response list is longer than both `k * 20` and the batch |
| `Settlement.FirstChunkSettles` | packages/core-data/src/controls.js:69-101 | in chunk 0, with no more responses than requests, entry j is settled from `responses[j]` for every j below the list's length, later entries are untouched, nothing throws |
| `Settlement.LaterChunkSettlesNothing` | packages/core-data/src/controls.js:70-74 | for chunk k >= 1 with at most 20 responses the callback changes nothing and does not throw |
| `Dispatching.Project` | packages/core-data/src/controls.js:52-56 | one sub-request per stored request, in stored order, with `path`, `body` = `data` and `headers` taken from the request |
| `Dispatching.Calls` | packages/core-data/src/controls.js:61-67 | one bulk call per chunk, in chunk order, each a POST to `/__experimental/batch` with `require-all-validate` and that chunk's sub-requests |
| `Dispatching.DispatchFrom` | packages/core-data/src/controls.js:60-108 | the chunk loop from chunk i on, with the transport's i-th result for the i-th call; stated by `DispatchStep`, `DispatchKeeps`, `DispatchAllSucceed`, `DispatchStopsAt`, `DispatchFinishesIff`, `OnlyFirstChunkSettles` and `Batch.SendChunks` |
| `Dispatching.DispatchStep` | packages/core-data/src/controls.js:60-108 | a chunk that goes through issues its call, settles without throwing, accumulates its responses and the loop continues from the settled entries |
| `Dispatching.DispatchKeeps` | packages/core-data/src/controls.js:60-108 | the whole loop keeps the number of entries and every stored request, and never changes a settled promise |
| `Dispatching.DispatchAllSucceed` | packages/core-data/src/controls.js:60-108 | when every chunk goes through, the loop finishes, issues exactly the calls for the chunks in order, and accumulates the concatenation of their response lists |
| `Dispatching.DispatchStopsAt` | packages/core-data/src/controls.js:60-67 | when chunk k is the first that fails, the calls for chunks up to k are issued, none after, and the loop stops for chunk k's reason; when chunk k's call fails or never answers, the entries are exactly those the earlier chunks left |
| `Dispatching.DispatchFinishesIff` | packages/core-data/src/controls.js:60-108 | the loop finishes iff every chunk goes through |
| `Dispatching.LaterChunksSettleNothing` | packages/core-data/src/controls.js:69-104 | from chunk 1 on, with an aligned transport and chunks of at most 20, the loop settles nothing and finishes |
| `Dispatching.OnlyFirstChunkSettles` | packages/core-data/src/controls.js:52-108 | with an aligned transport, requests below position 20 are settled from the first response list and all later requests are left untouched |
| `Coordinator.AddSpec` | packages/core-data/src/controls.js:30-43 | ADD_TO_BATCH on the registry's contents; stated by `AddCreatesOnlyWhenAbsent`, `AddRejectsIff`, `AddAppends`, `AddKeepsWellFormed` and `Registry.AddToBatch` |
| `Coordinator.CommitSpec` | packages/core-data/src/controls.js:44-113 | COMMIT_BATCH on the registry's contents; stated by `CommitUnknown`, `CommitTouchesOnlyItsBatch`, `CommitAllSucceed`, `CommitStopsAtFirstFailure`, `CommitFailureKeepsEntries`, `CommitSettlesFirstChunkOnly` and `Registry.CommitBatch` |
| `Coordinator.Batch.constructor` | packages/core-data/src/controls.js:31-34 | a new batch has no requests and is waiting |
| `Coordinator.Batch.ResolveChunk` | packages/core-data/src/controls.js:69-104 | the inner loop leaves the stored entries and the fault exactly as `SettleChunk` gives them |
| `Coordinator.Batch.SendChunks` | packages/core-data/src/controls.js:58-108 | the chunk loop leaves the entries, the outcome and the issued calls exactly as `DispatchFrom` gives them, and does not touch the state |
| `Coordinator.Registry.constructor` | packages/core-data/src/controls.js:26 | the registry starts empty |
| `Coordinator.Registry.AddToBatch` | packages/core-data/src/controls.js:30-43 | the new registry contents and the result are those of `AddSpec`; new batch objects are fresh; distinct ids keep distinct batches |
| `Coordinator.Registry.CommitBatch` | packages/core-data/src/controls.js:44-113 | the new registry contents, the outcome and the issued calls are those of `CommitSpec` |
| `RegistryLaws.AddCreatesOnlyWhenAbsent` | packages/core-data/src/controls.js:31-34 | a batch `{[], waiting}` is created only for an absent id; an existing batch keeps its state and its requests as a prefix; other ids are untouched |
| `RegistryLaws.AddRejectsIff` | packages/core-data/src/controls.js:36-38 | ADD_TO_BATCH throws iff the batch exists and is not waiting, and then the registry is unchanged |
| `RegistryLaws.AddAppends` | packages/core-data/src/controls.js:40-42 | a successful add appends exactly one pending entry with the request unchanged, at the returned position, after the unchanged earlier entries |
| `RegistryLaws.AddKeepsWellFormed` | packages/core-data/src/controls.js:30-43 | adding keeps every batch non-empty and every waiting batch free of settled promises |
| `RegistryLaws.CommitUnknown` | packages/core-data/src/controls.js:45-47 | committing an unknown id returns null, issues no call and leaves the registry unchanged |
| `RegistryLaws.CommitTouchesOnlyItsBatch` | packages/core-data/src/controls.js:49-110 | a commit changes only its own batch, keeps its requests in number and order, keeps settled promises, and ends completed iff it returns, in-flight otherwise |
| `RegistryLaws.CommitKeepsWellFormed` | packages/core-data/src/controls.js:44-113 | committing keeps every batch non-empty and every waiting batch free of settled promises |
| `RegistryLaws.ChunksOfLaw` | packages/core-data/src/controls.js:52-57 | the chunks concatenate to the projection, number `(N + BATCH_SIZE - 1) / BATCH_SIZE`, are non-empty, at most `BATCH_SIZE` (20) long, all but the last exactly `BATCH_SIZE`, and request p is at position `p % BATCH_SIZE` of chunk `p / BATCH_SIZE` |
| `RegistryLaws.CommitAllSucceed` | packages/core-data/src/controls.js:60-112 | when every chunk goes through: one call per chunk in order, `(N + BATCH_SIZE - 1) / BATCH_SIZE` calls, the concatenated responses are returned and the state is completed |
| `RegistryLaws.CommitStopsAtFirstFailure` | packages/core-data/src/controls.js:60-67 | when chunk k is the first that fails: calls for chunks 0..k only, nothing returned (throws or awaits) and the state stays in-flight |
| `RegistryLaws.CommitFailureKeepsEntries` | packages/core-data/src/controls.js:60-67 | when chunk k's call fails or never answers after chunks 0..k-1 went through, the stored entries are those chunks 0..k-1 left: chunk k and later settle nothing, so an entry still pending after chunks 0..k-1 stays pending; a failure at chunk 0 changes no entry |
| `RegistryLaws.AddAfterCommitRejected` | packages/core-data/src/controls.js:36-49 | after a commit has started, every ADD_TO_BATCH on that id throws and changes nothing |
| `RegistryLaws.CommitIgnoresState` | packages/core-data/src/controls.js:44-49 | a commit behaves the same whatever the batch's state, so a second commit re-sends every stored request |
| `RegistryLaws.CommitEmptyBatch` | packages/core-data/src/controls.js:57-112 | a batch without requests is committed with no call and returns an empty list; no well-formed registry holds one |
| `RegistryLaws.CommitSettlesFirstChunkOnly` | packages/core-data/src/controls.js:69-101 | with an aligned transport the commit returns, requests 0..19 take the outcome their response gives, and every request from position 20 on stays pending |
| `Scenarios.ThreeRequestsOneCall` | packages/core-data/src/controls.js:30-113 | three requests answered 200, 404, 200 in one call: the first and third resolve with their bodies, the second is rejected with its body, the commit returns the three responses and the batch is completed |
| `Scenarios.TwentyFiveRequestsTwoCalls` | packages/core-data/src/controls.js:57-104 | twenty-five requests go out in exactly two calls (requests 0-19 and 20-24); requests 0-19 are settled and requests 20-24 stay pending |

## Left out

- phpunit/class-wp-rest-plugins-controller-test.php: a PHPUnit suite that drives the WordPress REST server; it has no meaning outside that runtime.
- `apiFetch` (network, authentication, HTTP): each bulk call's result is an element of the `transport` parameter.
- Promises and the event loop: a promise is a write-once slot beside its request; `await` consumes the next `transport` element. Other tasks that run while a call is awaited are not modelled, except that the state stays `in-flight` throughout, so an ADD_TO_BATCH in that window throws.
- Two commits of the same id interleaved at their suspension points: each commit runs to its end before the next operation.
- `window.Response`: `JSON.stringify` of the body and header normalisation are not modelled; a raw value is the record of status, headers and body.
- Settlement.Classify: the errors the `Response` constructor throws in raw mode are not modelled. It throws a `RangeError` for a status outside 200-599. It throws a `TypeError` for a null-body status (204, 205 or 304), because `JSON.stringify` of a defined body is never null. In the source either error makes the callback throw: the rest of the chunk stays pending, the commit throws and the batch stays `in-flight`. The model classifies such a response like any other, so it resolves a raw 204 or 205 and rejects a raw 304.
- Coordinator.Registry.AddToBatch, Coordinator.Registry.CommitBatch: a batch id is modelled as a key of an initially empty dictionary. `BATCHES` is a plain `{}`, so an id naming an `Object.prototype` member (`constructor`, `toString`, `__proto__`, ...) finds an inherited value before any add. For such an id ADD_TO_BATCH throws and COMMIT_BATCH throws a `TypeError` at the projection. The model instead treats such an id like any other absent id.
- A bulk response without a `responses` list (reading `.length` of undefined throws) is not modelled: a delivered result always carries a list.
- lodash `chunk` internals (coercion of the size): only its contract is modelled.
- How the data layer routes an action to its control by its `type` is not part of this model.
