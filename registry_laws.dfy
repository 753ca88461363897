/** What ADD_TO_BATCH and COMMIT_BATCH promise, stated on the value-level steps that the
    `Registry` methods are proved to perform. */
module RegistryLaws {
  import opened BatchTypes
  import opened Chunking
  import opened Settlement
  import opened Dispatching
  import opened Coordinator

  /** Every stored batch holds at least one request, and a batch that is still waiting
      has only pending promises. */
  predicate WellFormed(view: map<string, BatchState>) {
    forall id :: id in view ==>
      |view[id].requests| > 0 &&
      (view[id].state == Waiting ==> forall j :: 0 <= j < |view[id].requests| ==> view[id].requests[j].slot.Pending?)
  }

  /** The requests a batch already holds (none for an id not yet in the registry). */
  function StoredAt(view: map<string, BatchState>, id: string): seq<Entry> {
    if id in view then view[id].requests else []
  }

  /** A batch is created, empty and waiting, only for an absent id; an existing batch is
      never replaced; the batches of other ids are untouched. */
  lemma AddCreatesOnlyWhenAbsent(view: map<string, BatchState>, id: string, req: Request)
    ensures id in AddSpec(view, id, req).view
    ensures AddSpec(view, id, req).view.Keys == view.Keys + {id}
    ensures forall k :: k in view && k != id ==> AddSpec(view, id, req).view[k] == view[k]
    ensures id !in view ==>
      AddSpec(view, id, req) == AddStep(view[id := BatchState([Entry(req, Pending)], Waiting)], Ok(0))
    ensures id in view ==>
      AddSpec(view, id, req).view[id].state == view[id].state &&
      view[id].requests <= AddSpec(view, id, req).view[id].requests
  {
    assert [] + [Entry(req, Pending)] == [Entry(req, Pending)];
  }

  /** ADD_TO_BATCH throws exactly when the batch exists and is not waiting, and then
      nothing changes. */
  lemma AddRejectsIff(view: map<string, BatchState>, id: string, req: Request)
    ensures AddSpec(view, id, req).result.Err? <==> id in view && view[id].state != Waiting
    ensures AddSpec(view, id, req).result.Err? ==>
      AddSpec(view, id, req) == AddStep(view, Err(InProgressBatch))
  {
  }

  /** A successful ADD_TO_BATCH appends one pending entry carrying the request, at the
      position it returns; the earlier entries stay as they were. */
  lemma AddAppends(view: map<string, BatchState>, id: string, req: Request)
    requires AddSpec(view, id, req).result.Ok?
    ensures AddSpec(view, id, req).result.value == |StoredAt(view, id)|
    ensures AddSpec(view, id, req).view[id].requests == StoredAt(view, id) + [Entry(req, Pending)]
    ensures AddSpec(view, id, req).view[id].state == Waiting
  {
  }

  lemma AddKeepsWellFormed(view: map<string, BatchState>, id: string, req: Request)
    requires WellFormed(view)
    ensures WellFormed(AddSpec(view, id, req).view)
  {
    var v := AddSpec(view, id, req).view;
    forall k | k in v
      ensures |v[k].requests| > 0
      ensures v[k].state == Waiting ==> forall j :: 0 <= j < |v[k].requests| ==> v[k].requests[j].slot.Pending?
    {
      if k != id {
        assert v[k] == view[k];
      } else if AddSpec(view, id, req).result.Ok? {
        assert v[k].requests == StoredAt(view, id) + [Entry(req, Pending)];
      }
    }
  }

  /** COMMIT_BATCH on an unknown id returns null, issues no call and changes nothing. */
  lemma CommitUnknown(view: map<string, BatchState>, id: string, transport: seq<ChunkResult>)
    requires id !in view
    ensures CommitSpec(view, id, transport) == CommitStep(view, ReturnedNull, [])
  {
  }

  /** A commit rewrites only its own batch: the stored requests keep their number and
      order, a promise already settled keeps its outcome, and the state ends completed
      exactly when the commit returns its responses, in-flight otherwise. */
  lemma CommitTouchesOnlyItsBatch(view: map<string, BatchState>, id: string, transport: seq<ChunkResult>)
    requires id in view
    ensures CommitSpec(view, id, transport).view.Keys == view.Keys
    ensures forall k :: k in view && k != id ==> CommitSpec(view, id, transport).view[k] == view[k]
    ensures |CommitSpec(view, id, transport).view[id].requests| == |view[id].requests|
    ensures forall p :: 0 <= p < |view[id].requests| ==>
      CommitSpec(view, id, transport).view[id].requests[p].request == view[id].requests[p].request
    ensures forall p :: 0 <= p < |view[id].requests| && !view[id].requests[p].slot.Pending? ==>
      CommitSpec(view, id, transport).view[id].requests[p] == view[id].requests[p]
    ensures CommitSpec(view, id, transport).view[id].state ==
      if CommitSpec(view, id, transport).outcome.Returned? then Completed else InFlight
    ensures !CommitSpec(view, id, transport).outcome.ReturnedNull?
  {
    var es := view[id].requests;
    DispatchKeeps(es, ChunksOf(es), transport, 0);
  }

  lemma CommitKeepsWellFormed(view: map<string, BatchState>, id: string, transport: seq<ChunkResult>)
    requires WellFormed(view)
    ensures WellFormed(CommitSpec(view, id, transport).view)
  {
    if id in view {
      CommitTouchesOnlyItsBatch(view, id, transport);
    }
  }

  /** The chunking law for a batch: the sub-requests are the stored requests projected in
      order, cut into ceil(N / BATCH_SIZE) non-empty chunks all but the last of exactly
      BATCH_SIZE, and request p is carried by chunk p / BATCH_SIZE at position
      p % BATCH_SIZE. */
  lemma ChunksOfLaw(es: seq<Entry>)
    ensures Flatten(ChunksOf(es)) == Project(es)
    ensures |ChunksOf(es)| == (|es| + BATCH_SIZE - 1) / BATCH_SIZE
    ensures forall k :: 0 <= k < |ChunksOf(es)| ==> 0 < |ChunksOf(es)[k]| <= BATCH_SIZE
    ensures forall k :: 0 <= k < |ChunksOf(es)| - 1 ==> |ChunksOf(es)[k]| == BATCH_SIZE
    ensures forall p :: 0 <= p < |es| ==>
      p / BATCH_SIZE < |ChunksOf(es)| && p % BATCH_SIZE < |ChunksOf(es)[p / BATCH_SIZE]| &&
      ChunksOf(es)[p / BATCH_SIZE][p % BATCH_SIZE] == ToSubRequest(es[p].request)
  {
    ChunkFlatten(Project(es), BATCH_SIZE);
    ChunkCountCeil(Project(es), BATCH_SIZE);
    ChunkShape(Project(es), BATCH_SIZE);
    forall p | 0 <= p < |es|
      ensures p / BATCH_SIZE < |ChunksOf(es)| && p % BATCH_SIZE < |ChunksOf(es)[p / BATCH_SIZE]|
      ensures ChunksOf(es)[p / BATCH_SIZE][p % BATCH_SIZE] == ToSubRequest(es[p].request)
    {
      ChunkOf(Project(es), BATCH_SIZE, p);
    }
  }

  /** When every chunk goes through, one POST per chunk is issued in chunk order, the
      commit returns the concatenation of the chunks' response lists and the batch ends
      completed. */
  lemma CommitAllSucceed(view: map<string, BatchState>, id: string, transport: seq<ChunkResult>)
    requires id in view
    requires |ChunksOf(view[id].requests)| <= |transport|
    requires forall k :: 0 <= k < |ChunksOf(view[id].requests)| ==> ChunkSucceeds(transport, k, |view[id].requests|)
    ensures CommitSpec(view, id, transport).sent == Calls(ChunksOf(view[id].requests))
    ensures |CommitSpec(view, id, transport).sent| == (|view[id].requests| + BATCH_SIZE - 1) / BATCH_SIZE
    ensures CommitSpec(view, id, transport).outcome ==
      Returned(AllResponses(transport[..|ChunksOf(view[id].requests)|]))
    ensures CommitSpec(view, id, transport).view[id].state == Completed
  {
    var es := view[id].requests;
    DispatchAllSucceed(es, ChunksOf(es), transport, 0);
    ChunksOfLaw(es);
    assert ChunksOf(es)[0..] == ChunksOf(es);
    assert transport[0..|ChunksOf(es)|] == transport[..|ChunksOf(es)|];
  }

  /** When chunk k is the first that does not go through, the calls for chunks 0..k are
      issued and none after; nothing is returned (the commit throws, or awaits a call
      that never answers) and the batch stays in-flight. */
  lemma CommitStopsAtFirstFailure(view: map<string, BatchState>, id: string, transport: seq<ChunkResult>, k: nat)
    requires id in view
    requires k < |ChunksOf(view[id].requests)|
    requires forall j :: 0 <= j < k ==> ChunkSucceeds(transport, j, |view[id].requests|)
    requires !ChunkSucceeds(transport, k, |view[id].requests|)
    ensures CommitSpec(view, id, transport).sent == Calls(ChunksOf(view[id].requests)[..k + 1])
    ensures CommitSpec(view, id, transport).view[id].state == InFlight
    ensures CommitSpec(view, id, transport).outcome ==
      if k >= |transport| then Awaiting
      else if transport[k].TransportFailed? then Threw(TransportFailure)
      else Threw(MissingRequest(if k * BATCH_SIZE < |view[id].requests| then |view[id].requests| else k * BATCH_SIZE))
  {
    var es := view[id].requests;
    DispatchStopsAt(es, ChunksOf(es), transport, 0, k);
    assert ChunksOf(es)[0..k + 1] == ChunksOf(es)[..k + 1];
  }

  /** When chunk k is the first that does not go through because its call fails or
      never answers, the stored entries are those the chunks before k left: chunk k and
      later settle nothing, so an entry still pending after chunks 0..k-1 stays pending,
      and a failure at chunk 0 leaves every entry as it was. */
  lemma CommitFailureKeepsEntries(view: map<string, BatchState>, id: string, transport: seq<ChunkResult>, k: nat)
    requires id in view
    requires k < |ChunksOf(view[id].requests)|
    requires forall j :: 0 <= j < k ==> ChunkSucceeds(transport, j, |view[id].requests|)
    requires k >= |transport| || transport[k].TransportFailed?
    ensures CommitSpec(view, id, transport).view[id].requests ==
      DispatchFrom(view[id].requests, ChunksOf(view[id].requests)[..k], transport, 0).entries
    ensures k == 0 ==> CommitSpec(view, id, transport).view[id].requests == view[id].requests
  {
    var es := view[id].requests;
    DispatchStopsAt(es, ChunksOf(es), transport, 0, k);
  }

  /** Once a commit has started, the batch is never waiting again, so every later
      ADD_TO_BATCH on its id throws and leaves the registry as it is. */
  lemma AddAfterCommitRejected(view: map<string, BatchState>, id: string, transport: seq<ChunkResult>, req: Request)
    requires id in view
    ensures AddSpec(CommitSpec(view, id, transport).view, id, req) ==
      AddStep(CommitSpec(view, id, transport).view, Err(InProgressBatch))
  {
    CommitTouchesOnlyItsBatch(view, id, transport);
  }

  /** A commit does not look at the state: committing a batch again, in-flight or
      completed, re-sends every stored request exactly as the first commit did. */
  lemma CommitIgnoresState(view: map<string, BatchState>, id: string, transport: seq<ChunkResult>, s: State)
    requires id in view
    ensures CommitSpec(view[id := BatchState(view[id].requests, s)], id, transport) == CommitSpec(view, id, transport)
  {
    var v := view[id := BatchState(view[id].requests, s)];
    assert v[id].requests == view[id].requests;
    assert v[id := BatchState([], Waiting)] == view[id := BatchState([], Waiting)];
  }

  /** A batch with no stored requests is committed without any call and returns an empty
      list; a well-formed registry holds no such batch. */
  lemma CommitEmptyBatch(view: map<string, BatchState>, id: string, transport: seq<ChunkResult>)
    requires id in view && view[id].requests == []
    ensures CommitSpec(view, id, transport).sent == []
    ensures CommitSpec(view, id, transport).outcome == Returned([])
    ensures !WellFormed(view)
  {
  }

  /** Settlement of a whole commit as written: with a transport that answers every chunk
      with one response per sub-request, the commit returns and requests 0..19 are
      settled from the first response list, while every request from position 20 on keeps
      its promise as it was: pending, in a well-formed registry. */
  lemma CommitSettlesFirstChunkOnly(view: map<string, BatchState>, id: string, transport: seq<ChunkResult>)
    requires id in view && WellFormed(view) && view[id].state == Waiting
    requires Aligned(ChunksOf(view[id].requests), transport)
    ensures CommitSpec(view, id, transport).outcome.Returned?
    ensures |CommitSpec(view, id, transport).view[id].requests| == |view[id].requests|
    ensures forall p :: 0 <= p < |view[id].requests| && p < BATCH_SIZE ==>
      CommitSpec(view, id, transport).view[id].requests[p].slot ==
        Classify(view[id].requests[p].request, transport[0].responses[p])
    ensures forall p :: BATCH_SIZE <= p < |view[id].requests| ==>
      CommitSpec(view, id, transport).view[id].requests[p].slot == Pending
  {
    var es := view[id].requests;
    OnlyFirstChunkSettles(es, transport);
  }
}
