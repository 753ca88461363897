/** The `BATCHES` registry and the two controls ADD_TO_BATCH and COMMIT_BATCH. The
    classes change state in place as the source does; `AddSpec` and `CommitSpec`
    give the same steps on values, and the lemmas at the end are stated on them. */
module Coordinator {
  import opened BatchTypes
  import opened Chunking
  import opened Settlement
  import opened Dispatching

  /** The registry after an ADD_TO_BATCH and what the control hands back: the position
      of the new entry (the handle of its promise) or the error it throws. */
  datatype AddStep = AddStep(view: map<string, BatchState>, result: Result<nat, AddError>)

  /** The registry after a COMMIT_BATCH, how the commit ended, and the bulk calls it issued. */
  datatype CommitStep = CommitStep(view: map<string, BatchState>, outcome: CommitOutcome, sent: seq<BulkCall>)

  function AddSpec(view: map<string, BatchState>, id: string, req: Request): AddStep {
    var b := if id in view then view[id] else BatchState([], Waiting);
    if b.state != Waiting then AddStep(view, Err(InProgressBatch))
    else AddStep(view[id := BatchState(b.requests + [Entry(req, Pending)], b.state)], Ok(|b.requests|))
  }

  function OutcomeOf(d: Run): CommitOutcome {
    match d.stop
    case Finished => Returned(d.responses)
    case Failed(e) => Threw(e)
    case Stalled => Awaiting
  }

  /** The chunks a commit sends for a batch's stored entries. */
  function ChunksOf(es: seq<Entry>): seq<seq<SubRequest>> {
    Chunk(Project(es), BATCH_SIZE)
  }

  function CommitSpec(view: map<string, BatchState>, id: string, transport: seq<ChunkResult>): CommitStep {
    if id !in view then CommitStep(view, ReturnedNull, [])
    else
      var es := view[id].requests;
      var d := DispatchFrom(es, ChunksOf(es), transport, 0);
      CommitStep(view[id := BatchState(d.entries, if d.stop.Finished? then Completed else InFlight)], OutcomeOf(d), d.sent)
  }

  /** One `BATCHES[batchId]` object. */
  class Batch {
    var requests: seq<Entry>
    var state: State

    constructor ()
      ensures requests == [] && state == Waiting
    {
      requests := [];
      state := Waiting;
    }

    /** The callback run on the bulk response of chunk `chunkNumber`. */
    method ResolveChunk(chunkNumber: nat, responses: seq<SubResponse>) returns (fault: Option<nat>)
      modifies this`requests
      ensures Settled(requests, fault) == SettleChunk(old(requests), chunkNumber, responses)
    {
      ghost var es := requests;
      var lo := chunkNumber * BATCH_SIZE;
      var j := lo;
      while j < |responses|
        invariant lo <= j
        invariant j == lo || j <= |es|
        invariant requests == SettleRange(es, lo, j, responses)
      {
        if j >= |requests| {
          assert requests == SettleRange(es, lo, |responses|, responses);
          return Some(j);
        }
        requests := requests[j := SettleEntry(requests[j], responses[j])];
        j := j + 1;
      }
      assert requests == SettleRange(es, lo, |responses|, responses);
      fault := None;
    }

    /** The `for` loop over the chunks (lines 58-108): each chunk is sent and awaited
        before the next; the state is not touched, so it stays in-flight throughout. */
    method SendChunks(chunks: seq<seq<SubRequest>>, transport: seq<ChunkResult>) returns (outcome: CommitOutcome, sent: seq<BulkCall>)
      modifies this`requests
      ensures var d := DispatchFrom(old(requests), chunks, transport, 0);
        requests == d.entries && outcome == OutcomeOf(d) && sent == d.sent
    {
      ghost var full := DispatchFrom(requests, chunks, transport, 0);
      var allResponses: seq<SubResponse> := [];
      sent := [];
      var i := 0;
      while i < |chunks|
        invariant 0 <= i <= |chunks|
        invariant full == AfterPrefix(sent, allResponses, DispatchFrom(requests, chunks, transport, i))
      {
        ghost var before, sentBefore, responsesBefore := requests, sent, allResponses;
        var call := BulkCallFor(chunks[i]);
        sent := sent + [call];
        DispatchUnfold(before, chunks, transport, i);
        if i >= |transport| {
          return Awaiting, sent;
        }
        if transport[i].TransportFailed? {
          return Threw(TransportFailure), sent;
        }
        var rs := transport[i].responses;
        var fault := ResolveChunk(i, rs);
        if fault.Some? {
          return Threw(MissingRequest(fault.value)), sent;
        }
        allResponses := allResponses + rs;
        AfterPrefixAppend(sentBefore, responsesBefore, [call], rs, DispatchFrom(requests, chunks, transport, i + 1));
        i := i + 1;
      }
      outcome := Returned(allResponses);
    }
  }

  /** The process-wide `BATCHES` dictionary. */
  class Registry {
    var batches: map<string, Batch>

    /** Distinct ids hold distinct batch objects. */
    ghost predicate Valid()
      reads this
    {
      forall a, b :: a in batches && b in batches && a != b ==> batches[a] != batches[b]
    }

    ghost function View(): map<string, BatchState>
      reads this, batches.Values
    {
      map id | id in batches :: BatchState(batches[id].requests, batches[id].state)
    }

    constructor ()
      ensures Valid() && batches == map[]
    {
      batches := map[];
    }

    /** ADD_TO_BATCH: lines 30-43. */
    method AddToBatch(id: string, req: Request) returns (r: Result<nat, AddError>)
      requires Valid()
      modifies this, batches.Values
      ensures Valid() && fresh(batches.Values - old(batches.Values))
      ensures AddStep(View(), r) == AddSpec(old(View()), id, req)
    {
      if id !in batches {
        var created := new Batch();
        batches := batches[id := created];
      }
      var b := batches[id];
      assert forall k :: k in batches && k != id ==> batches[k] != b;
      if b.state != Waiting {
        return Err(InProgressBatch);
      }
      ghost var stored := b.requests;
      r := Ok(|b.requests|);
      b.requests := b.requests + [Entry(req, Pending)];
      assert View() == old(View())[id := BatchState(stored + [Entry(req, Pending)], Waiting)];
    }

    /** COMMIT_BATCH: lines 44-113, with `transport[i]` the result of the i-th bulk call. */
    method CommitBatch(id: string, transport: seq<ChunkResult>) returns (outcome: CommitOutcome, sent: seq<BulkCall>)
      requires Valid()
      modifies batches.Values
      ensures Valid()
      ensures CommitStep(View(), outcome, sent) == CommitSpec(old(View()), id, transport)
    {
      if id !in batches {
        return ReturnedNull, [];
      }
      var b := batches[id];
      b.state := InFlight;
      var requests := Project(b.requests);
      var chunks := Chunk(requests, BATCH_SIZE);
      outcome, sent := b.SendChunks(chunks, transport);
      if outcome.Returned? {
        b.state := Completed;
      }
      assert forall k :: k in batches && k != id ==> batches[k] != b;
      assert View() == old(View())[id := BatchState(b.requests, b.state)];
    }
  }
}
