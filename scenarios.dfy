/** Worked cases of the coordinator: three requests in one bulk call, and twenty-five
    requests in two, where the requests of the second call are never settled. */
module Scenarios {
  import opened BatchTypes
  import opened Chunking
  import opened Settlement
  import opened Dispatching
  import opened Coordinator
  import opened RegistryLaws

  /** Three requests with `parse` unset are added to batch "x" and committed; the one bulk
      call answers 200, 404, 200. The first and third promises resolve with their bodies,
      the second is rejected with its body, and the commit returns the three responses. */
  lemma ThreeRequestsOneCall(a: Request, b: Request, c: Request, ra: Payload, rb: Payload, rc: Payload, h: Headers)
    requires a.parse == None && b.parse == None && c.parse == None
    ensures
      var v1 := AddSpec(map[], "x", a).view;
      var v2 := AddSpec(v1, "x", b).view;
      var v3 := AddSpec(v2, "x", c).view;
      var answers := [SubResponse(200, ra, h), SubResponse(404, rb, h), SubResponse(200, rc, h)];
      var st := CommitSpec(v3, "x", [Delivered(answers)]);
      && st.sent == [BulkCall(BATCH_PATH, BATCH_METHOD, VALIDATION, [ToSubRequest(a), ToSubRequest(b), ToSubRequest(c)])]
      && st.outcome == Returned(answers)
      && st.view["x"] == BatchState([Entry(a, Resolved(Body(ra))), Entry(b, Rejected(Body(rb))), Entry(c, Resolved(Body(rc)))], Completed)
  {
    var v1 := AddSpec(map[], "x", a).view;
    var v2 := AddSpec(v1, "x", b).view;
    var v3 := AddSpec(v2, "x", c).view;
    var es := [Entry(a, Pending), Entry(b, Pending), Entry(c, Pending)];
    assert v1["x"].requests == [Entry(a, Pending)];
    assert v3["x"] == BatchState(es, Waiting);
    var answers := [SubResponse(200, ra, h), SubResponse(404, rb, h), SubResponse(200, rc, h)];
    var subs := [ToSubRequest(a), ToSubRequest(b), ToSubRequest(c)];
    assert Project(es) == subs;
    assert ChunksOf(es) == [subs];
    var settled := SettleChunk(es, 0, answers);
    assert settled.entries == [Entry(a, Resolved(Body(ra))), Entry(b, Rejected(Body(rb))), Entry(c, Resolved(Body(rc)))];
    assert settled.fault == None;
    var transport := [Delivered(answers)];
    assert ChunkSucceeds(transport, 0, |es|);
    DispatchStep(es, ChunksOf(es), transport, 0);
    CommitAllSucceed(v3, "x", transport);
    assert transport[..1] == transport;
    assert AllResponses(transport) == answers;
  }

  /** Twenty-five waiting requests: exactly two bulk calls, the first carrying requests
      0-19 and the second requests 20-24. Requests 0-19 are settled; as written, the loop
      for the second call starts at index 20 while its response list holds five entries,
      so requests 20-24 stay pending although the commit returns. */
  lemma TwentyFiveRequestsTwoCalls(view: map<string, BatchState>, id: string, transport: seq<ChunkResult>)
    requires id in view && WellFormed(view) && view[id].state == Waiting
    requires |view[id].requests| == 25
    requires Aligned(ChunksOf(view[id].requests), transport)
    ensures
      var st := CommitSpec(view, id, transport);
      var subs := Project(view[id].requests);
      && st.sent == [BulkCallFor(subs[..20]), BulkCallFor(subs[20..])]
      && st.outcome.Returned?
      && st.view[id].state == Completed
      && |st.view[id].requests| == 25
      && (forall p :: 0 <= p < 20 ==> !st.view[id].requests[p].slot.Pending?)
      && (forall p :: 20 <= p < 25 ==> st.view[id].requests[p].slot == Pending)
  {
    var es := view[id].requests;
    var subs := Project(es);
    assert ChunksOf(es) == [subs[..20], subs[20..]] by {
      assert |subs[20..]| == 5;
      assert Chunk(subs[20..], 20) == [subs[20..]];
    }
    ChunksOfLaw(es);
    forall k | 0 <= k < |ChunksOf(es)|
      ensures ChunkSucceeds(transport, k, |es|)
    {
    }
    CommitAllSucceed(view, id, transport);
    CommitTouchesOnlyItsBatch(view, id, transport);
    CommitSettlesFirstChunkOnly(view, id, transport);
    assert Calls([subs[..20], subs[20..]]) == [BulkCallFor(subs[..20]), BulkCallFor(subs[20..])];
  }
}
