/** The chunk loop of COMMIT_BATCH as a function of the stored entries, the chunks
    and the transport oracle (the result of each bulk call, in the order the calls
    are issued). */
module Dispatching {
  import opened BatchTypes
  import opened Chunking
  import opened Settlement

  /** `{ path: request.path, body: request.data, headers: request.headers }` */
  function ToSubRequest(r: Request): SubRequest {
    SubRequest(r.path, r.data, r.headers)
  }

  /** The projection of the stored requests, in stored order, one sub-request each. */
  function Project(es: seq<Entry>): (r: seq<SubRequest>)
    ensures |r| == |es|
    ensures forall j :: 0 <= j < |es| ==>
      r[j].path == es[j].request.path && r[j].body == es[j].request.data && r[j].headers == es[j].request.headers
  {
    seq(|es|, j requires 0 <= j < |es| => ToSubRequest(es[j].request))
  }

  /** The one bulk call that carries a chunk. */
  function BulkCallFor(chunk: seq<SubRequest>): BulkCall {
    BulkCall(BATCH_PATH, BATCH_METHOD, VALIDATION, chunk)
  }

  function Calls(chunks: seq<seq<SubRequest>>): (r: seq<BulkCall>)
    ensures |r| == |chunks|
    ensures forall k :: 0 <= k < |chunks| ==>
      r[k].path == BATCH_PATH && r[k].httpMethod == BATCH_METHOD && r[k].validation == VALIDATION && r[k].requests == chunks[k]
  {
    seq(|chunks|, k requires 0 <= k < |chunks| => BulkCallFor(chunks[k]))
  }

  /** The concatenation of the response lists of the delivered results. */
  function AllResponses(results: seq<ChunkResult>): seq<SubResponse> {
    if results == [] then []
    else (if results[0].Delivered? then results[0].responses else []) + AllResponses(results[1..])
  }

  datatype Stop = Finished | Failed(error: CommitError) | Stalled

  /** What the loop leaves behind: the entries, the calls issued, the responses
      accumulated, and how it stopped. */
  datatype Run = Run(entries: seq<Entry>, sent: seq<BulkCall>, responses: seq<SubResponse>, stop: Stop)

  /** The loop from chunk i on. Each chunk is sent; if its call fails the loop throws,
      if the oracle holds no result for it the call never answers, otherwise the
      callback settles entries and may throw, and else the responses are accumulated
      and the next chunk is sent. */
  function DispatchFrom(es: seq<Entry>, chunks: seq<seq<SubRequest>>, transport: seq<ChunkResult>, i: nat): Run
    decreases |chunks| - i
  {
    if i >= |chunks| then Run(es, [], [], Finished)
    else
      var call := BulkCallFor(chunks[i]);
      if i >= |transport| then Run(es, [call], [], Stalled)
      else
        match transport[i]
        case TransportFailed => Run(es, [call], [], Failed(TransportFailure))
        case Delivered(rs) =>
          var s := SettleChunk(es, i, rs);
          if s.fault.Some? then Run(s.entries, [call], [], Failed(MissingRequest(s.fault.value)))
          else
            var rest := DispatchFrom(s.entries, chunks, transport, i + 1);
            Run(rest.entries, [call] + rest.sent, rs + rest.responses, rest.stop)
  }

  /** Chunk k of a batch of n requests goes through: its call is answered and the
      callback does not throw. */
  predicate ChunkSucceeds(transport: seq<ChunkResult>, k: nat, n: nat) {
    k < |transport| && transport[k].Delivered? &&
    !(k * BATCH_SIZE < |transport[k].responses| && n < |transport[k].responses|)
  }

  /** Why the loop stops at chunk k when that chunk does not succeed. */
  function StopAt(transport: seq<ChunkResult>, k: nat, n: nat): Stop {
    if k >= |transport| then Stalled
    else if transport[k].TransportFailed? then Failed(TransportFailure)
    else Failed(MissingRequest(if k * BATCH_SIZE < n then n else k * BATCH_SIZE))
  }

  /** A run of the loop from some chunk on, preceded by the calls already issued and
      the responses already accumulated. */
  function AfterPrefix(sent: seq<BulkCall>, responses: seq<SubResponse>, d: Run): Run {
    Run(d.entries, sent + d.sent, responses + d.responses, d.stop)
  }

  lemma AfterPrefixAppend(sent: seq<BulkCall>, responses: seq<SubResponse>, more: seq<BulkCall>, moreResponses: seq<SubResponse>, d: Run)
    ensures AfterPrefix(sent, responses, AfterPrefix(more, moreResponses, d)) == AfterPrefix(sent + more, responses + moreResponses, d)
  {
    assert sent + (more + d.sent) == (sent + more) + d.sent;
    assert responses + (moreResponses + d.responses) == (responses + moreResponses) + d.responses;
  }

  /** One turn of the loop at chunk i, case by case. */
  lemma DispatchUnfold(es: seq<Entry>, chunks: seq<seq<SubRequest>>, transport: seq<ChunkResult>, i: nat)
    requires i < |chunks|
    ensures i >= |transport| ==> DispatchFrom(es, chunks, transport, i) == Run(es, [BulkCallFor(chunks[i])], [], Stalled)
    ensures i < |transport| && transport[i].TransportFailed? ==>
      DispatchFrom(es, chunks, transport, i) == Run(es, [BulkCallFor(chunks[i])], [], Failed(TransportFailure))
    ensures i < |transport| && transport[i].Delivered? ==>
      var s := SettleChunk(es, i, transport[i].responses);
      DispatchFrom(es, chunks, transport, i) ==
        if s.fault.Some? then Run(s.entries, [BulkCallFor(chunks[i])], [], Failed(MissingRequest(s.fault.value)))
        else AfterPrefix([BulkCallFor(chunks[i])], transport[i].responses, DispatchFrom(s.entries, chunks, transport, i + 1))
  {
  }

  /** One successful chunk: its call is issued, its responses are accumulated, and the
      loop goes on from the settled entries. */
  lemma DispatchStep(es: seq<Entry>, chunks: seq<seq<SubRequest>>, transport: seq<ChunkResult>, i: nat)
    requires i < |chunks| && ChunkSucceeds(transport, i, |es|)
    ensures SettleChunk(es, i, transport[i].responses).fault == None
    ensures DispatchFrom(es, chunks, transport, i) ==
      var rest := DispatchFrom(SettleChunk(es, i, transport[i].responses).entries, chunks, transport, i + 1);
      Run(rest.entries, [BulkCallFor(chunks[i])] + rest.sent, transport[i].responses + rest.responses, rest.stop)
  {
    SettleChunkFaultIff(es, i, transport[i].responses);
  }

  lemma CallsCons(chunks: seq<seq<SubRequest>>, i: nat, j: nat)
    requires i < j <= |chunks|
    ensures Calls(chunks[i..j]) == [BulkCallFor(chunks[i])] + Calls(chunks[i + 1..j])
  {
  }

  /** The loop keeps every stored request, and never changes a promise already settled. */
  lemma {:induction false} DispatchKeeps(es: seq<Entry>, chunks: seq<seq<SubRequest>>, transport: seq<ChunkResult>, i: nat)
    ensures |DispatchFrom(es, chunks, transport, i).entries| == |es|
    ensures forall p :: 0 <= p < |es| ==> DispatchFrom(es, chunks, transport, i).entries[p].request == es[p].request
    ensures forall p :: 0 <= p < |es| && !es[p].slot.Pending? ==> DispatchFrom(es, chunks, transport, i).entries[p] == es[p]
    decreases |chunks| - i
  {
    if i < |chunks| && i < |transport| && transport[i].Delivered? {
      var s := SettleChunk(es, i, transport[i].responses);
      SettleChunkKeeps(es, i, transport[i].responses);
      if s.fault.None? {
        DispatchKeeps(s.entries, chunks, transport, i + 1);
      }
    }
  }

  /** When every chunk from i on succeeds, one call per chunk is issued in chunk order,
      the loop finishes, and the accumulated responses are the concatenation of the
      chunks' response lists. */
  lemma {:induction false} DispatchAllSucceed(es: seq<Entry>, chunks: seq<seq<SubRequest>>, transport: seq<ChunkResult>, i: nat)
    requires i <= |chunks| <= |transport|
    requires forall k :: i <= k < |chunks| ==> ChunkSucceeds(transport, k, |es|)
    ensures DispatchFrom(es, chunks, transport, i).stop == Finished
    ensures DispatchFrom(es, chunks, transport, i).sent == Calls(chunks[i..])
    ensures DispatchFrom(es, chunks, transport, i).responses == AllResponses(transport[i..|chunks|])
    decreases |chunks| - i
  {
    if i < |chunks| {
      assert ChunkSucceeds(transport, i, |es|);
      var rs := transport[i].responses;
      var s := SettleChunk(es, i, rs);
      SettleChunkKeeps(es, i, rs);
      DispatchStep(es, chunks, transport, i);
      DispatchAllSucceed(s.entries, chunks, transport, i + 1);
      CallsCons(chunks, i, |chunks|);
      assert chunks[i..] == chunks[i..|chunks|] && chunks[i + 1..] == chunks[i + 1..|chunks|];
      assert transport[i..|chunks|][1..] == transport[i + 1..|chunks|];
      assert AllResponses(transport[i..|chunks|]) == rs + AllResponses(transport[i + 1..|chunks|]);
    } else {
      assert chunks[i..] == [];
      assert transport[i..|chunks|] == [];
    }
  }

  /** When chunk k is the first from i on that does not succeed, the calls for chunks
      i..k are issued and no later one, and the loop stops for the reason chunk k gives.
      When chunk k's call fails or never answers, the entries are those the chunks i..k-1
      left: chunk k and later settle nothing, so an entry still pending after chunks
      i..k-1 stays pending. */
  lemma {:induction false} DispatchStopsAt(es: seq<Entry>, chunks: seq<seq<SubRequest>>, transport: seq<ChunkResult>, i: nat, k: nat)
    requires i <= k < |chunks|
    requires forall j :: i <= j < k ==> ChunkSucceeds(transport, j, |es|)
    requires !ChunkSucceeds(transport, k, |es|)
    ensures DispatchFrom(es, chunks, transport, i).sent == Calls(chunks[i..k + 1])
    ensures DispatchFrom(es, chunks, transport, i).stop == StopAt(transport, k, |es|)
    ensures k >= |transport| || transport[k].TransportFailed? ==>
      DispatchFrom(es, chunks, transport, i).entries == DispatchFrom(es, chunks[..k], transport, i).entries
    decreases k - i
  {
    if i < k {
      assert ChunkSucceeds(transport, i, |es|);
      var rs := transport[i].responses;
      var s := SettleChunk(es, i, rs);
      SettleChunkKeeps(es, i, rs);
      DispatchStep(es, chunks, transport, i);
      DispatchStep(es, chunks[..k], transport, i);
      DispatchStopsAt(s.entries, chunks, transport, i + 1, k);
      CallsCons(chunks, i, k + 1);
    } else {
      assert chunks[i..k + 1] == [chunks[k]];
      if k < |transport| && transport[k].Delivered? {
        SettleChunkFaultIff(es, k, transport[k].responses);
      }
    }
  }

  /** The loop finishes exactly when every chunk from i on succeeds. */
  lemma DispatchFinishesIff(es: seq<Entry>, chunks: seq<seq<SubRequest>>, transport: seq<ChunkResult>, i: nat)
    requires i <= |chunks|
    ensures DispatchFrom(es, chunks, transport, i).stop == Finished
        <==> forall k :: i <= k < |chunks| ==> ChunkSucceeds(transport, k, |es|)
  {
    if forall k :: i <= k < |chunks| ==> ChunkSucceeds(transport, k, |es|) {
      if i < |chunks| {
        assert ChunkSucceeds(transport, |chunks| - 1, |es|);
        DispatchAllSucceed(es, chunks, transport, i);
      }
    } else {
      var k := FirstFailure(transport, |es|, i, |chunks|);
      DispatchStopsAt(es, chunks, transport, i, k);
    }
  }

  /** The first chunk in [i, m) that does not succeed, when there is one. */
  function FirstFailure(transport: seq<ChunkResult>, n: nat, i: nat, m: nat): (k: nat)
    requires i <= m
    requires exists k :: i <= k < m && !ChunkSucceeds(transport, k, n)
    ensures i <= k < m && !ChunkSucceeds(transport, k, n)
    ensures forall j :: i <= j < k ==> ChunkSucceeds(transport, j, n)
    decreases m - i
  {
    if !ChunkSucceeds(transport, i, n) then i else FirstFailure(transport, n, i + 1, m)
  }

  /** A transport that answers every chunk with exactly one response per sub-request. */
  predicate Aligned(chunks: seq<seq<SubRequest>>, transport: seq<ChunkResult>) {
    |chunks| <= |transport| &&
    forall k :: 0 <= k < |chunks| ==> transport[k].Delivered? && |transport[k].responses| == |chunks[k]|
  }

  /** From chunk 1 on, with an aligned transport and chunks of at most BATCH_SIZE, the
      loop settles nothing and finishes. */
  lemma {:induction false} LaterChunksSettleNothing(es: seq<Entry>, chunks: seq<seq<SubRequest>>, transport: seq<ChunkResult>, i: nat)
    requires i >= 1
    requires Aligned(chunks, transport)
    requires forall k :: 0 <= k < |chunks| ==> |chunks[k]| <= BATCH_SIZE
    ensures DispatchFrom(es, chunks, transport, i).entries == es
    ensures DispatchFrom(es, chunks, transport, i).stop == Finished
    decreases |chunks| - i
  {
    if i < |chunks| {
      LaterChunkSettlesNothing(es, i, transport[i].responses);
      LaterChunksSettleNothing(es, chunks, transport, i + 1);
    }
  }

  /** The settlement of a whole commit as written: with a transport that answers every
      chunk of the batch with one response per sub-request, the loop finishes, the
      requests of the first chunk (positions below BATCH_SIZE) are settled from the first
      response list, and every request at position BATCH_SIZE or later is left untouched,
      so a pending one stays pending. */
  lemma OnlyFirstChunkSettles(es: seq<Entry>, transport: seq<ChunkResult>)
    requires Aligned(Chunk(Project(es), BATCH_SIZE), transport)
    ensures DispatchFrom(es, Chunk(Project(es), BATCH_SIZE), transport, 0).stop == Finished
    ensures |DispatchFrom(es, Chunk(Project(es), BATCH_SIZE), transport, 0).entries| == |es|
    ensures |es| > 0 ==>
      (|transport| > 0 && transport[0].Delivered? &&
       |transport[0].responses| == if |es| <= BATCH_SIZE then |es| else BATCH_SIZE)
    ensures forall p :: 0 <= p < |es| && p < BATCH_SIZE ==>
      DispatchFrom(es, Chunk(Project(es), BATCH_SIZE), transport, 0).entries[p] == SettleEntry(es[p], transport[0].responses[p])
    ensures forall p :: BATCH_SIZE <= p < |es| ==>
      DispatchFrom(es, Chunk(Project(es), BATCH_SIZE), transport, 0).entries[p] == es[p]
  {
    var chunks := Chunk(Project(es), BATCH_SIZE);
    DispatchKeeps(es, chunks, transport, 0);
    ChunkShape(Project(es), BATCH_SIZE);
    if |es| > 0 {
      var rs := transport[0].responses;
      assert |chunks[0]| == if |es| <= BATCH_SIZE then |es| else BATCH_SIZE;
      assert |rs| == |chunks[0]|;
      FirstChunkSettles(es, rs);
      var s := SettleChunk(es, 0, rs);
      assert ChunkSucceeds(transport, 0, |es|);
      DispatchStep(es, chunks, transport, 0);
      SettleChunkKeeps(es, 0, rs);
      LaterChunksSettleNothing(s.entries, chunks, transport, 1);
    }
  }
}
