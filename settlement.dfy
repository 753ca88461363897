/** The chunk-settlement callback of COMMIT_BATCH: how one bulk response settles
    the promises of the batch's stored requests. */
module Settlement {
  import opened BatchTypes

  /** An "ok status" in the sense of section 2.2.3 (Statuses) of the WHATWG Fetch
      Standard: the range 200 to 299. `Response.ok` is true exactly for these. */
  predicate IsOkStatus(status: int) {
    200 <= status <= 299
  }

  /** The outcome one sub-response gives the request it is matched with. In raw mode a
      response object carrying status, headers and body is resolved when `Response.ok`
      holds; otherwise the body itself is resolved when the status is below 400; in
      both modes the same value is rejected in the other case. */
  function Classify(req: Request, data: SubResponse): Settlement {
    if WantsRaw(req) then
      var response := RawResponse(data.status, data.headers, data.body);
      if IsOkStatus(data.status) then Resolved(response) else Rejected(response)
    else
      if data.status < 400 then Resolved(Body(data.body)) else Rejected(Body(data.body))
  }

  /** A promise settles at most once: `resolve` or `reject` on a settled promise does nothing. */
  function Settle(slot: Settlement, outcome: Settlement): Settlement {
    if slot.Pending? then outcome else slot
  }

  /** Settling one stored entry from a sub-response. */
  function SettleEntry(e: Entry, data: SubResponse): (r: Entry)
    ensures r.request == e.request
    ensures e.slot.Pending? ==> r.slot == Classify(e.request, data)
    ensures !e.slot.Pending? ==> r == e
  {
    e.(slot := Settle(e.slot, Classify(e.request, data)))
  }

  /** Entries whose index j lies in [lo, hi) and indexes `responses` are settled from
      `responses[j]`; every other entry is left as it is. */
  function SettleRange(es: seq<Entry>, lo: nat, hi: nat, responses: seq<SubResponse>): (r: seq<Entry>)
    ensures |r| == |es|
    ensures forall j :: 0 <= j < |es| && lo <= j < hi && j < |responses| ==> r[j] == SettleEntry(es[j], responses[j])
    ensures forall j :: 0 <= j < |es| && !(lo <= j < hi && j < |responses|) ==> r[j] == es[j]
  {
    seq(|es|, j requires 0 <= j < |es| =>
      if lo <= j < hi && j < |responses| then SettleEntry(es[j], responses[j]) else es[j])
  }

  /** The entries after the callback ran, and the index whose missing entry made it throw. */
  datatype Settled = Settled(entries: seq<Entry>, fault: Option<nat>)

  /** The callback for chunk number k as written: j runs from k * BATCH_SIZE while
      j < |responses|, and settles `requests[j]` from `responses[j]` (the chunk's own
      list, indexed by the batch-wide j). When j reaches a position past the stored
      requests, `requests[j]` is undefined and destructuring it throws. */
  function SettleChunk(es: seq<Entry>, k: nat, responses: seq<SubResponse>): Settled {
    var lo := k * BATCH_SIZE;
    Settled(SettleRange(es, lo, |responses|, responses),
            if lo < |responses| && |es| < |responses| then Some(if lo < |es| then |es| else lo) else None)
  }

  /** Raw and parsed mode agree on success exactly when the status is 200-299 or at
      least 400: a status below 200 or in 300-399 resolves a parsed request but
      rejects a raw one. */
  lemma ModesAgreeIff(raw: Request, parsed: Request, data: SubResponse)
    requires WantsRaw(raw) && !WantsRaw(parsed)
    ensures Classify(raw, data).Resolved? == Classify(parsed, data).Resolved?
        <==> IsOkStatus(data.status) || data.status >= 400
    ensures !(IsOkStatus(data.status) || data.status >= 400) ==>
        Classify(raw, data).Rejected? && Classify(parsed, data).Resolved?
  {
  }

  /** Both modes settle from the same sub-response: status, headers and body of
      the raw value, or the body alone. */
  lemma ClassifyCarriesResponse(req: Request, data: SubResponse)
    ensures !Classify(req, data).Pending?
    ensures WantsRaw(req) ==> Classify(req, data).value == RawResponse(data.status, data.headers, data.body)
    ensures !WantsRaw(req) ==> Classify(req, data).value == Body(data.body)
    ensures Classify(req, data).Resolved? <==> (if WantsRaw(req) then IsOkStatus(data.status) else data.status < 400)
  {
  }

  /** The stored requests never change and a settled promise keeps its outcome. */
  lemma SettleChunkKeeps(es: seq<Entry>, k: nat, responses: seq<SubResponse>)
    ensures |SettleChunk(es, k, responses).entries| == |es|
    ensures forall j :: 0 <= j < |es| ==> SettleChunk(es, k, responses).entries[j].request == es[j].request
    ensures forall j :: 0 <= j < |es| && !es[j].slot.Pending? ==> SettleChunk(es, k, responses).entries[j] == es[j]
  {
  }

  /** The callback throws exactly when it runs at all and the response list is longer
      than the batch. */
  lemma SettleChunkFaultIff(es: seq<Entry>, k: nat, responses: seq<SubResponse>)
    ensures SettleChunk(es, k, responses).fault.Some? <==> k * BATCH_SIZE < |responses| && |es| < |responses|
  {
  }

  /** Chunk 0 with at most one response per stored request: entry j (j < |responses|) is
      settled from `responses[j]`, all later entries are untouched, nothing throws. */
  lemma FirstChunkSettles(es: seq<Entry>, responses: seq<SubResponse>)
    requires |responses| <= |es|
    ensures SettleChunk(es, 0, responses).fault == None
    ensures forall j :: 0 <= j < |responses| ==> SettleChunk(es, 0, responses).entries[j] == SettleEntry(es[j], responses[j])
    ensures forall j :: |responses| <= j < |es| ==> SettleChunk(es, 0, responses).entries[j] == es[j]
  {
  }

  /** A later chunk whose response list holds at most BATCH_SIZE entries settles nothing:
      the loop starts at k * BATCH_SIZE >= |responses|. */
  lemma LaterChunkSettlesNothing(es: seq<Entry>, k: nat, responses: seq<SubResponse>)
    requires k >= 1 && |responses| <= BATCH_SIZE
    ensures SettleChunk(es, k, responses) == Settled(es, None)
  {
    var r := SettleChunk(es, k, responses).entries;
    assert forall j :: 0 <= j < |es| ==> r[j] == es[j];
  }
}
