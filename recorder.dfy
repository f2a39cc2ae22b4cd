/**
 * The span registry and event recorder of the agent (lib/agent/index.js),
 * stated on values: `AgentView` is what an `Agent` object holds (its
 * `partials` dictionary, its request counter and its sampler), and each
 * handler is a function from the view before the call to the view after
 * it. The class in module Agents performs the same handlers step by step
 * and is proved to agree with these functions; the lemmas below state what
 * the handlers promise.
 */
module Recorder {
  import opened Wrappers
  import opened Spans
  import opened Sampling

  /** The size limit of every sampler the agent creates. */
  const MUST_COLLECT_LIMIT: nat := 100

  datatype AgentView = AgentView(partials: map<string, Span>, totalRequestCount: nat, reservoir: Reservoir<Span>)

  /** The batch handed to the collector: the sample metadata as written (rate 1, count 1) and the spans. */
  datatype Batch = Batch(sampleRate: int, sampleTotalRequestCount: int, spans: seq<Span>, isSync: bool)

  /**
   * The incoming-edge measurement `serverReceive` reports. The service key
   * is the parent header as given; a transport delay of None is the NaN
   * that subtracting an undefined time gives.
   */
  datatype IncomingEdge = IncomingEdge(serviceKey: string, protocol: string, transportDelay: Option<int>)

  /** The external-edge measurement `clientReceive` reports. */
  datatype ExternalEdge = ExternalEdge(targetHost: string, protocol: string, status: int, responseTime: int)

  /** A freshly created agent. */
  function Initial(): (v: AgentView)
    ensures Valid(v) && v.partials == map[] && v.totalRequestCount == 0
    ensures v.reservoir.items == [] && v.reservoir.seen == 0 && v.reservoir.limit == MUST_COLLECT_LIMIT
  {
    AgentView(map[], 0, Fresh(MUST_COLLECT_LIMIT))
  }

  /** Every entry is stored under its own request id. */
  predicate Keyed(p: map<string, Span>)
  {
    forall k :: k in p ==> p[k].requestId == k
  }

  /** What every handler preserves: entries are keyed by request id, and the sampler keeps at most 100 spans. */
  predicate Valid(v: AgentView)
  {
    Keyed(v.partials) && Dense(v.reservoir) && v.reservoir.limit == MUST_COLLECT_LIMIT
  }

  function NewSpan(id: string): Span
  {
    Span(id, false, false, [])
  }

  function Append(s: Span, e: Event): Span
  {
    s.(events := s.events + [e])
  }

  /** `openSpan` on the dictionary: a missing id changes nothing; otherwise the entry is created unless present. */
  function Open(p: map<string, Span>, id: string): (r: map<string, Span>)
    ensures r.Keys == if id == "" then p.Keys else p.Keys + {id}
    ensures forall k :: k in p ==> r[k] == p[k]
    ensures id != "" && id !in p ==> r[id] == Span(id, false, false, [])
  {
    if id == "" || id in p then p else p[id := NewSpan(id)]
  }

  /** The span `openSpan` returns: none for a missing id, the (possibly new) entry otherwise. */
  function Opened(p: map<string, Span>, id: string): (r: Option<Span>)
    ensures r.None? <==> id == ""
    ensures id != "" && id in p ==> r == Some(p[id])
    ensures id != "" && id !in p ==> r == Some(Span(id, false, false, []))
  {
    if id == "" then None else Some(Open(p, id)[id])
  }

  /** `findSpan`: an entry is visible only when it holds an 'sr' event. */
  function Find(p: map<string, Span>, id: string): (r: Option<Span>)
    ensures r.Some? <==> id != "" && id in p && exists i :: 0 <= i < |p[id].events| && p[id].events[i].kind == SR
    ensures r.Some? ==> r.value == p[id]
  {
    if id == "" || id !in p then None
    else if HasEventOf(p[id].events, SR) then Some(p[id])
    else None
  }

  /** `openSpan` on the agent: only `partials` can change, and only by a new entry for `id`. */
  function OpenSpan(v: AgentView, id: string): (w: AgentView)
    ensures w.totalRequestCount == v.totalRequestCount && w.reservoir == v.reservoir
    ensures w.partials.Keys <= v.partials.Keys + {id}
    ensures forall k :: k in v.partials ==> k in w.partials && w.partials[k] == v.partials[k]
  {
    v.(partials := Open(v.partials, id))
  }

  /** `serverReceive`: counts the request, opens the span and appends an 'sr' event. */
  function ServerReceive(v: AgentView, d: ServerRecvInput): (w: AgentView)
    requires d.id != ""
    ensures w.totalRequestCount == v.totalRequestCount + 1 && w.reservoir == v.reservoir
    ensures w.partials.Keys == v.partials.Keys + {d.id}
    ensures Find(w.partials, d.id) == Some(w.partials[d.id])
    ensures forall k :: k in v.partials && k != d.id ==> w.partials[k] == v.partials[k]
  {
    var p := Open(v.partials, d.id);
    var s := Append(p[d.id], SrEvent(d));
    assert s.events[|s.events| - 1].kind == SR;
    AgentView(p[d.id := s], v.totalRequestCount + 1, v.reservoir)
  }

  /**
   * The transport delay is the time as given minus the origin time, and is
   * NaN when either is undefined; the clock fallback of the event's time
   * plays no part. The service key is the unparsed parent header.
   */
  function IncomingEdgeOf(d: ServerRecvInput): (edge: IncomingEdge)
    ensures edge.transportDelay.Some? <==> d.time.Some? && d.originTime.Some?
    ensures edge.transportDelay.Some? ==> edge.transportDelay.value + d.originTime.value == d.time.value
    ensures edge.serviceKey == d.parentId && edge.protocol == d.protocol
  {
    var delay := if d.time.Some? && d.originTime.Some? then Some(d.time.value - d.originTime.value) else None;
    IncomingEdge(d.parentId, d.protocol, delay)
  }

  /** The span `serverSend` closes: an 'ss' event appended, force-sampled if it was or if the request must be collected. */
  function Closed(s: Span, d: ServerSendInput): (t: Span)
    ensures t.requestId == s.requestId && t.isSampled == s.isSampled
    ensures |t.events| == |s.events| + 1 && t.events[..|s.events|] == s.events && t.events[|s.events|].kind == SS
    ensures t.isForceSampled <==> s.isForceSampled || d.mustCollectError
  {
    Append(s, SsEvent(d)).(isForceSampled := s.isForceSampled || d.mustCollectError)
  }

  /** `serverSend`: absent span, no change; otherwise closes it, submits it if force-sampled, and removes the entry. */
  function ServerSend(v: AgentView, d: ServerSendInput, draw: nat): (w: AgentView)
    ensures Find(w.partials, d.id) == None
    ensures w.totalRequestCount == v.totalRequestCount
    ensures forall k :: k in w.partials ==> k in v.partials && w.partials[k] == v.partials[k]
    ensures Find(v.partials, d.id).Some? ==> w.partials.Keys == v.partials.Keys - {d.id}
    ensures w.reservoir.limit == v.reservoir.limit
  {
    match Find(v.partials, d.id)
    case None => v
    case Some(s) =>
      var closed := Closed(s, d);
      AgentView(v.partials - {d.id}, v.totalRequestCount,
                if closed.isForceSampled then Add(v.reservoir, closed, draw) else v.reservoir)
  }

  /** The span `clientSend` leaves behind: force-sampled on error, one event appended. */
  function Sent(s: Span, d: ClientSendInput): (t: Span)
    ensures t.requestId == s.requestId && t.isSampled == s.isSampled
    ensures |t.events| == |s.events| + 1 && t.events[..|s.events|] == s.events
    ensures t.events[|s.events|].kind == if d.err.Some? then Err else CS
    ensures t.isForceSampled <==> s.isForceSampled || d.err.Some?
  {
    Append(if d.err.Some? then s.(isForceSampled := true) else s, ClientSendEvent(d))
  }

  /**
   * `clientSend` as written, including its clean-up of spans that have a
   * 'cs' event and no 'sr' event (which lemma ClientSendNeverCleansUp shows
   * cannot happen).
   */
  function ClientSend(v: AgentView, d: ClientSendInput): (w: AgentView)
    ensures w.totalRequestCount == v.totalRequestCount && w.reservoir == v.reservoir
    ensures w.partials.Keys <= v.partials.Keys
    ensures forall k :: k in w.partials && k != d.id ==> w.partials[k] == v.partials[k]
    ensures Find(v.partials, d.id) == None ==> w == v
  {
    match Find(v.partials, d.id)
    case None => v
    case Some(s) =>
      var t := Sent(s, d);
      var workerRequest := !HasEventOf(t.events, SR) && HasEventOf(t.events, CS);
      v.(partials := if workerRequest then v.partials - {d.id} else v.partials[d.id := t])
  }

  /** `clientReceive` reports an external edge only for an untraced peer that did not answer with a 5xx status. */
  function ExternalEdgeOf(d: ClientRecvInput): (edge: Option<ExternalEdge>)
    ensures edge.Some? <==> d.targetServiceKey.None? && (d.statusCode.None? || d.statusCode.value < 500)
    ensures edge.Some? ==> edge.value.targetHost == d.host && edge.value.status == d.status
  {
    if d.targetServiceKey.None? && (d.statusCode.None? || d.statusCode.value < 500) then
      Some(ExternalEdge(d.host, d.protocol, d.status, d.responseTime))
    else None
  }

  /** `clientReceive`: appends a 'cr' event to a visible span. */
  function ClientReceive(v: AgentView, d: ClientRecvInput): (w: AgentView)
    ensures w.totalRequestCount == v.totalRequestCount && w.reservoir == v.reservoir
    ensures w.partials.Keys == v.partials.Keys
    ensures forall k :: k in w.partials && k != d.id ==> w.partials[k] == v.partials[k]
    ensures Find(v.partials, d.id).Some? ==>
      |w.partials[d.id].events| == |v.partials[d.id].events| + 1 && w.partials[d.id].events[|v.partials[d.id].events|].kind == CR
  {
    match Find(v.partials, d.id)
    case None => v
    case Some(s) => v.(partials := v.partials[d.id := Append(s, CrEvent(d))])
  }

  /** `report(name, data, isError)` in the ambient context `ctx`: the first event of each name wins. */
  function Report(v: AgentView, ctx: Context, time: int, name: Option<string>, data: UserPayload, isError: bool): (w: AgentView)
    ensures w.totalRequestCount == v.totalRequestCount && w.reservoir == v.reservoir
    ensures w.partials.Keys == v.partials.Keys
    ensures forall k :: k in w.partials && k != ctx.transactionId ==> w.partials[k] == v.partials[k]
    ensures w != v ==> Find(v.partials, ctx.transactionId).Some? && !HasName(v.partials[ctx.transactionId].events, name)
  {
    match Find(v.partials, ctx.transactionId)
    case None => v
    case Some(s) =>
      if HasName(s.events, name) then v
      else v.(partials := v.partials[ctx.transactionId := Append(s, UserEvent(ctx, time, name, data, isError))])
  }

  /** `_send`: a non-empty sampler is emitted as a batch and replaced, and the request counter reset. */
  function Send(v: AgentView, isSync: bool): (r: (AgentView, Option<Batch>))
    ensures r.1.Some? <==> |v.reservoir.items| > 0
    ensures r.1.Some? ==> r.1.value.spans == v.reservoir.items && r.1.value.isSync == isSync
    ensures r.1.Some? ==> r.0.reservoir.items == [] && r.0.reservoir.seen == 0 && r.0.totalRequestCount == 0
    ensures r.1.None? ==> r.0 == v
    ensures r.0.partials == v.partials
  {
    if |v.reservoir.items| > 0 then
      (v.(totalRequestCount := 0, reservoir := Fresh(MUST_COLLECT_LIMIT)),
       Some(Batch(1, 1, v.reservoir.items, isSync)))
    else (v, None)
  }

  /** The span `onCrash` leaves behind: force-sampled, with one 'system-error' event appended. */
  function Crashed(s: Span, ctx: Context, time: int, crash: StackTrace): (t: Span)
    ensures t.requestId == s.requestId && t.isSampled == s.isSampled && t.isForceSampled
    ensures |t.events| == |s.events| + 1 && t.events[..|s.events|] == s.events && t.events[|s.events|].kind == Err
  {
    Append(s.(isForceSampled := true), CrashEvent(ctx, time, crash))
  }

  /** `onCrash`: marks the active span, submits it to the sampler and flushes synchronously. */
  function OnCrash(v: AgentView, ctx: Context, time: int, crash: StackTrace, draw: nat): (r: (AgentView, Option<Batch>))
    ensures Find(v.partials, ctx.transactionId) == None ==> r == (v, None)
    ensures r.0.partials.Keys == v.partials.Keys
    ensures forall k :: k in v.partials && k != ctx.transactionId ==> r.0.partials[k] == v.partials[k]
    ensures r.1.Some? ==> r.0.reservoir.items == [] && r.1.value.isSync
  {
    match Find(v.partials, ctx.transactionId)
    case None => (v, None)
    case Some(s) =>
      var t := Crashed(s, ctx, time, crash);
      Send(AgentView(v.partials[ctx.transactionId := t], v.totalRequestCount, Add(v.reservoir, t, draw)), true)
  }

  /** `clearTransaction`: the entry for `id` is gone and nothing else changes. */
  function ClearTransaction(v: AgentView, id: string): (w: AgentView)
    ensures id !in w.partials && w.partials.Keys == v.partials.Keys - {id}
    ensures forall k :: k in w.partials ==> w.partials[k] == v.partials[k]
    ensures w.totalRequestCount == v.totalRequestCount && w.reservoir == v.reservoir
  {
    v.(partials := v.partials - {id})
  }

  /** One call into the agent, with the random slot its sampler add draws where it has one. */
  datatype Op =
    | OpenSpanOp(id: string)
    | ServerReceiveOp(sr: ServerRecvInput)
    | ServerSendOp(ss: ServerSendInput, draw: nat)
    | ClientSendOp(cs: ClientSendInput)
    | ClientReceiveOp(cr: ClientRecvInput)
    | ReportOp(ctx: Context, time: int, name: Option<string>, data: UserPayload, isError: bool)
    | OnCrashOp(ctx: Context, time: int, crash: StackTrace, draw: nat)
    | ClearTransactionOp(id: string)
    | SendOp(isSync: bool)

  /** `serverReceive` needs a request id; every other call accepts any argument. */
  predicate Enabled(op: Op)
  {
    op.ServerReceiveOp? ==> op.sr.id != ""
  }

  function Apply(v: AgentView, op: Op): AgentView
    requires Enabled(op)
  {
    match op
    case OpenSpanOp(id) => OpenSpan(v, id)
    case ServerReceiveOp(d) => ServerReceive(v, d)
    case ServerSendOp(d, draw) => ServerSend(v, d, draw)
    case ClientSendOp(d) => ClientSend(v, d)
    case ClientReceiveOp(d) => ClientReceive(v, d)
    case ReportOp(ctx, time, name, data, isError) => Report(v, ctx, time, name, data, isError)
    case OnCrashOp(ctx, time, crash, draw) => OnCrash(v, ctx, time, crash, draw).0
    case ClearTransactionOp(id) => ClearTransaction(v, id)
    case SendOp(isSync) => Send(v, isSync).0
  }

  function Run(v: AgentView, ops: seq<Op>): AgentView
    requires forall i :: 0 <= i < |ops| ==> Enabled(ops[i])
    decreases |ops|
  {
    if ops == [] then v else Run(Apply(v, ops[0]), ops[1..])
  }
}
