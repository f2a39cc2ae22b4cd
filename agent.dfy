/**
 * The `Agent` object of lib/agent/index.js: the `partials` dictionary of
 * spans in flight, the request counter and the current reservoir sampler,
 * updated in place by the event handlers. Each handler is proved to leave
 * the agent in the state the matching function of module Recorder
 * computes from the state before the call; the properties of those
 * functions are in module RecorderLemmas.
 *
 * The ambient context (transaction id and span id) is an explicit
 * argument; timestamps, the random slot of a sampler add and the
 * measurements sent to the metrics collaborators are arguments or results.
 */
module Agents {
  import opened Wrappers
  import opened Spans
  import opened Sampling
  import opened Recorder
  import RecorderLemmas

  class Agent {
    var partials: map<string, Span>
    var totalRequestCount: nat
    var reservoirSampler: ReservoirSampler<Span>

    /** The agent's state as a value. */
    function View(): AgentView
      reads this, reservoirSampler
    {
      AgentView(partials, totalRequestCount, reservoirSampler.View())
    }

    ghost predicate Valid()
      reads this, reservoirSampler
    {
      Recorder.Valid(View())
    }

    constructor ()
      ensures Valid() && View() == Initial() && fresh(reservoirSampler)
    {
      totalRequestCount := 0;
      partials := map[];
      reservoirSampler := new ReservoirSampler(MUST_COLLECT_LIMIT);
    }

    /** Returns the entry for `id`, creating it first if needed; nothing for a missing id. */
    method OpenSpan(id: string) returns (span: Option<Span>)
      requires Valid()
      modifies this
      ensures Valid() && reservoirSampler == old(reservoirSampler)
      ensures View() == Recorder.OpenSpan(old(View()), id)
      ensures span == Opened(old(partials), id)
    {
      if id == "" {
        return None;
      }
      if id !in partials {
        partials := partials[id := NewSpan(id)];
      }
      span := Some(partials[id]);
    }

    method ServerReceive(data: ServerRecvInput) returns (edge: IncomingEdge)
      requires Valid()
      requires data.id != ""
      modifies this
      ensures Valid() && reservoirSampler == old(reservoirSampler)
      ensures View() == Recorder.ServerReceive(old(View()), data)
      ensures edge == IncomingEdgeOf(data)
    {
      totalRequestCount := totalRequestCount + 1;
      var span := OpenSpan(data.id);
      var transportDelay := None;
      if data.time.Some? && data.originTime.Some? {
        transportDelay := Some(data.time.value - data.originTime.value);
      }
      edge := IncomingEdge(data.parentId, data.protocol, transportDelay);
      partials := partials[data.id := Append(span.value, SrEvent(data))];
    }

    method ServerSend(data: ServerSendInput, draw: nat)
      requires Valid()
      modifies this, reservoirSampler
      ensures Valid() && reservoirSampler == old(reservoirSampler)
      ensures View() == Recorder.ServerSend(old(View()), data, draw)
    {
      var found := Find(partials, data.id);
      if found.None? {
        return;
      }
      var span := Append(found.value, SsEvent(data));
      span := span.(isForceSampled := span.isForceSampled || data.mustCollectError);
      if span.isForceSampled {
        AddPreservesDense(reservoirSampler.View(), span, draw);
        var isAdded := reservoirSampler.AddReturnsSuccess(span, draw);
      }
      partials := partials - {data.id};
    }

    method ClientSend(data: ClientSendInput)
      requires Valid()
      modifies this
      ensures Valid() && reservoirSampler == old(reservoirSampler)
      ensures View() == Recorder.ClientSend(old(View()), data)
    {
      var found := Find(partials, data.id);
      if found.None? {
        return;
      }
      var span := found.value;
      if data.err.Some? {
        span := span.(isForceSampled := true);
      }
      span := Append(span, ClientSendEvent(data));
      var hasServerReceive := HasEventOf(span.events, SR);
      var hasClientSend := HasEventOf(span.events, CS);
      // worker requests are not supported: clean them up
      var workerRequest := !hasServerReceive && hasClientSend;
      partials := if workerRequest then partials - {data.id} else partials[data.id := span];
    }

    /** Returns the external edge reported to the metrics collaborator, if any. */
    method ClientReceive(data: ClientRecvInput) returns (edge: Option<ExternalEdge>)
      requires Valid()
      modifies this
      ensures Valid() && reservoirSampler == old(reservoirSampler)
      ensures View() == Recorder.ClientReceive(old(View()), data)
      ensures edge == ExternalEdgeOf(data)
    {
      var found := Find(partials, data.id);
      edge := None;
      if data.targetServiceKey.None? {
        if data.statusCode.None? || data.statusCode.value < 500 {
          edge := Some(ExternalEdge(data.host, data.protocol, data.status, data.responseTime));
        }
      }
      if found.None? {
        return;
      }
      partials := partials[data.id := Append(found.value, CrEvent(data))];
    }

    method Report(ctx: Context, time: int, name: Option<string>, data: UserPayload, isError: bool)
      requires Valid()
      modifies this
      ensures Valid() && reservoirSampler == old(reservoirSampler)
      ensures View() == Recorder.Report(old(View()), ctx, time, name, data, isError)
    {
      var found := Find(partials, ctx.transactionId);
      if found.None? {
        return;
      }
      var span := found.value;
      var event := UserEvent(ctx, time, name, data, isError);
      var isFound := HasName(span.events, name);
      if !isFound {
        partials := partials[ctx.transactionId := Append(span, event)];
      }
    }

    method ReportError(ctx: Context, time: int, name: Option<string>, data: UserPayload)
      requires Valid()
      modifies this
      ensures Valid() && reservoirSampler == old(reservoirSampler)
      ensures View() == Recorder.Report(old(View()), ctx, time, name, data, true)
    {
      Report(ctx, time, name, data, true);
    }

    /** Records a crash in the active span and flushes synchronously; returns the batch emitted, if any. */
    method OnCrash(ctx: Context, time: int, crash: StackTrace, draw: nat) returns (batch: Option<Batch>)
      requires Valid()
      modifies this, reservoirSampler
      ensures Valid()
      ensures (View(), batch) == Recorder.OnCrash(old(View()), ctx, time, crash, draw)
      ensures reservoirSampler == old(reservoirSampler) || fresh(reservoirSampler)
    {
      var found := Find(partials, ctx.transactionId);
      if found.None? {
        return None;
      }
      var span := found.value.(isForceSampled := true);
      span := Append(span, CrashEvent(ctx, time, crash));
      partials := partials[ctx.transactionId := span];
      AddPreservesDense(reservoirSampler.View(), span, draw);
      var isAdded := reservoirSampler.AddReturnsSuccess(span, draw);
      batch := Send(true);
    }

    /** Deletes the entry for `requestId`, whether or not it is visible. */
    method ClearTransaction(requestId: string)
      requires Valid()
      modifies this
      ensures Valid() && reservoirSampler == old(reservoirSampler)
      ensures View() == Recorder.ClearTransaction(old(View()), requestId)
    {
      partials := partials - {requestId};
    }

    /** `_send`: returns the batch handed to the collector, if the sampler held anything. */
    method Send(isSync: bool) returns (batch: Option<Batch>)
      requires Valid()
      modifies this
      ensures Valid()
      ensures (View(), batch) == Recorder.Send(old(View()), isSync)
      ensures reservoirSampler == old(reservoirSampler) || fresh(reservoirSampler)
    {
      var spans := reservoirSampler.GetItems();
      batch := None;
      if |spans| > 0 {
        var dataBag := Batch(1, 1, spans, isSync);
        totalRequestCount := 0;
        reservoirSampler := new ReservoirSampler(MUST_COLLECT_LIMIT);
        batch := Some(dataBag);
      }
    }
  }

  /**
   * A new agent that receives a request and answers it with a must-collect
   * error holds exactly that span in its sampler, force-sampled, with its
   * 'sr' and 'ss' events, and no longer finds it.
   */
  method ForceCollectedRequestScenario(d1: ServerRecvInput, d2: ServerSendInput, draw: nat)
    returns (kept: seq<Span>, found: Option<Span>)
    requires d1.id != "" && d2.id == d1.id && d2.mustCollectError
    ensures kept == [Span(d1.id, false, true, [SrEvent(d1), SsEvent(d2)])]
    ensures found == None
  {
    var agent := new Agent();
    var edge := agent.ServerReceive(d1);
    agent.ServerSend(d2, draw);
    RecorderLemmas.ForceCollectedRequest(d1, d2, draw);
    kept := agent.reservoirSampler.GetItems();
    found := Find(agent.partials, d1.id);
  }
}
