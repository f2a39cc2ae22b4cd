/** What the recorder's handlers promise, one call at a time and over any sequence of calls. */
module RecorderLemmas {
  import opened Wrappers
  import opened Spans
  import opened Sampling
  import opened Recorder

  /**
   * `openSpan` is idempotent: a missing id changes nothing and yields no
   * span, an existing entry is returned untouched, and a new entry starts
   * unsampled with no events.
   */
  lemma OpenSpanIdempotent(p: map<string, Span>, id: string)
    ensures Open(Open(p, id), id) == Open(p, id)
    ensures id == "" ==> Open(p, id) == p && Opened(p, id) == None
    ensures id in p ==> Open(p, id) == p && (id != "" ==> Opened(p, id) == Some(p[id]))
    ensures id != "" && id !in p ==> Opened(p, id) == Some(Span(id, false, false, []))
    ensures forall k :: k in p ==> k in Open(p, id) && Open(p, id)[k] == p[k]
    ensures Open(p, id).Keys <= p.Keys + {id}
  {
  }

  /**
   * `serverReceive` counts exactly one request and appends exactly one 'sr'
   * event at the end of the span, which is visible afterwards; other
   * entries and the sampler are untouched, and the event's parent is the
   * parsed parent id.
   */
  lemma ServerReceiveAppendsSr(v: AgentView, d: ServerRecvInput)
    requires d.id != ""
    ensures var w := ServerReceive(v, d);
      && w.totalRequestCount == v.totalRequestCount + 1
      && w.reservoir == v.reservoir
      && d.id in w.partials
      && w.partials[d.id].events == (if d.id in v.partials then v.partials[d.id].events else []) + [SrEvent(d)]
      && w.partials[d.id].isForceSampled == (d.id in v.partials && v.partials[d.id].isForceSampled)
      && Find(w.partials, d.id) == Some(w.partials[d.id])
      && SrEvent(d).kind == SR && SrEvent(d).data.parent == d.parsedParent
      && SrEvent(d).time == ReceiptTime(d)
      && w.partials.Keys == v.partials.Keys + {d.id}
      && forall k :: k in v.partials && k != d.id ==> w.partials[k] == v.partials[k]
  {
    var w := ServerReceive(v, d);
    var events := w.partials[d.id].events;
    assert events[|events| - 1].kind == SR;
  }

  /** `serverSend` on a span that is not visible changes nothing, not even an entry without an 'sr' event. */
  lemma ServerSendAbsentIsNoOp(v: AgentView, d: ServerSendInput, draw: nat)
    requires Find(v.partials, d.id) == None
    ensures ServerSend(v, d, draw) == v
  {
  }

  /**
   * `serverSend` on a visible span appends one 'ss' event, keeps a set
   * force-sampled flag and sets it for a must-collect error, submits the
   * span to the sampler exactly when it is force-sampled, and removes the
   * entry so that the span is no longer found.
   */
  lemma ServerSendCloses(v: AgentView, d: ServerSendInput, draw: nat)
    requires Find(v.partials, d.id).Some?
    ensures var s := v.partials[d.id];
            var w := ServerSend(v, d, draw);
      && Closed(s, d).events == s.events + [SsEvent(d)]
      && Closed(s, d).isForceSampled == (s.isForceSampled || d.mustCollectError)
      && (s.isForceSampled ==> Closed(s, d).isForceSampled)
      && w.partials == v.partials - {d.id}
      && Find(w.partials, d.id) == None
      && w.totalRequestCount == v.totalRequestCount
      && w.reservoir == (if Closed(s, d).isForceSampled then Add(v.reservoir, Closed(s, d), draw) else v.reservoir)
  {
  }

  /** The span opened by `serverReceive` is gone after `serverSend` with the same id. */
  lemma ReceiveThenSendRemoves(v: AgentView, d1: ServerRecvInput, d2: ServerSendInput, draw: nat)
    requires d1.id != "" && d2.id == d1.id
    ensures var w := ServerSend(ServerReceive(v, d1), d2, draw);
      d1.id !in w.partials && Find(w.partials, d1.id) == None
  {
    ServerReceiveAppendsSr(v, d1);
  }

  /**
   * A request received, then answered with a must-collect error, leaves the
   * fresh sampler holding exactly that span: force-sampled, with its 'sr'
   * and 'ss' events.
   */
  lemma ForceCollectedRequest(d1: ServerRecvInput, d2: ServerSendInput, draw: nat)
    requires d1.id != "" && d2.id == d1.id && d2.mustCollectError
    ensures var w := ServerSend(ServerReceive(Initial(), d1), d2, draw);
      && w.reservoir.items == [Span(d1.id, false, true, [SrEvent(d1), SsEvent(d2)])]
      && w.partials == map[]
      && w.totalRequestCount == 1
  {
    var w := ServerReceive(Initial(), d1);
    ServerReceiveAppendsSr(Initial(), d1);
    assert w.partials[d1.id] == Span(d1.id, false, false, [SrEvent(d1)]);
    assert Closed(w.partials[d1.id], d2) == Span(d1.id, false, true, [SrEvent(d1), SsEvent(d2)]);
  }

  /**
   * Once the sampler has been offered 100 spans, a force-sampled span whose
   * draw misses every slot is not kept: force-sampling does not bypass the
   * reservoir.
   */
  lemma ForceSampledSpanCanBeDropped(v: AgentView, d: ServerSendInput, draw: nat)
    requires Valid(v)
    requires Find(v.partials, d.id).Some? && d.mustCollectError
    requires v.reservoir.seen >= MUST_COLLECT_LIMIT && draw >= MUST_COLLECT_LIMIT
    ensures ServerSend(v, d, draw).reservoir.items == v.reservoir.items
    ensures ServerSend(v, d, draw).reservoir.seen == v.reservoir.seen + 1
  {
  }

  /**
   * The clean-up of worker requests in `clientSend` never fires: a span
   * `findSpan` returns already has an 'sr' event, and appending keeps it.
   * So `clientSend` on a visible span always stores the updated span.
   */
  lemma ClientSendNeverCleansUp(v: AgentView, d: ClientSendInput)
    requires Find(v.partials, d.id).Some?
    ensures HasEventOf(Sent(v.partials[d.id], d).events, SR)
    ensures ClientSend(v, d).partials == v.partials[d.id := Sent(v.partials[d.id], d)]
  {
    var s := v.partials[d.id];
    HasEventOfAppend(s.events, ClientSendEvent(d), SR);
  }

  /**
   * `clientSend` on a visible span appends exactly one event, an error
   * event when the call failed and a 'cs' event otherwise, and a failure
   * force-samples the span; on an absent span it changes nothing.
   */
  lemma ClientSendRecords(v: AgentView, d: ClientSendInput)
    ensures Find(v.partials, d.id) == None ==> ClientSend(v, d) == v
    ensures Find(v.partials, d.id).Some? ==>
      d.id in ClientSend(v, d).partials &&
      var s := v.partials[d.id];
      var t := ClientSend(v, d).partials[d.id];
      && t.events == s.events + [ClientSendEvent(d)]
      && t.events[|s.events|].kind == (if d.err.Some? then Err else CS)
      && t.isForceSampled == (s.isForceSampled || d.err.Some?)
      && Find(ClientSend(v, d).partials, d.id) == Some(t)
      && ClientSend(v, d).reservoir == v.reservoir
      && ClientSend(v, d).totalRequestCount == v.totalRequestCount
  {
    if Find(v.partials, d.id).Some? {
      ClientSendNeverCleansUp(v, d);
    }
  }

  /**
   * `clientReceive` appends one 'cr' event to a visible span and nothing
   * else; whether an external edge is reported does not depend on the span.
   */
  lemma ClientReceiveRecords(v: AgentView, d: ClientRecvInput)
    ensures Find(v.partials, d.id) == None ==> ClientReceive(v, d) == v
    ensures Find(v.partials, d.id).Some? ==>
      && ClientReceive(v, d).partials == v.partials[d.id := Append(v.partials[d.id], CrEvent(d))]
      && Find(ClientReceive(v, d).partials, d.id).Some?
    ensures ClientReceive(v, d).reservoir == v.reservoir
  {
    if Find(v.partials, d.id).Some? {
      HasEventOfAppend(v.partials[d.id].events, CrEvent(d), SR);
    }
  }

  /**
   * `report` on a visible span without an event of that name appends
   * exactly one event, an error when `isError` and a 'us' event otherwise;
   * when an event of that name exists, or the span is absent, nothing
   * changes.
   */
  lemma ReportRecords(v: AgentView, ctx: Context, time: int, name: Option<string>, data: UserPayload, isError: bool)
    ensures var w := Report(v, ctx, time, name, data, isError);
      && w.reservoir == v.reservoir && w.totalRequestCount == v.totalRequestCount
      && (Find(v.partials, ctx.transactionId) == None ==> w == v)
      && (Find(v.partials, ctx.transactionId).Some? ==>
            var s := v.partials[ctx.transactionId];
            if exists i :: 0 <= i < |s.events| && NameOf(s.events[i]) == name then w == v
            else
              && w.partials == v.partials[ctx.transactionId := Append(s, UserEvent(ctx, time, name, data, isError))]
              && w.partials[ctx.transactionId].events[|s.events|].kind == (if isError then Err else US))
  {
  }

  /**
   * First write wins: a second `report` with the same name in the same
   * context changes nothing, whatever its payload and error flag.
   */
  lemma ReportFirstWriteWins(v: AgentView, ctx: Context, time1: int, time2: int, name: Option<string>,
                             data1: UserPayload, data2: UserPayload, isError1: bool, isError2: bool)
    ensures var w := Report(v, ctx, time1, name, data1, isError1);
      Report(w, ctx, time2, name, data2, isError2) == w
  {
    var id := ctx.transactionId;
    var w := Report(v, ctx, time1, name, data1, isError1);
    if Find(v.partials, id).Some? {
      var s := v.partials[id];
      if !HasName(s.events, name) {
        var e := UserEvent(ctx, time1, name, data1, isError1);
        HasEventOfAppend(s.events, e, SR);
        HasNameAppend(s.events, e, name);
        assert w.partials[id] == Append(s, e);
      }
    }
  }

  /**
   * A `report` without a name is always dropped: the name `undefined`
   * matches the 'sr' event, whose data has no name, so the span is taken
   * to hold an event of that name already.
   */
  lemma ReportWithoutNameIsDropped(v: AgentView, ctx: Context, time: int, data: UserPayload, isError: bool)
    ensures Report(v, ctx, time, None, data, isError) == v
  {
    var id := ctx.transactionId;
    if Find(v.partials, id).Some? {
      var events := v.partials[id].events;
      var i :| 0 <= i < |events| && events[i].kind == SR;
      assert NameOf(events[i]) == None;
    }
  }

  /** `_send` emits the sampler's items when there are any, then resets the counter and installs a fresh sampler. */
  lemma SendDrains(v: AgentView, isSync: bool)
    ensures |v.reservoir.items| == 0 ==> Send(v, isSync) == (v, None)
    ensures |v.reservoir.items| > 0 ==>
      var (w, batch) := Send(v, isSync);
      && batch == Some(Batch(1, 1, v.reservoir.items, isSync))
      && w == AgentView(v.partials, 0, Fresh(MUST_COLLECT_LIMIT))
  {
  }

  /**
   * `onCrash` on a visible span force-samples it and appends exactly one
   * 'system-error' event, keeps the entry (visible) in the registry, offers
   * the span to the sampler and flushes at once: a batch is always emitted,
   * synchronously, and it holds the span whenever the sampler admitted it;
   * afterwards the sampler is fresh and the counter is 0. On an absent span
   * nothing happens and nothing is emitted.
   */
  lemma OnCrashFlushes(v: AgentView, ctx: Context, time: int, crash: StackTrace, draw: nat)
    requires Valid(v)
    ensures Find(v.partials, ctx.transactionId) == None ==> OnCrash(v, ctx, time, crash, draw) == (v, None)
    ensures Find(v.partials, ctx.transactionId).Some? ==>
      var s := v.partials[ctx.transactionId];
      var t := Crashed(s, ctx, time, crash);
      var (w, batch) := OnCrash(v, ctx, time, crash, draw);
      && t.isForceSampled
      && t.events == s.events + [CrashEvent(ctx, time, crash)]
      && w.partials == v.partials[ctx.transactionId := t]
      && Find(w.partials, ctx.transactionId) == Some(t)
      && w.reservoir == Fresh(MUST_COLLECT_LIMIT) && w.totalRequestCount == 0
      && batch.Some? && batch.value.isSync
      && batch.value.spans == Add(v.reservoir, t, draw).items
      && (Admits(v.reservoir, draw) ==> t in batch.value.spans)
  {
    var id := ctx.transactionId;
    if Find(v.partials, id).Some? {
      var s := v.partials[id];
      var t := Crashed(s, ctx, time, crash);
      HasEventOfAppend(s.(isForceSampled := true).events, CrashEvent(ctx, time, crash), SR);
      AddKeepsAdmitted(v.reservoir, t, draw);
      AddPreservesDense(v.reservoir, t, draw);
      assert |Add(v.reservoir, t, draw).items| > 0;
    }
  }

  /** Every handler keeps entries keyed by request id and the sampler within its 100 slots. */
  lemma ApplyPreservesValid(v: AgentView, op: Op)
    requires Enabled(op) && Valid(v)
    ensures Valid(Apply(v, op))
  {
    match op
    case ServerSendOp(d, draw) =>
      if Find(v.partials, d.id).Some? {
        AddPreservesDense(v.reservoir, Closed(v.partials[d.id], d), draw);
      }
    case OnCrashOp(ctx, time, crash, draw) =>
      if Find(v.partials, ctx.transactionId).Some? {
        AddPreservesDense(v.reservoir, Crashed(v.partials[ctx.transactionId], ctx, time, crash), draw);
      }
    case SendOp(_) =>
      FreshIsDense<Span>(MUST_COLLECT_LIMIT);
    case _ =>
  }

  /** Over any sequence of calls the invariant holds, so the sampler never holds more than 100 spans. */
  lemma {:induction false} RunPreservesValid(v: AgentView, ops: seq<Op>)
    requires forall i :: 0 <= i < |ops| ==> Enabled(ops[i])
    requires Valid(v)
    ensures Valid(Run(v, ops))
    ensures |Run(v, ops).reservoir.items| <= MUST_COLLECT_LIMIT
    decreases |ops|
  {
    if ops != [] {
      ApplyPreservesValid(v, ops[0]);
      RunPreservesValid(Apply(v, ops[0]), ops[1..]);
    } else {
      DenseIsBounded(v.reservoir);
    }
  }

  /**
   * Every handler only appends to a span that stays in the registry, at
   * most one event per call, and never clears its force-sampled flag.
   */
  lemma ApplyOnlyAppends(v: AgentView, op: Op, k: string)
    requires Enabled(op)
    requires k in v.partials && k in Apply(v, op).partials
    ensures var before := v.partials[k];
            var after := Apply(v, op).partials[k];
      && |before.events| <= |after.events| <= |before.events| + 1
      && after.events[..|before.events|] == before.events
      && (before.isForceSampled ==> after.isForceSampled)
      && after.requestId == before.requestId
  {
    match op
    case ClientSendOp(d) =>
      if Find(v.partials, d.id).Some? {
        ClientSendNeverCleansUp(v, d);
      }
    case _ =>
  }

  /** A single call other than `serverReceive` for `id` leaves a not-found `id` not found. */
  lemma ApplyKeepsInvisible(v: AgentView, op: Op, id: string)
    requires Enabled(op)
    requires Find(v.partials, id) == None
    requires !(op.ServerReceiveOp? && op.sr.id == id)
    ensures Find(Apply(v, op).partials, id) == None
  {
    if id != "" && id in v.partials && id in Apply(v, op).partials {
      ApplyOnlyAppends(v, op, id);
    }
  }

  /**
   * Only `serverReceive` makes a request visible: a request that is not
   * found stays not found through any calls none of which is a
   * `serverReceive` for it, whatever outbound calls, reports or crashes
   * are recorded meanwhile.
   */
  lemma {:induction false} OnlyServerReceiveMakesVisible(v: AgentView, ops: seq<Op>, id: string)
    requires forall i :: 0 <= i < |ops| ==> Enabled(ops[i])
    requires forall i :: 0 <= i < |ops| ==> !(ops[i].ServerReceiveOp? && ops[i].sr.id == id)
    requires Find(v.partials, id) == None
    ensures Find(Run(v, ops).partials, id) == None
    decreases |ops|
  {
    if ops != [] {
      ApplyKeepsInvisible(v, ops[0], id);
      OnlyServerReceiveMakesVisible(Apply(v, ops[0]), ops[1..], id);
    }
  }
}
