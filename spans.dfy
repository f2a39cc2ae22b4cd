/** The Option type used for optional fields and for lookups that can miss. */
module Wrappers {
  datatype Option<+T> = None | Some(value: T)
}

/**
 * Spans and the events recorded in them by the tracing agent
 * (lib/agent/index.js), together with the payloads the instrumentation
 * hooks hand to the agent.
 *
 * A JavaScript `undefined` string (a missing request id, a missing span id
 * in the ambient context) is the empty string here; a missing number or
 * name is `None`.
 */
module Spans {
  import opened Wrappers

  /** The six event kinds, with the wire codes 'cs', 'cr', 'ss', 'sr', 'err' and 'us'. */
  datatype EventType = CS | CR | SS | SR | Err | US

  function Code(t: EventType): string
  {
    match t
    case CS => "cs"
    case CR => "cr"
    case SS => "ss"
    case SR => "sr"
    case Err => "err"
    case US => "us"
  }

  /**
   * No two event kinds share a wire code, so comparing `kind`s decides the
   * same thing as the source's `event.type === ...` string tests.
   */
  lemma CodesAreDistinct(a: EventType, b: EventType)
    ensures Code(a) == Code(b) ==> a == b
  {
  }

  /** The `data` object of an event; its shape depends on who recorded it. */
  datatype Payload =
    | ServerRecvData(rpcId: string, endpoint: string, httpMethod: string, parent: Option<int>, originTime: Option<int>)
    | ServerSendData(rpcId: string, statusCode: Option<int>)
    | ClientSendData(rpcId: string, host: string, endpoint: string, httpMethod: string)
    | ClientRecvData(rpcId: string, statusCode: Option<int>)
      // `name` is present only on errors reported by the user; other errors carry none
    | ErrorData(rpcId: string, name: Option<string>, errorType: string, message: string, raw: string)
    | UserData(rpcId: string, name: Option<string>, raw: string)

  /** An event; its `type` follows from the shape of its data, one kind per shape. */
  datatype Event = Event(time: int, data: Payload) {
    const kind: EventType :=
      match data
      case ServerRecvData(_, _, _, _, _) => SR
      case ServerSendData(_, _) => SS
      case ClientSendData(_, _, _, _) => CS
      case ClientRecvData(_, _) => CR
      case ErrorData(_, _, _, _, _) => Err
      case UserData(_, _, _) => US
  }

  /** One request in flight: its id, its sampling flags and its append-only event list. */
  datatype Span = Span(requestId: string, isSampled: bool, isForceSampled: bool, events: seq<Event>)

  /** The ambient correlation context: the current transaction (request) id and span id. */
  datatype Context = Context(transactionId: string, spanId: string)

  /**
   * The `data` argument of `serverReceive`. `time` and `originTime` are the
   * fields as given (None when undefined) and `now` is the clock reading
   * taken when `time` is missing. `parentId` is the parent header as given
   * ("" when undefined) and `parsedParent` is its `parseInt` value, None
   * when it is missing or not numeric.
   */
  datatype ServerRecvInput = ServerRecvInput(
    id: string, spanId: string, time: Option<int>, now: int, originTime: Option<int>,
    url: string, httpMethod: string, parentId: string, parsedParent: Option<int>, protocol: string)

  /** `data.time || microtime.now()`: a missing or zero time falls back to the clock. */
  function ReceiptTime(d: ServerRecvInput): (t: int)
    ensures d.time.Some? && d.time.value != 0 ==> t == d.time.value
    ensures d.time.None? || d.time.value == 0 ==> t == d.now
  {
    if d.time.Some? && d.time.value != 0 then d.time.value else d.now
  }

  /** The `data` argument of `serverSend`; `mustCollectError` says `mustCollect` is the ERROR constant. */
  datatype ServerSendInput = ServerSendInput(
    id: string, spanId: string, time: int, statusCode: Option<int>, mustCollectError: bool)

  datatype ClientError = ClientError(errorType: string, message: string, raw: string)

  /** The `data` argument of `clientSend`. */
  datatype ClientSendInput = ClientSendInput(
    id: string, spanId: string, time: int, host: string, url: string, httpMethod: string,
    err: Option<ClientError>)

  /** The `data` argument of `clientReceive`; `targetServiceKey` is None when the peer is not traced. */
  datatype ClientRecvInput = ClientRecvInput(
    id: string, spanId: string, time: int, statusCode: Option<int>,
    targetServiceKey: Option<string>, host: string, protocol: string, status: int, responseTime: int)

  /** The `data` argument of `report`: its `message` and the object itself, kept opaque. */
  datatype UserPayload = UserPayload(message: string, raw: string)

  /** The stack trace handed to `onCrash`. */
  datatype StackTrace = StackTrace(message: string, stack: string)

  /** The 'sr' event `serverReceive` pushes: resolved time, span id, endpoint and the parsed parent. */
  function SrEvent(d: ServerRecvInput): (e: Event)
    ensures e.kind == SR && e.time == ReceiptTime(d) && NameOf(e) == None
    ensures e.data.rpcId == d.spanId && e.data.parent == d.parsedParent && e.data.originTime == d.originTime
  {
    Event(ReceiptTime(d), ServerRecvData(d.spanId, d.url, d.httpMethod, d.parsedParent, d.originTime))
  }

  /** The 'ss' event `serverSend` pushes, with the status code as given. */
  function SsEvent(d: ServerSendInput): (e: Event)
    ensures e.kind == SS && e.time == d.time && NameOf(e) == None
    ensures e.data.rpcId == d.spanId && e.data.statusCode == d.statusCode
  {
    Event(d.time, ServerSendData(d.spanId, d.statusCode))
  }

  /** An outbound call that failed is recorded as an error event instead of a 'cs' event. */
  function ClientSendEvent(d: ClientSendInput): (e: Event)
    ensures e.kind == (if d.err.Some? then Err else CS)
    ensures e.time == d.time && e.data.rpcId == d.spanId
    ensures e.data.ErrorData? ==> e.data.name == None
  {
    match d.err
    case Some(err) => Event(d.time, ErrorData(d.spanId, None, err.errorType, err.message, err.raw))
    case None => Event(d.time, ClientSendData(d.spanId, d.host, d.url, d.httpMethod))
  }

  /** The 'cr' event `clientReceive` pushes, with the status code as given. */
  function CrEvent(d: ClientRecvInput): (e: Event)
    ensures e.kind == CR && e.time == d.time && NameOf(e) == None
    ensures e.data.rpcId == d.spanId && e.data.statusCode == d.statusCode
  {
    Event(d.time, ClientRecvData(d.spanId, d.statusCode))
  }

  /** A user-reported event: an error of type 'user-sent-error' or a 'us' event, named either way. */
  function UserEvent(ctx: Context, time: int, name: Option<string>, data: UserPayload, isError: bool): (e: Event)
    ensures e.kind == (if isError then Err else US)
    ensures NameOf(e) == name
  {
    if isError then Event(time, ErrorData(ctx.spanId, name, "user-sent-error", data.message, data.raw))
    else Event(time, UserData(ctx.spanId, name, data.raw))
  }

  /** The error event recorded for a crash, of type 'system-error'. */
  function CrashEvent(ctx: Context, time: int, crash: StackTrace): (e: Event)
    ensures e.kind == Err && e.data.ErrorData? && e.data.errorType == "system-error"
    ensures NameOf(e) == None
  {
    Event(time, ErrorData(ctx.spanId, None, "system-error", crash.message, crash.stack))
  }

  /** The `name` field of an event's data; events that have none read as None (`undefined`). */
  function NameOf(e: Event): (name: Option<string>)
    ensures name.Some? ==> e.kind == Err || e.kind == US
    ensures e.data.UserData? ==> name == e.data.name
    ensures e.data.ErrorData? ==> name == e.data.name
  {
    match e.data
    case ErrorData(_, name, _, _, _) => name
    case UserData(_, name, _) => name
    case _ => None
  }

  /** `events.some(e => e.type === kind)`. */
  function HasEventOf(events: seq<Event>, kind: EventType): (b: bool)
    ensures b <==> exists i :: 0 <= i < |events| && events[i].kind == kind
  {
    if events == [] then false
    else if events[0].kind == kind then true
    else
      var rest := HasEventOf(events[1..], kind);
      assert forall i :: 1 <= i < |events| ==> events[i] == events[1..][i - 1];
      rest
  }

  /** `events.some(e => e.data && e.data.name === name)`. */
  function HasName(events: seq<Event>, name: Option<string>): (b: bool)
    ensures b <==> exists i :: 0 <= i < |events| && NameOf(events[i]) == name
  {
    if events == [] then false
    else if NameOf(events[0]) == name then true
    else
      var rest := HasName(events[1..], name);
      assert forall i :: 1 <= i < |events| ==> events[i] == events[1..][i - 1];
      rest
  }

  /** Appending an event keeps every event kind already present. */
  lemma HasEventOfAppend(events: seq<Event>, e: Event, kind: EventType)
    ensures HasEventOf(events + [e], kind) <==> HasEventOf(events, kind) || e.kind == kind
  {
    assert (events + [e])[|events|] == e;
    assert forall i :: 0 <= i < |events| ==> (events + [e])[i] == events[i];
  }

  /** Appending an event keeps every name already present and adds its own. */
  lemma HasNameAppend(events: seq<Event>, e: Event, name: Option<string>)
    ensures HasName(events + [e], name) <==> HasName(events, name) || NameOf(e) == name
  {
    assert (events + [e])[|events|] == e;
    assert forall i :: 0 <= i < |events| ==> (events + [e])[i] == events[i];
  }
}
