/**
 * The HTTP/1.1 client response path of one target connection (TargetHandler): it
 * builds the inbound response, decides keep-alive on the last chunk, reports remote
 * close, exceptions and idle timeouts to the response future, and hands the connection
 * over to HTTP/2 when an in-place upgrade succeeds.
 *
 * The collaborators the handler only calls (TargetChannel, ConnectionManager,
 * Http2ClientChannel, OutboundMsgHolder, the response future) are reduced to the state
 * the handler reads and writes, and everything the handler makes happen outside itself
 * is appended, in order, to one effect log.
 */
module HttpTarget {
  import opened Common
  import opened ChannelPipeline

  // ---------------------------------------------------------------------------
  // Keep-alive decision
  // ---------------------------------------------------------------------------

  datatype KeepAliveConfig = Auto | Always | Never

  function Pow10(k: nat): (r: nat)
    ensures r >= 1
  {
    if k == 0 then 1 else 10 * Pow10(k - 1)
  }

  /** Number of decimal digits of n. */
  function Digits(n: nat): nat {
    if n < 10 then 1 else 1 + Digits(n / 10)
  }

  lemma {:induction false} BelowPow10Digits(n: nat)
    ensures 0 <= n < Pow10(Digits(n))
  {
    if n >= 10 {
      BelowPow10Digits(n / 10);
      assert n == 10 * (n / 10) + n % 10;
    }
  }

  /** The digits of minor read after the decimal point. */
  function Fraction(minor: nat): real {
    minor as real / Pow10(Digits(minor)) as real
  }

  lemma FractionBounds(minor: nat)
    ensures 0.0 <= Fraction(minor) < 1.0
    ensures minor > 0 ==> Fraction(minor) > 0.0
  {
    BelowPow10Digits(minor);
    QuotientBounds(minor as real, Pow10(Digits(minor)) as real);
  }

  /** A quotient of a smaller non-negative number by a larger one lies in [0, 1). */
  lemma QuotientBounds(a: real, b: real)
    requires 0.0 <= a < b
    ensures 0.0 <= a / b < 1.0
    ensures a > 0.0 ==> a / b > 0.0
  {
    assert a / b * b == a;
  }

  /** The number Float.valueOf reads from "major.minor", taken as an exact decimal. */
  function VersionValue(v: HttpVersion): real {
    v.major as real + Fraction(v.minor)
  }

  /** Constants.HTTP_1_0 */
  const HTTP_1_0: real := 1.0

  /**
   * isKeepAlive: AUTO keeps the connection iff the request's version is above 1.0,
   * ALWAYS always keeps it and NEVER never does.
   */
  function IsKeepAlive(config: KeepAliveConfig, version: HttpVersion): (r: bool)
    ensures r <==> config == Always
                   || (config == Auto && (version.major > 1 || (version.major == 1 && version.minor > 0)))
  {
    match config
    case Auto =>
      FractionBounds(version.minor);
      VersionValue(version) > HTTP_1_0
    case Always => true
    case Never => false
  }

  // ---------------------------------------------------------------------------
  // Messages, events and effects
  // ---------------------------------------------------------------------------

  /** The message a partial response is ended with (the Constants the handler passes). */
  datatype IncompleteReason =
    | RemoteAbruptlyClosed       // REMOTE_SERVER_ABRUPTLY_CLOSE_RESPONSE_CONNECTION
    | ExceptionWhileReading      // EXCEPTION_CAUGHT_WHILE_READING_RESPONSE
    | IdleTimeoutWhileReading    // IDLE_TIMEOUT_TRIGGERED_WHILE_READING_INBOUND_RESPONSE

  /** One HttpContent as the response queues it; `failure` is a failed decoder result. */
  datatype HttpContent = HttpContent(chunk: seq<bv8>, isLast: bool, failure: Option<IncompleteReason>)

  /** The DefaultLastHttpContent with a failed decoder result that ends a partial response. */
  function FailedLastContent(reason: IncompleteReason): HttpContent {
    HttpContent([], true, Some(reason))
  }

  /** The inbound response message (HttpCarbonResponse) shared with the response listener. */
  class CarbonResponse {
    const statusCode: int
    const decoderFailed: bool
    var contents: seq<HttpContent>

    constructor (statusCode: int, decoderFailed: bool)
      ensures this.statusCode == statusCode && this.decoderFailed == decoderFailed
      ensures contents == []
    {
      this.statusCode := statusCode;
      this.decoderFailed := decoderFailed;
      contents := [];
    }
  }

  /** What the decoder hands to channelRead: a response head or a content chunk. */
  datatype InboundMessage =
    | ResponseHead(statusCode: int, decoderFailed: bool)
    | Content(content: HttpContent)

  datatype IdleState = ReaderIdle | WriterIdle | AllIdle

  datatype UpgradeEventKind = UpgradeIssued | UpgradeSuccessful | UpgradeRejected

  /** The user events userEventTriggered tells apart. */
  datatype UserEvent =
    | IdleStateEvent(state: IdleState)
    | UpgradeEvent(kind: UpgradeEventKind)
    | PrefaceAndSettingsWritten
    | SslCloseCompletion
    | InputShutdownReadComplete
    | OtherEvent

  /** The failures the response future is notified with. */
  datatype ClientError =
    | RemoteClosedAfterRequestRead(channelId: string)    // ClientConnectorException
    | EndpointTimedOut(channelId: string, statusCode: int) // EndpointTimeOutException
    | Caught(cause: string)                               // the Throwable given to exceptionCaught

  /** An HTTP/2 data event listener of the client channel. */
  datatype DataListener = TimeoutListener(socketIdleTimeout: int) | Listener(id: nat)

  /** The in-flight message holder of one HTTP/2 stream. */
  datatype OutboundMsgHolder = OutboundMsgHolder(requestWritten: bool, noPromisesReceived: bool)

  datatype Route = Route(scheme: string, host: string, port: int)

  /** Everything the handler makes happen outside itself, in order. */
  datatype Effect =
    | ResponseNotified(response: CarbonResponse)
    | ErrorNotified(error: ClientError)
    | ChannelClosed
    | ChannelReturned                                     // ConnectionManager.returnChannel
    | ChannelInvalidated                                  // ConnectionManager.invalidateTargetChannel
    | StreamInitNotified(listener: DataListener, streamId: nat)
    | UserEventForwarded(event: UserEvent)

  /** Http2CodecUtil.HTTP_UPGRADE_STREAM_ID: the upgraded request is stream 1 (section 3.2 of RFC 7540). */
  const HTTP_UPGRADE_STREAM_ID: nat := 1

  /** HttpResponseStatus.GATEWAY_TIMEOUT */
  const GATEWAY_TIMEOUT: int := 504

  /** closeChannel's effect: a close only while the channel is still active. */
  function Closing(wasActive: bool): seq<Effect> {
    if wasActive then [ChannelClosed] else []
  }

  /** One onStreamInit call per data listener, in list order. */
  function StreamInits(listeners: seq<DataListener>, streamId: nat): (r: seq<Effect>)
    ensures |r| == |listeners|
    ensures forall i :: 0 <= i < |listeners| ==> r[i] == StreamInitNotified(listeners[i], streamId)
  {
    if listeners == [] then []
    else StreamInits(listeners[..|listeners| - 1], streamId)
         + [StreamInitNotified(listeners[|listeners| - 1], streamId)]
  }

  /**
   * safelyRemoveHandlers(pipeline, REDIRECT_HANDLER, IDLE_STATE_HANDLER,
   * HTTP_TRACE_LOG_HANDLER): each of the three is removed when present.
   */
  function SafelyRemoveHttpHandlers(q: seq<Name>): (r: seq<Name>)
    ensures Unique(q) ==> Unique(r) && RedirectName !in r && IdleStateName !in r && TraceLogName !in r
    ensures forall m :: m != RedirectName && m != IdleStateName && m != TraceLogName ==> (m in r <==> m in q)
  {
    RemoveIfPresent(RemoveIfPresent(RemoveIfPresent(q, RedirectName), IdleStateName), TraceLogName)
  }

  /**
   * The pipeline rewrite of a successful upgrade: the HTTP/1.1 handler is replaced
   * by the HTTP/2 target handler at the end, and the redirect, idle and trace
   * handlers are taken out when present.
   */
  function UpgradedPipeline(p: seq<Name>): (r: Result<seq<Name>>)
    ensures r.Ok? <==> TargetName in p && Http2TargetName !in p
    ensures r.Ok? && Unique(p) ==> Unique(r.value)
  {
    match Remove(p, TargetName)
    case Err(e) => Err(e)
    case Ok(p1) =>
      match AddLast(p1, Http2TargetName)
      case Err(e) => Err(e)
      case Ok(p2) =>
        assert p2 == p1 + [Http2TargetName];
        SwapFacts(p, p1);
        Ok(SafelyRemoveHttpHandlers(p2))
  }

  /** What the swap keeps and drops, for the pipeline left after `remove(this)`. */
  lemma SwapFacts(p: seq<Name>, p1: seq<Name>)
    requires Remove(p, TargetName) == Ok(p1) && Http2TargetName !in p
    ensures var r := SafelyRemoveHttpHandlers(p1 + [Http2TargetName]);
      && (Unique(p) ==>
            && Unique(r) && Http2TargetName in r && TargetName !in r
            && RedirectName !in r && IdleStateName !in r && TraceLogName !in r)
      && forall m :: (m != TargetName && m != RedirectName && m != IdleStateName
                      && m != TraceLogName && m != Http2TargetName) ==> (m in r <==> m in p)
  {
    var q := p1 + [Http2TargetName];
    assert forall m :: m in q <==> m in p1 || m == Http2TargetName;
    if Unique(p) {
      var added := AddLast(p1, Http2TargetName);
      assert added.value == q;
    }
  }

  /**
   * After the rewrite the HTTP/2 target handler is in, while this handler and the
   * redirect, idle and trace handlers are out; every other handler is in exactly
   * when it was before.
   */
  lemma UpgradedPipelineKeeps(p: seq<Name>)
    ensures var r := UpgradedPipeline(p);
      && (r.Ok? && Unique(p) ==>
            && Http2TargetName in r.value && TargetName !in r.value && RedirectName !in r.value
            && IdleStateName !in r.value && TraceLogName !in r.value)
      && (r.Ok? ==> forall m :: (m != TargetName && m != RedirectName && m != IdleStateName
                                 && m != TraceLogName && m != Http2TargetName) ==> (m in r.value <==> m in p))
  {
    if UpgradedPipeline(p).Ok? {
      SwapFacts(p, Remove(p, TargetName).value);
    }
  }

  /**
   * In a pipeline of unique names the upgrade keeps every other handler in its
   * place and order, with the HTTP/2 target handler last.
   */
  lemma UpgradedPipelineOrder(p: seq<Name>)
    ensures UpgradedPipeline(p).Ok? && Unique(p) ==>
      UpgradedPipeline(p).value == Without(p, {TargetName, RedirectName, IdleStateName, TraceLogName}) + [Http2TargetName]
  {
    if UpgradedPipeline(p).Ok? {
      StripForHttp2(p, Remove(p, TargetName).value);
    }
  }

  lemma StripForHttp2(p: seq<Name>, p1: seq<Name>)
    requires Http2TargetName !in p && Remove(p, TargetName) == Ok(p1)
    ensures Unique(p) ==>
      SafelyRemoveHttpHandlers(p1 + [Http2TargetName]) == Without(p, {TargetName, RedirectName, IdleStateName, TraceLogName}) + [Http2TargetName]
  {
    if Unique(p) {
      TargetRemoved(p, p1);
      var a := Without(p1, {RedirectName});
      RemoveIfPresentBeforeLast(p1, Http2TargetName, RedirectName);
      var b := Without(a, {IdleStateName});
      RemoveIfPresentBeforeLast(a, Http2TargetName, IdleStateName);
      RemoveIfPresentBeforeLast(b, Http2TargetName, TraceLogName);
      StrippedNames(p);
    }
  }

  lemma TargetRemoved(p: seq<Name>, p1: seq<Name>)
    requires Unique(p) && Http2TargetName !in p && Remove(p, TargetName) == Ok(p1)
    ensures p1 == Without(p, {TargetName}) && Unique(p1 + [Http2TargetName])
  {
    RemoveIfPresentIsWithout(p, TargetName);
    var r := AddLast(p1, Http2TargetName);
    assert r.value == r.value[..|p1|] + [r.value[|p1|]];
  }

  lemma StrippedNames(p: seq<Name>)
    ensures Without(Without(Without(Without(p, {TargetName}), {RedirectName}), {IdleStateName}), {TraceLogName})
            == Without(p, {TargetName, RedirectName, IdleStateName, TraceLogName})
  {
    WithoutWithout(p, {TargetName}, {RedirectName});
    WithoutWithout(p, {TargetName, RedirectName}, {IdleStateName});
    WithoutWithout(p, {TargetName, RedirectName, IdleStateName}, {TraceLogName});
    assert {TargetName} + {RedirectName} == {TargetName, RedirectName};
    assert {TargetName, RedirectName} + {IdleStateName} == {TargetName, RedirectName, IdleStateName};
    assert {TargetName, RedirectName, IdleStateName} + {TraceLogName}
        == {TargetName, RedirectName, IdleStateName, TraceLogName};
  }

  // ---------------------------------------------------------------------------
  // The handler
  // ---------------------------------------------------------------------------

  class TargetHandler {
    const channelId: string
    const route: Route
    const keepAliveConfig: KeepAliveConfig
    /** HTTP_VERSION of the outbound request. */
    const requestVersion: HttpVersion
    /** The HTTP/2 client channel's socket idle timeout. */
    const socketIdleTimeout: int
    /** Whether a response future has been set (httpResponseFuture != null). */
    const hasResponseFuture: bool
    /** TargetChannel.isRequestHeaderWritten: the sender sets it once the request head is out. */
    var requestHeaderWritten: bool

    /** ctx.channel().isActive() */
    var active: bool
    var pipeline: seq<Name>
    var inboundResponseMsg: CarbonResponse?
    var idleTimeoutTriggered: bool
    /** The HTTP/2 client channel's in-flight messages by stream id. */
    var inFlight: map<nat, OutboundMsgHolder>
    /** The HTTP/2 client channel's data event listeners. */
    var dataListeners: seq<DataListener>
    /** The HTTP/2 connection manager's channels by route. */
    var http2Channels: map<Route, string>
    var effects: seq<Effect>

    /**
     * The handler's invariant: names in the pipeline are unique, and once the idle
     * timeout fired the idle handler is gone, so it cannot fire again.
     */
    ghost predicate Valid()
      reads this`pipeline, this`idleTimeoutTriggered
    {
      Unique(pipeline) && (idleTimeoutTriggered ==> IdleStateName !in pipeline)
    }

    constructor (channelId: string, route: Route, keepAliveConfig: KeepAliveConfig,
                 requestVersion: HttpVersion, socketIdleTimeout: int, hasResponseFuture: bool,
                 requestHeaderWritten: bool, pipeline: seq<Name>,
                 inFlight: map<nat, OutboundMsgHolder>, dataListeners: seq<DataListener>,
                 http2Channels: map<Route, string>)
      requires Unique(pipeline)
      ensures Valid()
      ensures this.channelId == channelId && this.route == route
      ensures this.keepAliveConfig == keepAliveConfig && this.requestVersion == requestVersion
      ensures this.socketIdleTimeout == socketIdleTimeout && this.hasResponseFuture == hasResponseFuture
      ensures this.requestHeaderWritten == requestHeaderWritten && this.pipeline == pipeline
      ensures this.inFlight == inFlight && this.dataListeners == dataListeners
      ensures this.http2Channels == http2Channels
      ensures active && inboundResponseMsg == null && !idleTimeoutTriggered && effects == []
    {
      this.channelId := channelId;
      this.route := route;
      this.keepAliveConfig := keepAliveConfig;
      this.requestVersion := requestVersion;
      this.socketIdleTimeout := socketIdleTimeout;
      this.hasResponseFuture := hasResponseFuture;
      this.requestHeaderWritten := requestHeaderWritten;
      this.pipeline := pipeline;
      this.inFlight := inFlight;
      this.dataListeners := dataListeners;
      this.http2Channels := http2Channels;
      active := true;
      inboundResponseMsg := null;
      idleTimeoutTriggered := false;
      effects := [];
    }

    /** TargetChannel.setRequestHeaderWritten, as the sender calls it; nothing else changes. */
    method SetRequestHeaderWritten(written: bool)
      requires Valid()
      modifies this`requestHeaderWritten
      ensures Valid()
      ensures requestHeaderWritten == written
    {
      requestHeaderWritten := written;
    }

    /**
     * channelRead. Before the request header is written everything is dropped. A
     * response head starts a new response and notifies the future with it; content
     * is queued on the response in progress, and the last chunk ends it: the idle
     * handler is removed, the channel is closed unless kept alive, and it is returned
     * to the connection manager in both cases.
     */
    method ChannelRead(msg: InboundMessage) returns (thrown: Option<Thrown>)
      requires Valid()
      modifies this`inboundResponseMsg, this`inFlight, this`effects, this`pipeline, this`active
      modifies inboundResponseMsg
      ensures Valid()
      // a stray message: released and dropped
      ensures !requestHeaderWritten ==>
        && thrown.None? && inboundResponseMsg == old(inboundResponseMsg)
        && (inboundResponseMsg != null ==> inboundResponseMsg.contents == old(inboundResponseMsg.contents))
        && inFlight == old(inFlight) && effects == old(effects)
        && pipeline == old(pipeline) && active == old(active)
      // a response head: a fresh response, notified once if there is a future
      ensures requestHeaderWritten && msg.ResponseHead? ==>
        && thrown.None?
        && inboundResponseMsg != null && fresh(inboundResponseMsg)
        && inboundResponseMsg.statusCode == msg.statusCode
        && inboundResponseMsg.decoderFailed == msg.decoderFailed
        && inboundResponseMsg.contents == []
        && effects == old(effects) + (if hasResponseFuture then [ResponseNotified(inboundResponseMsg)] else [])
        && (HTTP_UPGRADE_STREAM_ID in old(inFlight) ==>
              inFlight == old(inFlight)[HTTP_UPGRADE_STREAM_ID :=
                            old(inFlight)[HTTP_UPGRADE_STREAM_ID].(noPromisesReceived := true)])
        && (HTTP_UPGRADE_STREAM_ID !in old(inFlight) ==> inFlight == old(inFlight))
        && pipeline == old(pipeline) && active == old(active)
        && (old(inboundResponseMsg) != null ==>
              old(inboundResponseMsg).contents == old(inboundResponseMsg.contents))
      // content with no response in progress: ignored
      ensures requestHeaderWritten && msg.Content? && old(inboundResponseMsg) == null ==>
        && thrown.None? && inboundResponseMsg == null
        && inFlight == old(inFlight) && effects == old(effects)
        && pipeline == old(pipeline) && active == old(active)
      // content of the response in progress: queued in arrival order
      ensures requestHeaderWritten && msg.Content? && old(inboundResponseMsg) != null ==>
        && old(inboundResponseMsg).contents == old(inboundResponseMsg.contents) + [msg.content]
        && inFlight == old(inFlight)
      ensures requestHeaderWritten && msg.Content? && old(inboundResponseMsg) != null && !msg.content.isLast ==>
        && thrown.None? && inboundResponseMsg == old(inboundResponseMsg)
        && effects == old(effects) && pipeline == old(pipeline) && active == old(active)
      // the last chunk: the response ends, then close unless keep-alive, and return in every case
      ensures requestHeaderWritten && msg.Content? && old(inboundResponseMsg) != null && msg.content.isLast ==>
        && inboundResponseMsg == null
        && (IdleStateName in old(pipeline) ==>
              && thrown.None?
              && pipeline == Remove(old(pipeline), IdleStateName).value
              && active == (old(active) && IsKeepAlive(keepAliveConfig, requestVersion))
              && effects == old(effects)
                            + Closing(old(active) && !IsKeepAlive(keepAliveConfig, requestVersion))
                            + [ChannelReturned])
        && (IdleStateName !in old(pipeline) ==>
              && thrown == Some(NoSuchElement)
              && pipeline == old(pipeline) && active == old(active) && effects == old(effects))
    {
      thrown := None;
      if !requestHeaderWritten {
        return;
      }
      match msg
      case ResponseHead(statusCode, decoderFailed) =>
        inboundResponseMsg := new CarbonResponse(statusCode, decoderFailed);
        if HTTP_UPGRADE_STREAM_ID in inFlight {
          var holder := inFlight[HTTP_UPGRADE_STREAM_ID];
          inFlight := inFlight[HTTP_UPGRADE_STREAM_ID := holder.(noPromisesReceived := true)];
        }
        if hasResponseFuture {
          effects := effects + [ResponseNotified(inboundResponseMsg)];
        }
      case Content(content) =>
        if inboundResponseMsg != null {
          inboundResponseMsg.contents := inboundResponseMsg.contents + [content];
          if content.isLast {
            inboundResponseMsg := null;
            thrown := ReleaseConnection();
          }
        }
    }

    /**
     * The end of a response: the idle handler is removed, the channel is closed
     * unless it is kept alive, and it goes back to the connection manager either way.
     */
    method ReleaseConnection() returns (thrown: Option<Thrown>)
      requires Valid()
      modifies this`pipeline, this`active, this`effects
      ensures Valid()
      ensures IdleStateName in old(pipeline) ==>
        && thrown.None?
        && pipeline == Remove(old(pipeline), IdleStateName).value
        && active == (old(active) && IsKeepAlive(keepAliveConfig, requestVersion))
        && effects == old(effects) + Closing(old(active) && !IsKeepAlive(keepAliveConfig, requestVersion))
                      + [ChannelReturned]
      ensures IdleStateName !in old(pipeline) ==>
        && thrown == Some(NoSuchElement)
        && pipeline == old(pipeline) && active == old(active) && effects == old(effects)
    {
      thrown := None;
      var removed := Remove(pipeline, IdleStateName);
      if removed.Err? {
        thrown := Some(removed.error);
        return;
      }
      pipeline := removed.value;
      if !IsKeepAlive(keepAliveConfig, requestVersion) {
        CloseChannel();
      }
      effects := effects + [ChannelReturned];
    }

    /** closeChannel: closes the channel only while it is still active. */
    method CloseChannel()
      modifies this`active, this`effects
      ensures !active
      ensures effects == old(effects) + Closing(old(active))
    {
      if active {
        active := false;
        effects := effects + [ChannelClosed];
      }
    }

    /** handleIncompleteInboundResponse: ends the partial response with a failed last content. */
    method HandleIncompleteInboundResponse(reason: IncompleteReason)
      requires inboundResponseMsg != null
      modifies inboundResponseMsg
      ensures inboundResponseMsg.contents == old(inboundResponseMsg.contents) + [FailedLastContent(reason)]
    {
      inboundResponseMsg.contents := inboundResponseMsg.contents + [FailedLastContent(reason)];
    }

    /**
     * handleErrorCloseScenarios: unless the idle timeout already reported, a written
     * request is failed with a remote-close error, or else a partial response is ended.
     */
    method HandleErrorCloseScenarios() returns (thrown: Option<Thrown>)
      modifies this`effects, inboundResponseMsg
      ensures idleTimeoutTriggered ==>
        thrown.None? && effects == old(effects)
        && (inboundResponseMsg != null ==> inboundResponseMsg.contents == old(inboundResponseMsg.contents))
      ensures !idleTimeoutTriggered && requestHeaderWritten ==>
        && (inboundResponseMsg != null ==> inboundResponseMsg.contents == old(inboundResponseMsg.contents))
        && (hasResponseFuture ==>
              thrown.None? && effects == old(effects) + [ErrorNotified(RemoteClosedAfterRequestRead(channelId))])
        && (!hasResponseFuture ==> thrown == Some(NullPointer) && effects == old(effects))
      ensures !idleTimeoutTriggered && !requestHeaderWritten ==>
        && thrown.None? && effects == old(effects)
        && (inboundResponseMsg != null ==>
              inboundResponseMsg.contents == old(inboundResponseMsg.contents) + [FailedLastContent(RemoteAbruptlyClosed)])
    {
      thrown := None;
      if !idleTimeoutTriggered {
        if requestHeaderWritten {
          if !hasResponseFuture {
            thrown := Some(NullPointer);
            return;
          }
          effects := effects + [ErrorNotified(RemoteClosedAfterRequestRead(channelId))];
        } else if inboundResponseMsg != null {
          HandleIncompleteInboundResponse(RemoteAbruptlyClosed);
        }
      }
    }

    /**
     * channelInactive: close if still active, report the close as an error unless the
     * idle timeout already did, and invalidate the connection.
     */
    method ChannelInactive() returns (thrown: Option<Thrown>)
      modifies this`active, this`effects, inboundResponseMsg
      ensures !active
      ensures thrown.Some? <==> !idleTimeoutTriggered && requestHeaderWritten && !hasResponseFuture
      ensures thrown.Some? ==> thrown == Some(NullPointer) && effects == old(effects) + Closing(old(active))
      ensures thrown.None? ==>
        effects == old(effects) + Closing(old(active))
                   + (if !idleTimeoutTriggered && requestHeaderWritten
                      then [ErrorNotified(RemoteClosedAfterRequestRead(channelId))] else [])
                   + [ChannelInvalidated]
      ensures inboundResponseMsg != null ==>
        inboundResponseMsg.contents == old(inboundResponseMsg.contents)
          + (if !idleTimeoutTriggered && !requestHeaderWritten then [FailedLastContent(RemoteAbruptlyClosed)] else [])
    {
      CloseChannel();
      thrown := HandleErrorCloseScenarios();
      if thrown.Some? {
        return;
      }
      effects := effects + [ChannelInvalidated];
    }

    /**
     * exceptionCaught: the cause goes to the future, a partial response is ended, and
     * the channel is closed.
     */
    method ExceptionCaught(cause: string) returns (thrown: Option<Thrown>)
      modifies this`active, this`effects, inboundResponseMsg
      ensures !hasResponseFuture ==>
        && thrown == Some(NullPointer) && active == old(active) && effects == old(effects)
        && (inboundResponseMsg != null ==> inboundResponseMsg.contents == old(inboundResponseMsg.contents))
      ensures hasResponseFuture ==>
        && thrown.None? && !active
        && effects == old(effects) + [ErrorNotified(Caught(cause))] + Closing(old(active))
        && (inboundResponseMsg != null ==>
              inboundResponseMsg.contents == old(inboundResponseMsg.contents) + [FailedLastContent(ExceptionWhileReading)])
    {
      thrown := None;
      if !hasResponseFuture {
        thrown := Some(NullPointer);
        return;
      }
      effects := effects + [ErrorNotified(Caught(cause))];
      if inboundResponseMsg != null {
        HandleIncompleteInboundResponse(ExceptionWhileReading);
      }
      CloseChannel();
    }

    /**
     * handleErrorIdleScenarios: a timeout before any response is an
     * EndpointTimeOutException with 504; during a response it ends the partial response.
     */
    method HandleErrorIdleScenarios() returns (thrown: Option<Thrown>)
      modifies this`effects, inboundResponseMsg
      ensures inboundResponseMsg == null && hasResponseFuture ==>
        thrown.None? && effects == old(effects) + [ErrorNotified(EndpointTimedOut(channelId, GATEWAY_TIMEOUT))]
      ensures inboundResponseMsg == null && !hasResponseFuture ==>
        thrown == Some(NullPointer) && effects == old(effects)
      ensures inboundResponseMsg != null ==>
        && thrown.None? && effects == old(effects)
        && inboundResponseMsg.contents == old(inboundResponseMsg.contents) + [FailedLastContent(IdleTimeoutWhileReading)]
    {
      thrown := None;
      if inboundResponseMsg == null {
        if !hasResponseFuture {
          thrown := Some(NullPointer);
          return;
        }
        effects := effects + [ErrorNotified(EndpointTimedOut(channelId, GATEWAY_TIMEOUT))];
      } else {
        HandleIncompleteInboundResponse(IdleTimeoutWhileReading);
      }
    }

    /** The forEach over the data listeners: onStreamInit(streamId) on each, in order. */
    method NotifyStreamInit(streamId: nat)
      modifies this`effects
      ensures effects == old(effects) + StreamInits(dataListeners, streamId)
    {
      var i := 0;
      while i < |dataListeners|
        invariant 0 <= i <= |dataListeners|
        invariant effects == old(effects) + StreamInits(dataListeners[..i], streamId)
      {
        assert dataListeners[..i + 1][..i] == dataListeners[..i];
        effects := effects + [StreamInitNotified(dataListeners[i], streamId)];
        i := i + 1;
      }
      assert dataListeners[..i] == dataListeners;
    }

    /**
     * The pipeline part of executePostUpgradeActions: this handler makes way for the
     * HTTP/2 target handler, and the HTTP/1.1-only handlers are removed if present.
     */
    method SwapInHttp2Handlers() returns (thrown: Option<Thrown>)
      requires Valid()
      modifies this`pipeline
      ensures Valid()
      ensures TargetName !in old(pipeline) ==> thrown == Some(NoSuchElement) && pipeline == old(pipeline)
      ensures TargetName in old(pipeline) && Http2TargetName in old(pipeline) ==>
        thrown == Some(IllegalArgument) && pipeline == Remove(old(pipeline), TargetName).value
      ensures UpgradedPipeline(old(pipeline)).Ok? ==>
        thrown.None? && pipeline == UpgradedPipeline(old(pipeline)).value
    {
      thrown := None;
      ghost var p0 := pipeline;
      var withoutTarget := Remove(pipeline, TargetName);
      if withoutTarget.Err? {
        thrown := Some(withoutTarget.error);
        return;
      }
      pipeline := withoutTarget.value;
      var withHttp2 := AddLast(pipeline, Http2TargetName);
      if withHttp2.Err? {
        assert Http2TargetName in p0;
        thrown := Some(withHttp2.error);
        return;
      }
      pipeline := SafelyRemoveHttpHandlers(withHttp2.value);
      assert UpgradedPipeline(p0) == Ok(pipeline);
    }

    /**
     * executePostUpgradeActions: swap in the HTTP/2 target handler, drop the
     * HTTP/1.1-only handlers, add the timeout listener, mark stream 1 written,
     * tell every listener that stream 1 started, and register the channel under
     * its route with the HTTP/2 connection manager.
     */
    method ExecutePostUpgradeActions() returns (thrown: Option<Thrown>)
      requires Valid()
      modifies this`pipeline, this`dataListeners, this`inFlight, this`effects, this`http2Channels
      ensures Valid()
      ensures TargetName !in old(pipeline) ==>
        && thrown == Some(NoSuchElement) && pipeline == old(pipeline) && dataListeners == old(dataListeners)
        && inFlight == old(inFlight) && effects == old(effects) && http2Channels == old(http2Channels)
      ensures TargetName in old(pipeline) && Http2TargetName in old(pipeline) ==>
        && thrown == Some(IllegalArgument) && pipeline == Remove(old(pipeline), TargetName).value
        && dataListeners == old(dataListeners) && inFlight == old(inFlight)
        && effects == old(effects) && http2Channels == old(http2Channels)
      ensures UpgradedPipeline(old(pipeline)).Ok? ==>
        && pipeline == UpgradedPipeline(old(pipeline)).value
        && dataListeners == old(dataListeners) + [TimeoutListener(socketIdleTimeout)]
        && (HTTP_UPGRADE_STREAM_ID !in old(inFlight) ==>
              && thrown == Some(NullPointer) && inFlight == old(inFlight)
              && effects == old(effects) && http2Channels == old(http2Channels))
        && (HTTP_UPGRADE_STREAM_ID in old(inFlight) ==>
              && thrown.None?
              && inFlight == old(inFlight)[HTTP_UPGRADE_STREAM_ID :=
                               old(inFlight)[HTTP_UPGRADE_STREAM_ID].(requestWritten := true)]
              && effects == old(effects) + StreamInits(dataListeners, HTTP_UPGRADE_STREAM_ID)
              && http2Channels == old(http2Channels)[route := channelId])
    {
      thrown := SwapInHttp2Handlers();
      if thrown.Some? {
        return;
      }
      ghost var swapped := pipeline;
      assert Valid();
      dataListeners := dataListeners + [TimeoutListener(socketIdleTimeout)];
      thrown := StartUpgradeStream();
      assert pipeline == swapped;
    }

    /**
     * The end of executePostUpgradeActions: stream 1 is marked written (its holder
     * must exist), every data listener hears that it started, and the channel is
     * handed over to the HTTP/2 connection manager under its route.
     */
    method StartUpgradeStream() returns (thrown: Option<Thrown>)
      modifies this`inFlight, this`effects, this`http2Channels
      ensures HTTP_UPGRADE_STREAM_ID !in old(inFlight) ==>
        && thrown == Some(NullPointer) && inFlight == old(inFlight)
        && effects == old(effects) && http2Channels == old(http2Channels)
      ensures HTTP_UPGRADE_STREAM_ID in old(inFlight) ==>
        && thrown.None?
        && inFlight == old(inFlight)[HTTP_UPGRADE_STREAM_ID :=
                         old(inFlight)[HTTP_UPGRADE_STREAM_ID].(requestWritten := true)]
        && effects == old(effects) + StreamInits(dataListeners, HTTP_UPGRADE_STREAM_ID)
        && http2Channels == old(http2Channels)[route := channelId]
    {
      thrown := None;
      if HTTP_UPGRADE_STREAM_ID !in inFlight {
        thrown := Some(NullPointer);
        return;
      }
      var holder := inFlight[HTTP_UPGRADE_STREAM_ID];
      inFlight := inFlight[HTTP_UPGRADE_STREAM_ID := holder.(requestWritten := true)];
      NotifyStreamInit(HTTP_UPGRADE_STREAM_ID);
      http2Channels := http2Channels[route := channelId];
    }

    /**
     * The reader/writer idle branch of userEventTriggered: remove the idle handler,
     * set idleTimeoutTriggered, run the inactive path (which then reports no error)
     * and report exactly one timeout outcome.
     */
    method IdleTimeout() returns (thrown: Option<Thrown>)
      requires Valid()
      modifies this`pipeline, this`idleTimeoutTriggered, this`active, this`effects, inboundResponseMsg
      ensures Valid()
      // no idle handler: the remove throws before anything happens
      ensures IdleStateName !in old(pipeline) ==>
        && thrown == Some(NoSuchElement) && pipeline == old(pipeline)
        && idleTimeoutTriggered == old(idleTimeoutTriggered) && active == old(active) && effects == old(effects)
        && (inboundResponseMsg != null ==> inboundResponseMsg.contents == old(inboundResponseMsg.contents))
      // the idle timeout: closed, invalidated, and one timeout outcome
      ensures IdleStateName in old(pipeline) ==>
        && idleTimeoutTriggered && pipeline == Remove(old(pipeline), IdleStateName).value && !active
        && (inboundResponseMsg == null && hasResponseFuture ==>
              thrown.None? && effects == old(effects) + Closing(old(active))
                + [ChannelInvalidated, ErrorNotified(EndpointTimedOut(channelId, GATEWAY_TIMEOUT))])
        && (inboundResponseMsg == null && !hasResponseFuture ==>
              thrown == Some(NullPointer) && effects == old(effects) + Closing(old(active)) + [ChannelInvalidated])
        && (inboundResponseMsg != null ==>
              && thrown.None? && effects == old(effects) + Closing(old(active)) + [ChannelInvalidated]
              && inboundResponseMsg.contents
                 == old(inboundResponseMsg.contents) + [FailedLastContent(IdleTimeoutWhileReading)])
    {
      var removed := Remove(pipeline, IdleStateName);
      if removed.Err? {
        thrown := Some(removed.error);
        return;
      }
      pipeline := removed.value;
      idleTimeoutTriggered := true;
      var inactive := ChannelInactive();
      assert inactive.None?;
      thrown := HandleErrorIdleScenarios();
    }

    /** The upgrade-event branch of userEventTriggered: forwarded, after the handover on success. */
    method UpgradeEventTriggered(kind: UpgradeEventKind) returns (thrown: Option<Thrown>)
      requires Valid()
      modifies this`pipeline, this`effects, this`inFlight, this`dataListeners, this`http2Channels
      ensures Valid()
      ensures kind != UpgradeSuccessful ==>
        && thrown.None? && effects == old(effects) + [UserEventForwarded(UpgradeEvent(kind))]
        && pipeline == old(pipeline) && inFlight == old(inFlight)
        && dataListeners == old(dataListeners) && http2Channels == old(http2Channels)
      ensures kind == UpgradeSuccessful && UpgradedPipeline(old(pipeline)).Ok?
              && HTTP_UPGRADE_STREAM_ID in old(inFlight) ==>
        && thrown.None?
        && pipeline == UpgradedPipeline(old(pipeline)).value
        && dataListeners == old(dataListeners) + [TimeoutListener(socketIdleTimeout)]
        && inFlight == old(inFlight)[HTTP_UPGRADE_STREAM_ID :=
                         old(inFlight)[HTTP_UPGRADE_STREAM_ID].(requestWritten := true)]
        && effects == old(effects) + StreamInits(dataListeners, HTTP_UPGRADE_STREAM_ID)
                      + [UserEventForwarded(UpgradeEvent(kind))]
        && http2Channels == old(http2Channels)[route := channelId]
      // a failed handover forwards nothing and leaves what executePostUpgradeActions left
      ensures kind == UpgradeSuccessful
              && !(UpgradedPipeline(old(pipeline)).Ok? && HTTP_UPGRADE_STREAM_ID in old(inFlight)) ==>
        thrown.Some? && effects == old(effects)
      ensures kind == UpgradeSuccessful && TargetName !in old(pipeline) ==>
        && thrown == Some(NoSuchElement) && pipeline == old(pipeline) && dataListeners == old(dataListeners)
        && inFlight == old(inFlight) && http2Channels == old(http2Channels)
      ensures kind == UpgradeSuccessful && TargetName in old(pipeline) && Http2TargetName in old(pipeline) ==>
        && thrown == Some(IllegalArgument) && pipeline == Remove(old(pipeline), TargetName).value
        && dataListeners == old(dataListeners) && inFlight == old(inFlight) && http2Channels == old(http2Channels)
      ensures kind == UpgradeSuccessful && UpgradedPipeline(old(pipeline)).Ok?
              && HTTP_UPGRADE_STREAM_ID !in old(inFlight) ==>
        && thrown == Some(NullPointer) && pipeline == UpgradedPipeline(old(pipeline)).value
        && dataListeners == old(dataListeners) + [TimeoutListener(socketIdleTimeout)]
        && inFlight == old(inFlight) && http2Channels == old(http2Channels)
    {
      thrown := None;
      if kind == UpgradeSuccessful {
        thrown := ExecutePostUpgradeActions();
        if thrown.Some? {
          return;
        }
      }
      ghost var upgraded := pipeline;
      assert Valid();
      effects := effects + [UserEventForwarded(UpgradeEvent(kind))];
      assert pipeline == upgraded;
    }

    /**
     * userEventTriggered: a reader or writer idle event is the idle timeout, an
     * upgrade event goes to the upgrade branch, other events are only logged.
     */
    method UserEventTriggered(evt: UserEvent) returns (thrown: Option<Thrown>)
      requires Valid()
      modifies this`pipeline, this`idleTimeoutTriggered, this`active, this`effects
      modifies this`inFlight, this`dataListeners, this`http2Channels, inboundResponseMsg
      ensures Valid()
      ensures !(evt.IdleStateEvent? && evt.state != AllIdle) && !evt.UpgradeEvent? ==>
        && thrown.None? && pipeline == old(pipeline) && idleTimeoutTriggered == old(idleTimeoutTriggered)
        && active == old(active) && effects == old(effects) && inFlight == old(inFlight)
        && dataListeners == old(dataListeners) && http2Channels == old(http2Channels)
        && (inboundResponseMsg != null ==> inboundResponseMsg.contents == old(inboundResponseMsg.contents))
      ensures evt.IdleStateEvent? && evt.state != AllIdle ==>
        && inFlight == old(inFlight) && dataListeners == old(dataListeners) && http2Channels == old(http2Channels)
        && (IdleStateName !in old(pipeline) ==> thrown == Some(NoSuchElement) && effects == old(effects))
        && (IdleStateName in old(pipeline) && inboundResponseMsg == null && hasResponseFuture ==>
              thrown.None? && idleTimeoutTriggered && effects == old(effects) + Closing(old(active))
                + [ChannelInvalidated, ErrorNotified(EndpointTimedOut(channelId, GATEWAY_TIMEOUT))])
      ensures evt.UpgradeEvent? ==>
        && idleTimeoutTriggered == old(idleTimeoutTriggered) && active == old(active)
        && (inboundResponseMsg != null ==> inboundResponseMsg.contents == old(inboundResponseMsg.contents))
        && (evt.kind != UpgradeSuccessful ==>
              thrown.None? && effects == old(effects) + [UserEventForwarded(evt)] && pipeline == old(pipeline))
    {
      thrown := None;
      match evt
      case IdleStateEvent(state) =>
        if state == ReaderIdle || state == WriterIdle {
          thrown := IdleTimeout();
        }
      case UpgradeEvent(kind) =>
        thrown := UpgradeEventTriggered(kind);
      case PrefaceAndSettingsWritten =>
      case SslCloseCompletion =>
      case InputShutdownReadComplete =>
      case OtherEvent =>
    }
  }

  /**
   * closeChannel guards against a connection that is already closed: a second call
   * adds nothing, so the channel is closed at most once.
   */
  method CloseChannelTwice(h: TargetHandler)
    modifies h`active, h`effects
    ensures !h.active
    ensures h.effects == old(h.effects) + Closing(old(h.active))
  {
    h.CloseChannel();
    h.CloseChannel();
  }

  /**
   * A second idle event finds the idle handler gone: it throws before acting, so a
   * connection reports at most one timeout.
   */
  method RepeatedIdleTimeout(h: TargetHandler) returns (first: Option<Thrown>, second: Option<Thrown>)
    requires h.Valid() && IdleStateName in h.pipeline
    requires h.hasResponseFuture && h.inboundResponseMsg == null
    modifies h
    ensures first.None? && second == Some(NoSuchElement)
    ensures h.effects == old(h.effects) + Closing(old(h.active))
                         + [ChannelInvalidated, ErrorNotified(EndpointTimedOut(h.channelId, GATEWAY_TIMEOUT))]
  {
    first := h.UserEventTriggered(IdleStateEvent(ReaderIdle));
    second := h.UserEventTriggered(IdleStateEvent(WriterIdle));
  }
}
