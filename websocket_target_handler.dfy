/**
 * The WebSocket client's inbound handler (WebSocketTargetHandler): it completes the
 * opening handshake on the first response, then dispatches frames to the connector
 * listener: text and binary fragments (section 5.4 of RFC 6455), ping and pong,
 * the close handshake (section 5.5.1 of RFC 6455), abnormal closure (status 1006,
 * section 7.4.1 of RFC 6455), idle timeouts and errors.
 *
 * The listener calls, the close frame the handler writes and the channel close are
 * appended, in order, to one output log.
 */
module WebSocketTarget {
  import opened Common

  /** Constants.WEBSOCKET_STATUS_CODE_ABNORMAL_CLOSURE (section 7.4.1 of RFC 6455). */
  const ABNORMAL_CLOSURE: int := 1006

  /** The WebSocketFrameType values the handler stores for continuations. */
  datatype FrameType = Text | Binary

  /** The frames Netty's decoder delivers; a continuation carries its payload both as text and as bytes. */
  datatype Frame =
    | TextFrame(text: string, finalFragment: bool)
    | BinaryFrame(data: seq<bv8>, finalFragment: bool)
    | ContinuationFrame(text: string, data: seq<bv8>, finalFragment: bool)
    | PingFrame(data: seq<bv8>)
    | PongFrame(data: seq<bv8>)
    | CloseFrame(statusCode: int, reasonText: Option<string>)
    | OtherFrame

  /** What channelRead receives. `acceptable` is whether finishHandshake accepts the response. */
  datatype Inbound =
    | FullHttpResponse(statusCode: int, acceptable: bool)
    | WebSocketFrame(frame: Frame)
    | OtherMessage

  datatype IdleState = ReaderIdle | WriterIdle | AllIdle

  datatype UserEvent = IdleStateEvent(state: IdleState) | OtherUserEvent

  datatype ControlSignal = Ping | Pong

  /** The handshake promise. */
  datatype PromiseState = Pending | Succeeded | Failed(cause: string)

  /** The properties setupCommonProperties puts on every message. */
  datatype MessageContext = MessageContext(subProtocol: Option<string>, secured: bool, serverMessage: bool)

  /** Listener calls, the echoed close frame and the channel close, in order. */
  datatype Output =
    | OnText(text: string, finalFragment: bool, context: MessageContext)
    | OnBinary(data: seq<bv8>, finalFragment: bool, context: MessageContext)
    | OnControl(signal: ControlSignal, payload: seq<bv8>, context: MessageContext)
    | OnClose(code: int, reason: Option<string>, context: MessageContext)
    | OnIdleTimeout(context: MessageContext)
    | OnError(cause: string)
    | CloseFrameWritten(code: int, reason: Option<string>)
    | ChannelClosed

  /** Whether f is a non-final text or binary frame, that is, whether it opens a fragmented message. */
  predicate Opens(f: Frame) {
    (f.TextFrame? || f.BinaryFrame?) && !f.finalFragment
  }

  /** The kind of message a frame opens. */
  function KindOf(f: Frame): FrameType
    requires f.TextFrame? || f.BinaryFrame?
  {
    if f.TextFrame? then Text else Binary
  }

  /**
   * The kind recorded for continuations after the frames h: that of the latest
   * frame that opened a fragmented message. Nothing ever clears it.
   */
  function FragmentedKind(h: seq<Frame>): Option<FrameType> {
    if h == [] then None
    else if Opens(h[|h| - 1]) then Some(KindOf(h[|h| - 1]))
    else FragmentedKind(h[..|h| - 1])
  }

  /**
   * The recorded kind is k exactly when some frame opened a fragmented message of
   * kind k and no later frame opened another one; it is absent exactly when no
   * frame ever opened one.
   */
  lemma {:induction false} FragmentedKindIsLatestOpening(h: seq<Frame>)
    ensures FragmentedKind(h).None? <==> forall i :: 0 <= i < |h| ==> !Opens(h[i])
    ensures FragmentedKind(h).Some? <==>
      exists i :: 0 <= i < |h| && Opens(h[i]) && KindOf(h[i]) == FragmentedKind(h).value
                  && forall j :: i < j < |h| ==> !Opens(h[j])
  {
    if h != [] {
      var last := |h| - 1;
      var init := h[..last];
      FragmentedKindIsLatestOpening(init);
      assert forall i :: 0 <= i < last ==> init[i] == h[i];
      if Opens(h[last]) {
        assert Opens(h[last]) && KindOf(h[last]) == FragmentedKind(h).value;
      } else if FragmentedKind(init).Some? {
        var i :| 0 <= i < |init| && Opens(init[i]) && KindOf(init[i]) == FragmentedKind(init).value
                 && forall j :: i < j < |init| ==> !Opens(init[j]);
        assert Opens(h[i]) && KindOf(h[i]) == FragmentedKind(h).value
               && forall j :: i < j < |h| ==> !Opens(h[j]);
      }
    }
  }

  /** CountDownLatch.countDown: one less, never below zero. */
  function CountDown(count: nat): (r: nat)
    ensures r <= count && (count > 0 ==> r < count)
    ensures r == 0 <==> count <= 1
    ensures count > 0 ==> r == count - 1
    ensures count == 0 ==> r == 0
  {
    if count == 0 then 0 else count - 1
  }

  /** The client side's DefaultWebSocketConnection, reduced to its close flags. */
  class WebSocketConnection {
    const secured: bool
    const target: string
    var closeFrameReceived: bool
    var closeFrameSent: bool

    constructor (secured: bool, target: string)
      ensures this.secured == secured && this.target == target
      ensures !closeFrameReceived && !closeFrameSent
    {
      this.secured := secured;
      this.target := target;
      closeFrameReceived := false;
      closeFrameSent := false;
    }
  }

  class WebSocketTargetHandler {
    const isSecure: bool
    const requestedUri: string
    var actualSubProtocol: Option<string>
    /** handshaker.isHandshakeComplete() */
    var handshakeComplete: bool
    var handshakeFuture: PromiseState
    /** Status of the handshake response kept as httpCarbonResponse. */
    var handshakeResponseStatus: Option<int>
    var connection: WebSocketConnection?
    var continuationFrameType: Option<FrameType>
    var closeFrameReceived: bool
    /** closeCountDownLatch: None while no local close is pending, else the latch count. */
    var closeLatch: Option<nat>
    var out: seq<Output>
    /** The frames read since the handshake completed. */
    ghost var frames: seq<Frame>

    /** The stored continuation type is the kind the frames read so far left open. */
    ghost predicate Valid()
      reads this
    {
      continuationFrameType == FragmentedKind(frames)
    }

    /** The handler as created and added to the pipeline (handlerAdded creates the promise). */
    constructor (isSecure: bool, requestedUri: string)
      ensures Valid()
      ensures this.isSecure == isSecure && this.requestedUri == requestedUri
      ensures actualSubProtocol.None? && !handshakeComplete && handshakeFuture == Pending
      ensures handshakeResponseStatus.None? && connection == null && continuationFrameType.None?
      ensures !closeFrameReceived && closeLatch.None? && out == [] && frames == []
    {
      this.isSecure := isSecure;
      this.requestedUri := requestedUri;
      actualSubProtocol := None;
      handshakeComplete := false;
      handshakeFuture := Pending;
      handshakeResponseStatus := None;
      connection := null;
      continuationFrameType := None;
      closeFrameReceived := false;
      closeLatch := None;
      out := [];
      frames := [];
    }

    /**
     * The properties setupCommonProperties gives each message: the negotiated
     * sub-protocol, whether the connection is secured, and that this is a client message.
     */
    function Context(): (r: MessageContext)
      reads this
      ensures r.subProtocol == actualSubProtocol && r.secured == isSecure
      ensures !r.serverMessage
    {
      MessageContext(actualSubProtocol, isSecure, false)
    }

    method SetActualSubProtocol(subProtocol: Option<string>)
      modifies this`actualSubProtocol
      ensures actualSubProtocol == subProtocol
    {
      actualSubProtocol := subProtocol;
    }

    /** setCloseCountDownLatch: a local close now waits for the peer's close frame. */
    method SetCloseCountDownLatch(count: nat)
      modifies this`closeLatch
      ensures closeLatch == Some(count)
    {
      closeLatch := Some(count);
    }

    /** channelActive: the handshake request is sent and a connection object is created. */
    method ChannelActive()
      modifies this`connection
      ensures connection != null && fresh(connection)
      ensures connection.secured == isSecure && connection.target == requestedUri
      ensures !connection.closeFrameReceived && !connection.closeFrameSent
    {
      connection := new WebSocketConnection(isSecure, requestedUri);
    }

    method NotifyTextMessage(text: string, finalFragment: bool)
      modifies this`out
      ensures out == old(out) + [OnText(text, finalFragment, Context())]
    {
      out := out + [OnText(text, finalFragment, Context())];
    }

    method NotifyBinaryMessage(data: seq<bv8>, finalFragment: bool)
      modifies this`out
      ensures out == old(out) + [OnBinary(data, finalFragment, Context())]
    {
      out := out + [OnBinary(data, finalFragment, Context())];
    }

    method NotifyPingMessage(payload: seq<bv8>)
      modifies this`out
      ensures out == old(out) + [OnControl(Ping, payload, Context())]
    {
      out := out + [OnControl(Ping, payload, Context())];
    }

    method NotifyPongMessage(payload: seq<bv8>)
      modifies this`out
      ensures out == old(out) + [OnControl(Pong, payload, Context())]
    {
      out := out + [OnControl(Pong, payload, Context())];
    }

    method NotifyIdleTimeout()
      modifies this`out
      ensures out == old(out) + [OnIdleTimeout(Context())]
    {
      out := out + [OnIdleTimeout(Context())];
    }

    /**
     * notifyCloseMessage: with no local close pending the listener gets the peer's
     * close; with one pending the peer's code and reason are echoed back in a close
     * frame and the latch counted down, and the listener gets nothing.
     */
    method NotifyCloseMessage(statusCode: int, reasonText: Option<string>) returns (thrown: Option<Thrown>)
      modifies this`out, this`closeFrameReceived, this`closeLatch
      ensures connection == null ==>
        thrown == Some(ServerConnector) && out == old(out)
        && closeFrameReceived == old(closeFrameReceived) && closeLatch == old(closeLatch)
      ensures connection != null && old(closeLatch).None? ==>
        thrown.None? && out == old(out) + [OnClose(statusCode, reasonText, Context())]
        && closeFrameReceived && closeLatch.None?
      ensures connection != null && old(closeLatch).Some? ==>
        thrown.None? && out == old(out) + [CloseFrameWritten(statusCode, reasonText)]
        && closeFrameReceived == old(closeFrameReceived) && closeLatch == Some(CountDown(old(closeLatch).value))
    {
      thrown := None;
      if connection == null {
        thrown := Some(ServerConnector);
        return;
      }
      match closeLatch
      case None =>
        out := out + [OnClose(statusCode, reasonText, Context())];
        closeFrameReceived := true;
      case Some(count) =>
        out := out + [CloseFrameWritten(statusCode, reasonText)];
        closeLatch := Some(CountDown(count));
    }

    /**
     * channelRead. Before the handshake completes the message must be the handshake
     * response, and it completes the handshake without any listener call. After it,
     * each frame is delivered by kind; a continuation is delivered as the kind the
     * latest non-final text or binary frame recorded.
     */
    method ChannelRead(msg: Inbound) returns (thrown: Option<Thrown>)
      requires Valid()
      modifies this, connection
      ensures Valid()
      ensures actualSubProtocol == old(actualSubProtocol)
      // --- while the handshake is incomplete
      ensures !old(handshakeComplete) && !msg.FullHttpResponse? ==>
        thrown == Some(ClassCast) && unchanged(this)
      ensures !old(handshakeComplete) && msg.FullHttpResponse? ==>
        && handshakeResponseStatus == Some(msg.statusCode)
        && out == old(out) && frames == old(frames)
        && closeFrameReceived == old(closeFrameReceived) && closeLatch == old(closeLatch)
      ensures !old(handshakeComplete) && msg.FullHttpResponse? && !msg.acceptable ==>
        && thrown == Some(HandshakeFailed) && !handshakeComplete
        && handshakeFuture == old(handshakeFuture) && connection == old(connection)
      ensures !old(handshakeComplete) && msg.FullHttpResponse? && msg.acceptable && old(handshakeFuture).Pending? ==>
        && thrown.None? && handshakeComplete && handshakeFuture == Succeeded
        && connection != null && fresh(connection)
        && connection.secured == isSecure && connection.target == requestedUri
        && !connection.closeFrameReceived && !connection.closeFrameSent
      ensures !old(handshakeComplete) && msg.FullHttpResponse? && msg.acceptable && !old(handshakeFuture).Pending? ==>
        && thrown == Some(IllegalState) && handshakeComplete
        && handshakeFuture == old(handshakeFuture) && connection == old(connection)
      // reading never marks a close frame as sent; before the handshake the old connection is untouched
      ensures old(connection) != null ==> old(connection).closeFrameSent == old(connection.closeFrameSent)
      ensures !old(handshakeComplete) && old(connection) != null ==>
        old(connection).closeFrameReceived == old(connection.closeFrameReceived)
      // --- after the handshake
      ensures old(handshakeComplete) && !msg.WebSocketFrame? ==>
        thrown == Some(if msg.FullHttpResponse? then IllegalState else ClassCast) && unchanged(this)
        && (connection != null ==> unchanged(connection))
      ensures old(handshakeComplete) && msg.WebSocketFrame? ==>
        && handshakeComplete && frames == old(frames) + [msg.frame]
        && handshakeFuture == old(handshakeFuture) && handshakeResponseStatus == old(handshakeResponseStatus)
        && connection == old(connection)
      ensures old(handshakeComplete) && msg.WebSocketFrame? && !msg.frame.CloseFrame? ==>
        closeFrameReceived == old(closeFrameReceived) && closeLatch == old(closeLatch)
        && (connection != null ==> connection.closeFrameReceived == old(connection.closeFrameReceived))
      ensures old(handshakeComplete) && msg.WebSocketFrame? ==>
        match msg.frame
        case TextFrame(text, fin) =>
          && thrown.None? && out == old(out) + [OnText(text, fin, Context())]
          && continuationFrameType == (if fin then old(continuationFrameType) else Some(Text))
        case BinaryFrame(data, fin) =>
          && thrown.None? && out == old(out) + [OnBinary(data, fin, Context())]
          && continuationFrameType == (if fin then old(continuationFrameType) else Some(Binary))
        case PongFrame(data) =>
          thrown.None? && out == old(out) + [OnControl(Pong, data, Context())]
        case PingFrame(data) =>
          thrown.None? && out == old(out) + [OnControl(Ping, data, Context())]
        case CloseFrame(code, reason) =>
          && (old(connection) == null ==>
                thrown == Some(NullPointer) && out == old(out)
                && closeFrameReceived == old(closeFrameReceived) && closeLatch == old(closeLatch))
          && (old(connection) != null && old(closeLatch).None? ==>
                && thrown.None? && connection.closeFrameReceived && closeFrameReceived
                && out == old(out) + [OnClose(code, reason, Context())] && closeLatch.None?)
          && (old(connection) != null && old(closeLatch).Some? ==>
                && thrown.None? && connection.closeFrameReceived
                && closeFrameReceived == old(closeFrameReceived)
                && out == old(out) + [CloseFrameWritten(code, reason)]
                && closeLatch == Some(CountDown(old(closeLatch).value)))
        case ContinuationFrame(text, data, fin) =>
          && continuationFrameType == old(continuationFrameType)
          && (old(continuationFrameType) == None ==> thrown == Some(NullPointer) && out == old(out))
          && (old(continuationFrameType) == Some(Text) ==>
                thrown.None? && out == old(out) + [OnText(text, fin, Context())])
          && (old(continuationFrameType) == Some(Binary) ==>
                thrown.None? && out == old(out) + [OnBinary(data, fin, Context())])
        case OtherFrame =>
          thrown == Some(UnknownFrameType) && out == old(out)
    {
      thrown := None;
      if !handshakeComplete {
        if !msg.FullHttpResponse? {
          thrown := Some(ClassCast);
          return;
        }
        thrown := FinishHandshake(msg);
        return;
      }
      if msg.FullHttpResponse? {
        thrown := Some(IllegalState);
        return;
      }
      if !msg.WebSocketFrame? {
        thrown := Some(ClassCast);
        return;
      }
      thrown := ReadFrame(msg.frame);
    }

    /**
     * The first response: its status is recorded and the handshake is finished, which
     * creates the connection unless the response is refused or the promise was
     * already completed.
     */
    method FinishHandshake(msg: Inbound) returns (thrown: Option<Thrown>)
      requires Valid() && !handshakeComplete && msg.FullHttpResponse?
      modifies this`handshakeResponseStatus, this`handshakeComplete, this`handshakeFuture, this`connection
      ensures Valid()
      ensures handshakeResponseStatus == Some(msg.statusCode)
      ensures !msg.acceptable ==>
        && thrown == Some(HandshakeFailed) && !handshakeComplete
        && handshakeFuture == old(handshakeFuture) && connection == old(connection)
      ensures msg.acceptable && old(handshakeFuture).Pending? ==>
        && thrown.None? && handshakeComplete && handshakeFuture == Succeeded
        && connection != null && fresh(connection)
        && connection.secured == isSecure && connection.target == requestedUri
        && !connection.closeFrameReceived && !connection.closeFrameSent
      ensures msg.acceptable && !old(handshakeFuture).Pending? ==>
        && thrown == Some(IllegalState) && handshakeComplete
        && handshakeFuture == old(handshakeFuture) && connection == old(connection)
    {
      thrown := None;
      handshakeResponseStatus := Some(msg.statusCode);
      if !msg.acceptable {
        thrown := Some(HandshakeFailed);
        return;
      }
      handshakeComplete := true;
      if !handshakeFuture.Pending? {
        thrown := Some(IllegalState);
        return;
      }
      handshakeFuture := Succeeded;
      connection := new WebSocketConnection(isSecure, requestedUri);
    }

    /**
     * A frame after the handshake: it is recorded and dispatched by kind, each kind
     * with exactly one outcome.
     */
    method ReadFrame(frame: Frame) returns (thrown: Option<Thrown>)
      requires Valid()
      modifies this`frames, this`continuationFrameType, this`out, this`closeFrameReceived, this`closeLatch
      modifies connection
      ensures Valid()
      ensures frames == old(frames) + [frame]
      ensures connection != null ==> connection.closeFrameSent == old(connection.closeFrameSent)
      ensures !frame.CloseFrame? ==>
        closeFrameReceived == old(closeFrameReceived) && closeLatch == old(closeLatch)
        && (connection != null ==> connection.closeFrameReceived == old(connection.closeFrameReceived))
      ensures match frame
        case TextFrame(text, fin) =>
          && thrown.None? && out == old(out) + [OnText(text, fin, Context())]
          && continuationFrameType == (if fin then old(continuationFrameType) else Some(Text))
        case BinaryFrame(data, fin) =>
          && thrown.None? && out == old(out) + [OnBinary(data, fin, Context())]
          && continuationFrameType == (if fin then old(continuationFrameType) else Some(Binary))
        case PongFrame(data) =>
          thrown.None? && out == old(out) + [OnControl(Pong, data, Context())]
        case PingFrame(data) =>
          thrown.None? && out == old(out) + [OnControl(Ping, data, Context())]
        case CloseFrame(code, reason) =>
          && (connection == null ==>
                thrown == Some(NullPointer) && out == old(out)
                && closeFrameReceived == old(closeFrameReceived) && closeLatch == old(closeLatch))
          && (connection != null && old(closeLatch).None? ==>
                && thrown.None? && connection.closeFrameReceived && closeFrameReceived
                && out == old(out) + [OnClose(code, reason, Context())] && closeLatch.None?)
          && (connection != null && old(closeLatch).Some? ==>
                && thrown.None? && connection.closeFrameReceived
                && closeFrameReceived == old(closeFrameReceived)
                && out == old(out) + [CloseFrameWritten(code, reason)]
                && closeLatch == Some(CountDown(old(closeLatch).value)))
        case ContinuationFrame(text, data, fin) =>
          && continuationFrameType == old(continuationFrameType)
          && (old(continuationFrameType) == None ==> thrown == Some(NullPointer) && out == old(out))
          && (old(continuationFrameType) == Some(Text) ==>
                thrown.None? && out == old(out) + [OnText(text, fin, Context())])
          && (old(continuationFrameType) == Some(Binary) ==>
                thrown.None? && out == old(out) + [OnBinary(data, fin, Context())])
        case OtherFrame =>
          thrown == Some(UnknownFrameType) && out == old(out)
    {
      thrown := None;
      frames := frames + [frame];
      match frame
      case TextFrame(text, fin) =>
        if !fin {
          continuationFrameType := Some(Text);
        }
        NotifyTextMessage(text, fin);
      case BinaryFrame(data, fin) =>
        if !fin {
          continuationFrameType := Some(Binary);
        }
        NotifyBinaryMessage(data, fin);
      case PongFrame(data) =>
        NotifyPongMessage(data);
      case PingFrame(data) =>
        NotifyPingMessage(data);
      case CloseFrame(code, reason) =>
        if connection == null {
          thrown := Some(NullPointer);
          return;
        }
        connection.closeFrameReceived := true;
        thrown := NotifyCloseMessage(code, reason);
      case ContinuationFrame(text, data, fin) =>
        match continuationFrameType {
          case None =>
            thrown := Some(NullPointer);
          case Some(Text) =>
            NotifyTextMessage(text, fin);
          case Some(Binary) =>
            NotifyBinaryMessage(data, fin);
        }
      case OtherFrame =>
        thrown := Some(UnknownFrameType);
    }

    /**
     * channelInactive: when the channel goes away with a connection on which no close
     * frame was received or sent, the listener gets one close with status 1006 and
     * no reason.
     */
    method ChannelInactive()
      modifies this`out
      ensures connection != null && !(connection.closeFrameReceived || connection.closeFrameSent) ==>
        out == old(out) + [OnClose(ABNORMAL_CLOSURE, None, Context())]
      ensures !(connection != null && !(connection.closeFrameReceived || connection.closeFrameSent)) ==>
        out == old(out)
    {
      if connection != null && !(connection.closeFrameReceived || connection.closeFrameSent) {
        out := out + [OnClose(ABNORMAL_CLOSURE, None, Context())];
      }
    }

    /** userEventTriggered: an all-idle event is reported to the listener; nothing is closed. */
    method UserEventTriggered(evt: UserEvent)
      modifies this`out
      ensures evt == IdleStateEvent(AllIdle) ==> out == old(out) + [OnIdleTimeout(Context())]
      ensures evt != IdleStateEvent(AllIdle) ==> out == old(out)
    {
      if evt == IdleStateEvent(AllIdle) {
        NotifyIdleTimeout();
      }
    }

    /**
     * exceptionCaught: a pending handshake fails with the cause; then the channel is
     * closed and the listener gets the error.
     */
    method ExceptionCaught(cause: string)
      modifies this`handshakeFuture, this`out
      ensures handshakeFuture == if old(handshakeFuture).Pending? then Failed(cause) else old(handshakeFuture)
      ensures out == old(out) + [ChannelClosed, OnError(cause)]
    {
      if handshakeFuture.Pending? {
        handshakeFuture := Failed(cause);
      }
      out := out + [ChannelClosed, OnError(cause)];
    }
  }
}
