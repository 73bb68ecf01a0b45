# WSO2 HTTP transport: target, WebSocket client and WebSocket upgrade handlers

This project models three Netty channel handlers of the WSO2 carbon HTTP transport and
proves properties of the model.

- **`TargetHandler`** is the HTTP/1.1 client's response path. It does the following:
  - builds the inbound response from the response head;
  - queues content chunks;
  - on the last chunk, decides keep-alive (AUTO / ALWAYS / NEVER) and returns the
    connection to the pool;
  - reports a remote close, an exception or an idle timeout to the response future,
    with at most one timeout outcome;
  - on a successful in-place upgrade, hands the connection over to HTTP/2. It swaps
    the handlers, marks stream 1 written (section 3.2 of RFC 7540), notifies the data
    listeners and registers the channel by route.
- **`WebSocketTargetHandler`** is the WebSocket client's inbound handler. It does the
  following:
  - completes the opening handshake on the first response;
  - dispatches text and binary frames and their continuations (section 5.4 of
    RFC 6455), ping and pong;
  - runs the close handshake. It either notifies the listener or echoes the peer's
    close when a local close is pending (section 5.5.1 of RFC 6455);
  - reports abnormal closure with status 1006 (section 7.4.1 of RFC 6455), idle
    timeouts and errors.
- **`WebSocketServerHandshakeHandler`** is the server's WebSocket upgrade detection. An
  upgrade request is a GET whose `Connection` header lists the `upgrade` token (a
  comma-separated list, section 6.1 of RFC 7230) and whose `Upgrade` header is
  `websocket` (section 4.2.1 of RFC 6455). Such a request makes the handler:
  - insert an aggregator and a one-shot handshake stage after the request decoder;
  - re-fire the request from the decoder and turn auto-read off.

  The handshake stage removes itself, builds the init message and the request
  metadata, and notifies the WebSocket listener.

The model has six modules:

- **`Common`**: `Option`, `Result`, the Java exceptions a handler lets escape
  (`Thrown`), and `HttpVersion`.
- **`ChannelPipeline`**: the pipeline as a list of handler names, with Netty's
  `remove` / `addLast` / `addAfter` and their exceptions.
- **`JavaText`**: the `java.lang.String` operations the upgrade check relies on, which
  are `split(",")`, `trim()`, `equalsIgnoreCase`, and int-to-decimal rendering.
- **`HttpTarget`**, **`WebSocketTarget`** and **`WebSocketServerHandshake`**: one
  class per handler. Each event is a method. The handler fields are class fields. An
  effect the handler causes is appended to an ordered output log: a listener call, a
  future notification, a pool action or a channel close. A Java exception that
  escapes a handler is the method's `thrown` result, and the steps after it do not
  happen.

Each handler has an invariant that it preserves:

- `TargetHandler`: pipeline names are unique, and once the idle timeout has fired the
  idle handler is gone.
- `WebSocketTargetHandler`: the stored continuation type is the kind of the latest
  non-final text or binary frame read (`FragmentedKindIsLatestOpening`).
- `WebSocketServerHandshakeHandler`: pipeline names are unique; `ChannelRead`,
  `TakeUpgradePath` and `HandshakeStageRead` keep them so.

All three handlers live in the transport module,
`components/org.wso2.transport.http.netty/src/main/java/org/wso2/transport/http/netty/`,
and the table cites them by their path from the repository root.

## Model

| member | source | states |
|---|---|---|
| ChannelPipeline.IndexOf | components/org.wso2.transport.http.netty/src/main/java/org/wso2/transport/http/netty/listener/WebSocketServerHandshakeHandler.java:75 | Finding a handler in the pipeline: absent exactly when the name is not there; otherwise the position of its first occurrence |
| ChannelPipeline.Remove | components/org.wso2.transport.http.netty/src/main/java/org/wso2/transport/http/netty/sender/TargetHandler.java:119 | `pipeline.remove(name)`: NoSuchElementException exactly when the name is absent; otherwise the name's count drops by one and every other handler stays in; unique names stay unique with the name gone |
| ChannelPipeline.RemoveKeepsOrder | components/org.wso2.transport.http.netty/src/main/java/org/wso2/transport/http/netty/sender/TargetHandler.java:119 | The order is kept: the handlers before the removed one stay where they were and the ones after it move up by one |
| ChannelPipeline.RemoveIfPresent | components/org.wso2.transport.http.netty/src/main/java/org/wso2/transport/http/netty/sender/TargetHandler.java:236-237 | The safe remove of the HTTP-only handlers: never throws, changes nothing when the name is absent, and is exactly `remove` when it is present; the name is then absent from a unique pipeline |
| ChannelPipeline.Without | components/org.wso2.transport.http.netty/src/main/java/org/wso2/transport/http/netty/sender/TargetHandler.java:236-237 | Filtering handlers out by name: a handler is in the result exactly when it was in the pipeline and is not one of the names taken out |
| ChannelPipeline.RemoveIfPresentIsWithout | components/org.wso2.transport.http.netty/src/main/java/org/wso2/transport/http/netty/sender/TargetHandler.java:236-237 | In a pipeline of unique names, the safe remove of one name is the order-keeping filter of that name |
| ChannelPipeline.RemoveIfPresentBeforeLast | components/org.wso2.transport.http.netty/src/main/java/org/wso2/transport/http/netty/sender/TargetHandler.java:233-237 | Safely removing any handler other than the one just added last keeps that one last, filters the rest in order, and keeps names unique |
| ChannelPipeline.AddLast | components/org.wso2.transport.http.netty/src/main/java/org/wso2/transport/http/netty/sender/TargetHandler.java:233 | `pipeline.addLast(name, h)`: IllegalArgumentException exactly on a duplicate name; otherwise the old pipeline with the name appended, still unique |
| ChannelPipeline.AddAfter | components/org.wso2.transport.http.netty/src/main/java/org/wso2/transport/http/netty/listener/WebSocketServerHandshakeHandler.java:77-78 | `pipeline.addAfter(base, name, h)`: the duplicate name is checked first (IllegalArgumentException), then the missing base (NoSuchElementException); on success the name sits right after the base, everything else keeps its order, and uniqueness is kept |
| JavaText.Split | components/org.wso2.transport.http.netty/src/main/java/org/wso2/transport/http/netty/listener/WebSocketServerHandshakeHandler.java:119 | Cutting a header value at every comma: at least one piece, and no piece contains a comma |
| JavaText.JoinSplit | components/org.wso2.transport.http.netty/src/main/java/org/wso2/transport/http/netty/listener/WebSocketServerHandshakeHandler.java:119 | Splitting loses nothing: the pieces joined with the separator give the value back |
| JavaText.SplitJoin | components/org.wso2.transport.http.netty/src/main/java/org/wso2/transport/http/netty/listener/WebSocketServerHandshakeHandler.java:119 | The converse round trip: separator-free pieces are exactly what splitting their join yields |
| JavaText.SplitNoSeparator | components/org.wso2.transport.http.netty/src/main/java/org/wso2/transport/http/netty/listener/WebSocketServerHandshakeHandler.java:119 | A value without a comma is a single piece |
| JavaText.SplitPrefix | components/org.wso2.transport.http.netty/src/main/java/org/wso2/transport/http/netty/listener/WebSocketServerHandshakeHandler.java:119 | The text before the first comma becomes the first piece, and the rest is split on its own |
| JavaText.DropTrailingEmpty | components/org.wso2.transport.http.netty/src/main/java/org/wso2/transport/http/netty/listener/WebSocketServerHandshakeHandler.java:119 | Java's removal of trailing empty strings: the result is a prefix that does not end in an empty piece, and everything cut off is empty |
| JavaText.JavaSplit | components/org.wso2.transport.http.netty/src/main/java/org/wso2/transport/http/netty/listener/WebSocketServerHandshakeHandler.java:119 | `String.split(",")`: a value without a comma is returned whole (even when empty). Otherwise the result is a prefix of all the comma-separated pieces that does not end in an empty string, and every piece it drops is empty |
| JavaText.LeadingBlanks | components/org.wso2.transport.http.netty/src/main/java/org/wso2/transport/http/netty/listener/WebSocketServerHandshakeHandler.java:120 | What `trim` cuts at the front: every character up to U+0020, and it stops at the first other character |
| JavaText.TrailingBlanks | components/org.wso2.transport.http.netty/src/main/java/org/wso2/transport/http/netty/listener/WebSocketServerHandshakeHandler.java:120 | What `trim` cuts at the end, symmetrically |
| JavaText.Trim | components/org.wso2.transport.http.netty/src/main/java/org/wso2/transport/http/netty/listener/WebSocketServerHandshakeHandler.java:120 | `String.trim()`: the result is the slice of the input that starts after the leading characters up to U+0020, and only such characters follow it. It neither starts nor ends with one, and it is empty exactly when every character is one |
| JavaText.ToLower | components/org.wso2.transport.http.netty/src/main/java/org/wso2/transport/http/netty/listener/WebSocketServerHandshakeHandler.java:120 | The case folding `equalsIgnoreCase` applies: the result is never an upper-case letter, it is a lower-case letter exactly when the input is a letter, and everything but an upper-case letter is left alone |
| JavaText.ToLowerIdentifies | components/org.wso2.transport.http.netty/src/main/java/org/wso2/transport/http/netty/listener/WebSocketServerHandshakeHandler.java:120 | Two characters fold to the same character exactly when they are equal or are the upper- and lower-case forms of one letter |
| JavaText.EqualsIgnoreCase | components/org.wso2.transport.http.netty/src/main/java/org/wso2/transport/http/netty/listener/WebSocketServerHandshakeHandler.java:120 | `equalsIgnoreCase`: equal strings always match, and strings of different lengths never do |
| JavaText.EqualsIgnoreCaseLetters | components/org.wso2.transport.http.netty/src/main/java/org/wso2/transport/http/netty/listener/WebSocketServerHandshakeHandler.java:68-69 | `equalsIgnoreCase` holds exactly when both strings have the same length and, position by position, the characters are equal or the two cases of one letter |
| JavaText.NatToString | components/org.wso2.transport.http.netty/src/main/java/org/wso2/transport/http/netty/listener/WebSocketServerHandshakeHandler.java:170-171 | An int rendered in string concatenation is a non-empty run of decimal digits |
| JavaText.ParseNatToString | components/org.wso2.transport.http.netty/src/main/java/org/wso2/transport/http/netty/listener/WebSocketServerHandshakeHandler.java:170-171 | Rendering then reading back gives the number: the decimal rendering is injective |
| JavaText.ParseDottedPair | components/org.wso2.transport.http.netty/src/main/java/org/wso2/transport/http/netty/listener/WebSocketServerHandshakeHandler.java:170-171 | A version written as "major.minor" parses back to exactly that major and minor version |
| JavaText.VersionToString | components/org.wso2.transport.http.netty/src/main/java/org/wso2/transport/http/netty/listener/WebSocketServerHandshakeHandler.java:170-171 | The HTTP_VERSION string built from the request version reads back as that version |
| HttpTarget.BelowPow10Digits | components/org.wso2.transport.http.netty/src/main/java/org/wso2/transport/http/netty/sender/TargetHandler.java:321-322 | The minor version is below 10 to the power of its digit count, so read after the decimal point it is a fraction below one |
| HttpTarget.FractionBounds | components/org.wso2.transport.http.netty/src/main/java/org/wso2/transport/http/netty/sender/TargetHandler.java:321-322 | The minor part of the parsed version lies in [0, 1), and it is positive exactly when the minor version is non-zero |
| HttpTarget.IsKeepAlive | components/org.wso2.transport.http.netty/src/main/java/org/wso2/transport/http/netty/sender/TargetHandler.java:317-334 | isKeepAlive: ALWAYS keeps and NEVER closes; AUTO keeps exactly when the version read as a number exceeds 1.0, which is proved equivalent to major > 1, or major = 1 with minor > 0 ("1.1" keeps, "1.0" closes) |
| HttpTarget.StreamInits | components/org.wso2.transport.http.netty/src/main/java/org/wso2/transport/http/netty/sender/TargetHandler.java:244-246 | One onStreamInit notification per data listener, in list order, all for the given stream |
| HttpTarget.SafelyRemoveHttpHandlers | components/org.wso2.transport.http.netty/src/main/java/org/wso2/transport/http/netty/sender/TargetHandler.java:236-238 | The safe removes of the redirect, idle and trace handlers: afterwards none of the three is in a unique pipeline, names stay unique, and every other handler is in exactly when it was before |
| HttpTarget.SwapFacts | components/org.wso2.transport.http.netty/src/main/java/org/wso2/transport/http/netty/sender/TargetHandler.java:232-238 | For the pipeline left after `remove(this)`: adding the HTTP/2 handler and the safe removes give a unique pipeline with the HTTP/2 handler and without the four HTTP/1.1 handlers, and keep every other handler |
| HttpTarget.UpgradedPipeline | components/org.wso2.transport.http.netty/src/main/java/org/wso2/transport/http/netty/sender/TargetHandler.java:232-238 | The upgrade's pipeline rewrite succeeds exactly when this handler is there and the HTTP/2 target handler is not, and it keeps names unique |
| HttpTarget.UpgradedPipelineKeeps | components/org.wso2.transport.http.netty/src/main/java/org/wso2/transport/http/netty/sender/TargetHandler.java:232-238 | After the rewrite the HTTP/2 handler is in, while this handler and the redirect, idle and trace handlers are out; every handler other than these five is in exactly when it was before |
| HttpTarget.UpgradedPipelineOrder | components/org.wso2.transport.http.netty/src/main/java/org/wso2/transport/http/netty/sender/TargetHandler.java:232-238 | In a pipeline of unique names, the rewrite gives the old pipeline without this handler and the redirect, idle and trace handlers, in the old order, followed by the HTTP/2 target handler |
| HttpTarget.StripForHttp2 | components/org.wso2.transport.http.netty/src/main/java/org/wso2/transport/http/netty/sender/TargetHandler.java:233-237 | The three safe removes after `addLast` filter out the redirect, idle and trace handlers and keep the HTTP/2 target handler last |
| HttpTarget.TargetHandler.constructor | components/org.wso2.transport.http.netty/src/main/java/org/wso2/transport/http/netty/sender/TargetHandler.java:63-71 | The handler starts active, with no response in progress and no idle timeout fired, with nothing reported yet and with the given route, future, version, keep-alive configuration and HTTP/2 channel state |
| HttpTarget.TargetHandler.SetRequestHeaderWritten | components/org.wso2.transport.http.netty/src/main/java/org/wso2/transport/http/netty/sender/TargetHandler.java:86 | Stands for the setter of TargetChannel's request-header-written flag, which channelRead reads here and the close path at line 177; exactly that flag changes |
| HttpTarget.CarbonResponse.constructor | components/org.wso2.transport.http.netty/src/main/java/org/wso2/transport/http/netty/sender/TargetHandler.java:137-156 | The inbound response carries the head's status code and decoder result, and starts with no content |
| HttpTarget.TargetHandler.ChannelRead | components/org.wso2.transport.http.netty/src/main/java/org/wso2/transport/http/netty/sender/TargetHandler.java:85-135 | Before the request header is written, everything is dropped with no change. A response head creates a fresh response, marks stream 1's holder (when present) as having no push promises, and notifies the future once if there is one. Content is appended in arrival order to the response in progress, and ignored without one. The last chunk does four things: it clears the response in progress, removes the idle handler (NoSuchElement if it is absent), closes the channel exactly when the connection is not kept alive and still active, and returns the channel in every case. The invariant is kept |
| HttpTarget.TargetHandler.ReleaseConnection | components/org.wso2.transport.http.netty/src/main/java/org/wso2/transport/http/netty/sender/TargetHandler.java:119-125 | The end of a response: the idle handler is removed, the channel is closed exactly when the request is not kept alive, and the connection is returned either way; a NoSuchElementException with nothing changed when the idle handler is gone |
| HttpTarget.TargetHandler.CloseChannel | components/org.wso2.transport.http.netty/src/main/java/org/wso2/transport/http/netty/sender/TargetHandler.java:265-272 | closeChannel: afterwards the channel is inactive, and a close is issued only if it was still active, so a second call does nothing |
| HttpTarget.TargetHandler.HandleIncompleteInboundResponse | components/org.wso2.transport.http.netty/src/main/java/org/wso2/transport/http/netty/sender/TargetHandler.java:274-279 | The partial response gets exactly one failed last content with the given reason |
| HttpTarget.TargetHandler.HandleErrorCloseScenarios | components/org.wso2.transport.http.netty/src/main/java/org/wso2/transport/http/netty/sender/TargetHandler.java:175-184 | After an idle timeout nothing is reported. With the header written, a remote-close ClientConnectorException goes to the future (NullPointer without a future). Otherwise a partial response gets an abrupt-close failure |
| HttpTarget.TargetHandler.ChannelInactive | components/org.wso2.transport.http.netty/src/main/java/org/wso2/transport/http/netty/sender/TargetHandler.java:158-173 | The channel ends up inactive, with a close only if it was active. The close-path error is reported only when no idle timeout has fired. The target channel is invalidated unless that report threw, which happens exactly with the header written and no future |
| HttpTarget.TargetHandler.ExceptionCaught | components/org.wso2.transport.http.netty/src/main/java/org/wso2/transport/http/netty/sender/TargetHandler.java:186-195 | The cause goes to the future first, then a partial response is ended with the exception failure, then the channel is closed; without a future, NullPointer and nothing changes |
| HttpTarget.TargetHandler.HandleErrorIdleScenarios | components/org.wso2.transport.http.netty/src/main/java/org/wso2/transport/http/netty/sender/TargetHandler.java:255-263 | Exactly one timeout outcome: with no response started, an EndpointTimeOutException carrying 504; otherwise a failed last content on the partial response |
| HttpTarget.TargetHandler.NotifyStreamInit | components/org.wso2.transport.http.netty/src/main/java/org/wso2/transport/http/netty/sender/TargetHandler.java:244-246 | The forEach loop: the effect log grows by exactly StreamInits of the current listeners |
| HttpTarget.TargetHandler.SwapInHttp2Handlers | components/org.wso2.transport.http.netty/src/main/java/org/wso2/transport/http/netty/sender/TargetHandler.java:232-238 | `remove(this)` then `addLast(HTTP2_TARGET_HANDLER)` then the safe removes: NoSuchElement with nothing changed when this handler is gone, IllegalArgument after the remove when the HTTP/2 handler is already there, else exactly UpgradedPipeline; the invariant is kept |
| HttpTarget.TargetHandler.ExecutePostUpgradeActions | components/org.wso2.transport.http.netty/src/main/java/org/wso2/transport/http/netty/sender/TargetHandler.java:231-253 | After the pipeline rewrite a timeout data listener is added. Stream 1 is marked requestWritten and every listener gets onStreamInit(1); NullPointer when stream 1 has no in-flight holder. The channel is then registered under its route. Each failure point leaves the later state untouched |
| HttpTarget.TargetHandler.StartUpgradeStream | components/org.wso2.transport.http.netty/src/main/java/org/wso2/transport/http/netty/sender/TargetHandler.java:243-252 | Stream 1's holder is marked requestWritten, every data listener gets onStreamInit(1) and the channel is registered under its route; a NullPointerException with nothing changed when stream 1 has no holder |
| HttpTarget.TargetHandler.IdleTimeout | components/org.wso2.transport.http.netty/src/main/java/org/wso2/transport/http/netty/sender/TargetHandler.java:199-207 | Reader/writer idle: the idle handler is removed (NoSuchElement before any change if absent). The flag is set before the inactive path runs, so no close-path error is reported. Then the channel is closed and invalidated, and exactly one timeout outcome follows |
| HttpTarget.TargetHandler.UpgradeEventTriggered | components/org.wso2.transport.http.netty/src/main/java/org/wso2/transport/http/netty/sender/TargetHandler.java:208-214 | An upgrade event is forwarded. UPGRADE_SUCCESSFUL first runs the whole handover; if that throws, nothing is forwarded and the state is what the handover left: NoSuchElement with nothing changed when this handler is gone, IllegalArgument with only this handler removed when the HTTP/2 handler is already there, NullPointer after the pipeline rewrite and the timeout listener when stream 1 has no holder. Other kinds change nothing else |
| HttpTarget.TargetHandler.UserEventTriggered | components/org.wso2.transport.http.netty/src/main/java/org/wso2/transport/http/netty/sender/TargetHandler.java:197-229 | Dispatch: reader/writer idle events run the idle timeout, upgrade events the upgrade branch, and every other event (all-idle included) changes nothing |
| HttpTarget.RepeatedIdleTimeout | components/org.wso2.transport.http.netty/src/main/java/org/wso2/transport/http/netty/sender/TargetHandler.java:200-203 | A second idle event finds the idle handler removed and throws before acting, so a connection reports exactly one timeout |
| HttpTarget.CloseChannelTwice | components/org.wso2.transport.http.netty/src/main/java/org/wso2/transport/http/netty/sender/TargetHandler.java:265-272 | A second closeChannel adds nothing: the channel is closed at most once, whichever path closes it first |
| WebSocketTarget.FragmentedKindIsLatestOpening | components/org.wso2.transport.http.netty/src/main/java/org/wso2/transport/http/netty/sender/websocket/WebSocketTargetHandler.java:187-198 | The recorded continuation kind is k exactly when some frame opened a fragmented message of kind k and no later frame opened another; it is absent exactly when none ever did, because nothing clears it |
| WebSocketTarget.CountDown | components/org.wso2.transport.http.netty/src/main/java/org/wso2/transport/http/netty/sender/websocket/WebSocketTargetHandler.java:249-250 | The latch count after countDown never grows, drops by one while positive, and reaches zero exactly from one or zero |
| WebSocketTarget.WebSocketConnection.constructor | components/org.wso2.transport.http.netty/src/main/java/org/wso2/transport/http/netty/sender/websocket/WebSocketTargetHandler.java:137 | A new connection carries the handler's secured flag and target, with no close frame received or sent |
| WebSocketTarget.WebSocketTargetHandler.constructor | components/org.wso2.transport.http.netty/src/main/java/org/wso2/transport/http/netty/sender/websocket/WebSocketTargetHandler.java:87-94 | A fresh handler: no handshake yet, a pending handshake promise (from handlerAdded, lines 129-131), no connection, no continuation type, no latch and no output |
| WebSocketTarget.WebSocketTargetHandler.SetActualSubProtocol | components/org.wso2.transport.http.netty/src/main/java/org/wso2/transport/http/netty/sender/websocket/WebSocketTargetHandler.java:100-102 | The negotiated sub-protocol later messages carry |
| WebSocketTarget.WebSocketTargetHandler.SetCloseCountDownLatch | components/org.wso2.transport.http.netty/src/main/java/org/wso2/transport/http/netty/sender/websocket/WebSocketTargetHandler.java:124-126 | A local close is now pending with the given latch count |
| WebSocketTarget.WebSocketTargetHandler.Context | components/org.wso2.transport.http.netty/src/main/java/org/wso2/transport/http/netty/sender/websocket/WebSocketTargetHandler.java:276-280 | The properties every delivered message gets: the negotiated sub-protocol, the connection's secured flag, and the mark of a client (not server) message |
| WebSocketTarget.WebSocketTargetHandler.ChannelActive | components/org.wso2.transport.http.netty/src/main/java/org/wso2/transport/http/netty/sender/websocket/WebSocketTargetHandler.java:134-138 | A new connection for the requested URI and security is created |
| WebSocketTarget.WebSocketTargetHandler.NotifyTextMessage | components/org.wso2.transport.http.netty/src/main/java/org/wso2/transport/http/netty/sender/websocket/WebSocketTargetHandler.java:221-226 | Exactly one text message with the frame's final flag and the handler's sub-protocol and security goes to the listener |
| WebSocketTarget.WebSocketTargetHandler.NotifyBinaryMessage | components/org.wso2.transport.http.netty/src/main/java/org/wso2/transport/http/netty/sender/websocket/WebSocketTargetHandler.java:228-234 | Exactly one binary message, likewise |
| WebSocketTarget.WebSocketTargetHandler.NotifyPingMessage | components/org.wso2.transport.http.netty/src/main/java/org/wso2/transport/http/netty/sender/websocket/WebSocketTargetHandler.java:255-260 | Exactly one PING control message with the frame's payload |
| WebSocketTarget.WebSocketTargetHandler.NotifyPongMessage | components/org.wso2.transport.http.netty/src/main/java/org/wso2/transport/http/netty/sender/websocket/WebSocketTargetHandler.java:262-267 | Exactly one PONG control message with the frame's payload |
| WebSocketTarget.WebSocketTargetHandler.NotifyIdleTimeout | components/org.wso2.transport.http.netty/src/main/java/org/wso2/transport/http/netty/sender/websocket/WebSocketTargetHandler.java:269-274 | Exactly one idle-timeout report through onIdleTimeout |
| WebSocketTarget.WebSocketTargetHandler.NotifyCloseMessage | components/org.wso2.transport.http.netty/src/main/java/org/wso2/transport/http/netty/sender/websocket/WebSocketTargetHandler.java:236-253 | No connection: ServerConnectorException. No pending local close: exactly one close message with the peer's code and reason, and closeFrameReceived becomes true. A pending local close: the peer's code and reason are echoed in a close frame, the latch counts down, and the listener gets nothing |
| WebSocketTarget.WebSocketTargetHandler.ChannelRead | components/org.wso2.transport.http.netty/src/main/java/org/wso2/transport/http/netty/sender/websocket/WebSocketTargetHandler.java:163-219 | Before the handshake completes, the response is recorded and the handshake finished with no listener call: the promise succeeds and a connection is created, or the failed cast, rejected handshake or completed promise throws. After it, each frame kind has exactly one outcome. Text and binary are delivered with their final flag and record the kind when non-final. Continuations are delivered as the recorded kind, which is never reset (NullPointer when none). Ping and pong are delivered. A close marks the connection and goes to NotifyCloseMessage. An unknown frame, a FullHttpResponse or a non-frame throws. The continuation invariant is kept. Reading never marks a close frame as sent, and before the handshake the old connection's close flags are left alone |
| WebSocketTarget.WebSocketTargetHandler.FinishHandshake | components/org.wso2.transport.http.netty/src/main/java/org/wso2/transport/http/netty/sender/websocket/WebSocketTargetHandler.java:167-173 | The first response's status is recorded. A refused response is HandshakeFailed with nothing else changed; an accepted one completes the handshake, and then either the pending promise succeeds with a fresh connection for the requested URI and security and no close flags, or an already completed promise is IllegalState |
| WebSocketTarget.WebSocketTargetHandler.ReadFrame | components/org.wso2.transport.http.netty/src/main/java/org/wso2/transport/http/netty/sender/websocket/WebSocketTargetHandler.java:185-218 | A frame after the handshake is recorded and has exactly one outcome by kind (text, binary, continuation as the recorded kind, ping, pong, close, unknown); only a close frame touches the close flags, a close frame is never marked sent, and the continuation invariant is kept |
| WebSocketTarget.WebSocketTargetHandler.ChannelInactive | components/org.wso2.transport.http.netty/src/main/java/org/wso2/transport/http/netty/sender/websocket/WebSocketTargetHandler.java:141-150 | Exactly one close with 1006 and no reason when a connection exists on which no close frame was received or sent; otherwise nothing |
| WebSocketTarget.WebSocketTargetHandler.UserEventTriggered | components/org.wso2.transport.http.netty/src/main/java/org/wso2/transport/http/netty/sender/websocket/WebSocketTargetHandler.java:153-160 | Only an all-idle event is reported, once, and nothing is closed; every other event is ignored |
| WebSocketTarget.WebSocketTargetHandler.ExceptionCaught | components/org.wso2.transport.http.netty/src/main/java/org/wso2/transport/http/netty/sender/websocket/WebSocketTargetHandler.java:292-300 | A pending handshake promise fails with the cause and a settled one is left alone; then the channel is closed and onError gets the cause |
| WebSocketServerHandshake.Get | components/org.wso2.transport.http.netty/src/main/java/org/wso2/transport/http/netty/listener/WebSocketServerHandshakeHandler.java:118 | `headers.get(name)`: absent exactly when no header name matches ignoring case; otherwise the value of the first match |
| WebSocketServerHandshake.UpgradeTokenLetters | components/org.wso2.transport.http.netty/src/main/java/org/wso2/transport/http/netty/listener/WebSocketServerHandshakeHandler.java:120 | A Connection value is an upgrade token exactly when, trimmed, it spells "upgrade" letter by letter in either case; such a value is at least seven characters long |
| WebSocketServerHandshake.IsConnectionUpgrade | components/org.wso2.transport.http.netty/src/main/java/org/wso2/transport/http/netty/listener/WebSocketServerHandshakeHandler.java:113-125 | isConnectionUpgrade: false without a Connection header; otherwise true exactly when some value `split(",")` yields, trimmed, equals "upgrade" ignoring case |
| WebSocketServerHandshake.AnyUpgradeToken | components/org.wso2.transport.http.netty/src/main/java/org/wso2/transport/http/netty/listener/WebSocketServerHandshakeHandler.java:119-124 | The early-return loop is true exactly when one of the values is an upgrade token |
| WebSocketServerHandshake.ConnectionUpgradeByPieces | components/org.wso2.transport.http.netty/src/main/java/org/wso2/transport/http/netty/listener/WebSocketServerHandshakeHandler.java:113-125 | The answer of isConnectionUpgrade: true exactly when a Connection header is present and one of all its comma-separated pieces is an upgrade token. The trailing empty values `split` drops never matter |
| WebSocketServerHandshake.UpgradeTokenAmongPieces | components/org.wso2.transport.http.netty/src/main/java/org/wso2/transport/http/netty/listener/WebSocketServerHandshakeHandler.java:119-124 | For one Connection value, a token among `split`'s values is the same as a token among all the pieces |
| WebSocketServerHandshake.FoundInPrefix | components/org.wso2.transport.http.netty/src/main/java/org/wso2/transport/http/netty/listener/WebSocketServerHandshakeHandler.java:119-124 | A list of values has an upgrade token exactly when a longer list does whose extra entries are all empty |
| WebSocketServerHandshake.EmptyIsNotUpgradeToken | components/org.wso2.transport.http.netty/src/main/java/org/wso2/transport/http/netty/listener/WebSocketServerHandshakeHandler.java:120 | An empty value is never the upgrade token |
| WebSocketServerHandshake.KeepAliveUpgradeIsUpgrade | components/org.wso2.transport.http.netty/src/main/java/org/wso2/transport/http/netty/listener/WebSocketServerHandshakeHandler.java:113-125 | `Connection: keep-alive, Upgrade` asks for an upgrade |
| WebSocketServerHandshake.UpgradedIsNotUpgrade | components/org.wso2.transport.http.netty/src/main/java/org/wso2/transport/http/netty/listener/WebSocketServerHandshakeHandler.java:113-125 | `Connection: upgraded` does not: tokens are compared whole, not by prefix |
| WebSocketServerHandshake.AddHandshakeStages | components/org.wso2.transport.http.netty/src/main/java/org/wso2/transport/http/netty/listener/WebSocketServerHandshakeHandler.java:74-78 | With a decoder and both names free, the two addAfter calls succeed and put "aggregate" directly after the decoder and "handshake" directly after "aggregate" |
| WebSocketServerHandshake.AggregatorInserted | components/org.wso2.transport.http.netty/src/main/java/org/wso2/transport/http/netty/listener/WebSocketServerHandshakeHandler.java:77 | The first addAfter places "aggregate" right after the decoder, where the second addAfter then finds it |
| WebSocketServerHandshake.UpgradesToWebSocket | components/org.wso2.transport.http.netty/src/main/java/org/wso2/transport/http/netty/listener/WebSocketServerHandshakeHandler.java:68-69 | The Upgrade check: an Upgrade header is present and spells "websocket" letter by letter in either case; an absent header never passes |
| WebSocketServerHandshake.UpgradeRequestCondition | components/org.wso2.transport.http.netty/src/main/java/org/wso2/transport/http/netty/listener/WebSocketServerHandshakeHandler.java:65-69 | The upgrade path is taken exactly for an HTTP request whose method spells "GET" in either case, whose Connection header asks for an upgrade and whose Upgrade header names WebSocket; both headers are then present |
| WebSocketServerHandshake.CheckUpgradeRequest | components/org.wso2.transport.http.netty/src/main/java/org/wso2/transport/http/netty/listener/WebSocketServerHandshakeHandler.java:64-69 | The test at the head of channelRead, computed with the isConnectionUpgrade loop, is true exactly for an upgrade request |
| WebSocketServerHandshake.WebSocketServerHandshakeHandler.constructor | components/org.wso2.transport.http.netty/src/main/java/org/wso2/transport/http/netty/listener/WebSocketServerHandshakeHandler.java:56-59 | The handler keeps its listener interface id; the channel starts with auto-read on and nothing sent |
| WebSocketServerHandshake.WebSocketServerHandshakeHandler.ChannelRead | components/org.wso2.transport.http.netty/src/main/java/org/wso2/transport/http/netty/listener/WebSocketServerHandshakeHandler.java:62-104 | A message that is not a GET with Connection upgrade and `Upgrade: websocket` is forwarded exactly once with nothing else changed. An upgrade request inserts "aggregate" and "handshake" after the decoder, is re-fired from the decoder and not forwarded, and turns auto-read off. With no decoder the request is a NullPointer; a taken name is an IllegalArgument at the insertion that uses it. Unique names stay unique |
| WebSocketServerHandshake.WebSocketServerHandshakeHandler.TakeUpgradePath | components/org.wso2.transport.http.netty/src/main/java/org/wso2/transport/http/netty/listener/WebSocketServerHandshakeHandler.java:74-99 | The upgrade branch: NullPointer when the decoder is missing and IllegalArgument when the aggregator name is taken, both before any change. When only the handshake name is taken, the aggregator stays inserted. Otherwise the aggregator and handshake stage follow the decoder, the request is re-fired from the decoder and auto-read goes off. Unique names stay unique |
| WebSocketServerHandshake.WebSocketServerHandshakeHandler.SetupHttpCarbonRequest | components/org.wso2.transport.http.netty/src/main/java/org/wso2/transport/http/netty/listener/WebSocketServerHandshakeHandler.java:162-195 | The request metadata. HTTP_VERSION is "major.minor", which reads back as the request's version. LISTENER_PORT is present exactly for an Inet local address and is then its port. PROTOCOL is "http". IS_SECURED_CONNECTION holds exactly when an SSL handler is present. REQUEST_URL and TO are both the URI. The method, interface id and addresses are copied |
| WebSocketServerHandshake.WebSocketServerHandshakeHandler.InitMessageFor | components/org.wso2.transport.http.netty/src/main/java/org/wso2/transport/http/netty/listener/WebSocketServerHandshakeHandler.java:133-156 | The init message is secured exactly when an SSL handler is present, with the connection built with that flag and the URI. It is a server message, targets the URI, names the interface id, and carries the request metadata with the same secured flag |
| WebSocketServerHandshake.WebSocketServerHandshakeHandler.HandleWebSocketHandshake | components/org.wso2.transport.http.netty/src/main/java/org/wso2/transport/http/netty/listener/WebSocketServerHandshakeHandler.java:132-160 | Auto-read is turned off, then the WebSocket listener is notified once with the init message |
| WebSocketServerHandshake.WebSocketServerHandshakeHandler.HandshakeStageRead | components/org.wso2.transport.http.netty/src/main/java/org/wso2/transport/http/netty/listener/WebSocketServerHandshakeHandler.java:80-84 | The handshake stage removes itself before handling the request (NoSuchElement with nothing changed if it is gone); afterwards it is no longer in a unique pipeline |
| WebSocketServerHandshake.WebSocketServerHandshakeHandler.HandshakeStageExceptionCaught | components/org.wso2.transport.http.netty/src/main/java/org/wso2/transport/http/netty/listener/WebSocketServerHandshakeHandler.java:87-91 | The stage removes itself, then passes the failure on exactly once |
| WebSocketServerHandshake.WebSocketServerHandshakeHandler.HandshakeStageChannelInactive | components/org.wso2.transport.http.netty/src/main/java/org/wso2/transport/http/netty/listener/WebSocketServerHandshakeHandler.java:94-96 | channelInactive is passed on unchanged |
| WebSocketServerHandshake.HandshakeStageRunsOnce | components/org.wso2.transport.http.netty/src/main/java/org/wso2/transport/http/netty/listener/WebSocketServerHandshakeHandler.java:80-84 | The stage runs at most once per connection: a second request finds it gone, throws, and the listener has been notified only for the first |

## Behaviour as written

The model follows the handlers' code in the places where a reading of the protocols
alone would suggest something else:

- **Keep-alive on the last chunk.** The channel is closed when the connection is not
  kept alive, and it is still returned to the connection manager in both cases
  (`TargetHandler.java` lines 121-125).
- **Continuation type.** `continuationFrameType` is never cleared. A continuation that
  arrives after a final frame is delivered as the kind of the latest non-final frame.
- **No continuation check.** A continuation with no recorded kind is a
  NullPointerException (a `switch` on a null enum), not a protocol error
  (`WebSocketTargetHandler.java` lines 206-215). Mismatched continuations are not
  detected.
- **Close frame without a connection.** A close frame read when no connection exists
  fails on the connection before `notifyCloseMessage` can raise its own
  ServerConnectorException.

## Left out

- `TargetHandler.channelActive` and every `HandlerExecutor` hook: they only call an
  optional external interceptor. Logging is left out as well.
- The other setters and getters of `TargetHandler` are left out. The response future, the
  connection manager, the outbound request's HTTP version and the keep-alive
  configuration are fixed when the model's handler is constructed.
- In `setUpCarbonMessage`, the response is reduced to its status code and decoder
  result. The properties it copies are not modelled: the pooled buffer factory, the
  direction and the worker pool.
- `http2TargetHandler` and its `Http2ClientChannel` are assumed present. Their state
  is kept as the in-flight map, the data listener list and the route registry.
- `remove(this)` is a lookup by handler identity; the model removes the handler by
  its name. The same holds for the handshake stage and for the decoder, which is
  found by its class.
- A Java exception thrown by a handler is returned as `thrown`. What Netty then does
  with it (calling `exceptionCaught`) is left to the caller of the model.
- `TargetHandler.channelRead` receives either a response head or a content chunk. A
  message of any other type, which would fail its cast, is not modelled.
- `HttpTarget.IsKeepAlive`: the HTTP_VERSION property is a string, and the model
  takes it as the "major.minor" rendering of a (major, minor) pair. For every such
  rendering the exact decimal comparison agrees with `Float.valueOf(...) > 1.0`. Strings
  that no pair renders to are not modelled: a minor part with leading zeros ("1.01"), a
  bare number ("2"), a missing property (NullPointerException) and non-numeric text
  (NumberFormatException).
- `TargetChannel` is not part of this model. `SetRequestHeaderWritten` stands for its
  setter; when the sender calls it is left to the caller of the model.
- `HttpTarget.TargetHandler.UserEventTriggered` states only the dispatch and a part of
  each branch. The full outcomes are stated by `IdleTimeout` and
  `UpgradeEventTriggered`, which it calls.
- `WebSocketTarget.WebSocketTargetHandler.ChannelRead` and the notify methods give
  each message only the sub-protocol, the secured flag and the client flag. The
  connection reference, the source handler (`SRC_HANDLER`), the listener port, the
  local address and the local host name that `setupCommonProperties` adds are left out. So is its ClassCastException on a
  local address that is not an `InetSocketAddress`.
- `handshaker.handshake` and `handshaker.finishHandshake` are Netty internals. The
  request they write is not modelled, and the response check becomes the
  `acceptable` flag. A rejected handshake is the `HandshakeFailed` exception.
- The handshake response kept as `httpCarbonResponse` is reduced to its status code.
- `WebSocketTarget.WebSocketTargetHandler.NotifyCloseMessage`: the latch is counted
  down as soon as the echoed close frame is written. In the code this happens later,
  when the write completes on another thread.
- `ctx.close()` in `exceptionCaught` is recorded as an output. The resulting
  `channelInactive` event is a separate call.
- Reference counting (`release`) is left out, along with the byte content of frames
  beyond their payload.
- The `HttpObjectAggregator(8192)` and its size limit are left out: the handshake
  stage receives the aggregated request directly.
- The `WebSocketSourceHandler` that the init message carries is left out, along with
  the SRC_HANDLER, CHNL_HNDLR_CTX and POOLED_BYTE_BUFFER_FACTORY properties and the
  server connector future, which is the listener output.
- `JavaText.ToLower`: case folding covers ASCII only. Java's `equalsIgnoreCase` also
  matches some non-ASCII letters. For example, U+017F (long s) matches 's' and
  U+212A (Kelvin sign) matches 'k', so Java would accept "webſocket" as
  `websocket`. The model does not.
- `Constants.java` is not part of this model, so its constant values come from
  elsewhere:
  - `websocket` and `http` are taken from RFC 6455 and the URI scheme;
  - the header names are Netty's lower-case `HttpHeaderNames`;
  - status 1006 is from section 7.4.1 of RFC 6455 and 504 is Netty's GATEWAY_TIMEOUT;
  - handler-name constants are symbolic names.
- Ports and HTTP version numbers are natural numbers. Netty never produces negative
  values for them.
