/**
 * The server side's WebSocket upgrade detection (WebSocketServerHandshakeHandler).
 * A GET request asking for a connection upgrade to "websocket" makes the handler
 * insert an aggregator and a one-shot handshake stage after the request decoder and
 * re-fire the request from the decoder; every other message passes through. The
 * handshake stage removes itself, builds the init message and hands it to the
 * WebSocket listener.
 */
module WebSocketServerHandshake {
  import opened Common
  import opened ChannelPipeline
  import opened JavaText

  /** A header as (name, value). */
  type Header = (string, string)

  /** HttpHeaderNames.CONNECTION and HttpHeaderNames.UPGRADE. */
  const CONNECTION: string := "connection"
  const UPGRADE: string := "upgrade"
  /** The Upgrade header value asking for WebSocket (section 4.1 of RFC 6455). */
  const WEBSOCKET_UPGRADE: string := "websocket"
  /** The PROTOCOL property of the upgrade request. */
  const HTTP_SCHEME: string := "http"

  /** The two handlers the upgrade path inserts, under the names it gives them. */
  const AggregatorName: Name := Named("aggregate")
  const HandshakeName: Name := Named("handshake")

  datatype HttpRequest = HttpRequest(httpMethod: string, uri: string, version: HttpVersion, headers: seq<Header>)

  /** What channelRead receives: an HTTP request, or anything else. */
  datatype Message = Request(request: HttpRequest) | OtherMessage(id: nat)

  /** A channel address: an InetSocketAddress, or another kind (an embedded channel's). */
  datatype Address = InetAddress(host: string, port: nat) | OtherAddress(description: string)

  /** The HttpCarbonRequest that goes with the init message, reduced to its properties. */
  datatype CarbonRequest = CarbonRequest(
    request: HttpRequest,
    httpVersion: string,
    httpMethod: string,
    listenerPort: Option<nat>,
    listenerInterfaceId: string,
    protocol: string,
    isSecuredConnection: bool,
    localAddress: Address,
    remoteAddress: Address,
    requestUrl: string,
    to: string)

  /** The DefaultWebSocketConnection handed out with the init message. */
  datatype ConnectionInfo = ConnectionInfo(secured: bool, target: string)

  /** The DefaultWebSocketInitMessage given to the WebSocket listener. */
  datatype InitMessage = InitMessage(
    connection: ConnectionInfo,
    isServerMessage: bool,
    target: string,
    listenerInterface: string,
    isConnectionSecured: bool,
    httpCarbonRequest: CarbonRequest)

  /** What leaves the handlers, in order. */
  datatype Output =
    | Forwarded(msg: Message)           // ctx.fireChannelRead
    | RefiredFromDecoder(msg: Message)  // decoderCtx.fireChannelRead: the aggregator receives it next
    | AutoReadDisabled                  // channel.config().setAutoRead(false)
    | ExceptionForwarded(cause: string) // ctx.fireExceptionCaught
    | InactiveForwarded                 // ctx.fireChannelInactive
    | WsListenerNotified(init: InitMessage)

  // ---------------------------------------------------------------------------
  // Headers
  // ---------------------------------------------------------------------------

  /** HttpHeaders.get: the value of the first header whose name matches, ignoring case. */
  function Get(headers: seq<Header>, name: string): (r: Option<string>)
    ensures r.None? <==> forall i :: 0 <= i < |headers| ==> !EqualsIgnoreCase(headers[i].0, name)
    ensures r.Some? ==>
      exists i :: 0 <= i < |headers| && EqualsIgnoreCase(headers[i].0, name) && r.value == headers[i].1
                  && forall j :: 0 <= j < i ==> !EqualsIgnoreCase(headers[j].0, name)
  {
    if headers == [] then None
    else if EqualsIgnoreCase(headers[0].0, name) then Some(headers[0].1)
    else
      var r := Get(headers[1..], name);
      if r.Some? then
        var i :| 0 <= i < |headers[1..]| && EqualsIgnoreCase(headers[1..][i].0, name)
                 && r.value == headers[1..][i].1 && forall j :: 0 <= j < i ==> !EqualsIgnoreCase(headers[1..][j].0, name);
        assert forall j :: 0 <= j < i + 1 ==> !EqualsIgnoreCase(headers[j].0, name) by {
          forall j | 0 <= j < i + 1 ensures !EqualsIgnoreCase(headers[j].0, name) {
            if j > 0 {
              assert headers[j] == headers[1..][j - 1];
            }
          }
        }
        assert EqualsIgnoreCase(headers[i + 1].0, name) && r.value == headers[i + 1].1;
        r
      else
        assert forall i :: 1 <= i < |headers| ==> headers[i] == headers[1..][i - 1];
        r
  }

  // ---------------------------------------------------------------------------
  // Upgrade detection
  // ---------------------------------------------------------------------------

  /** A Connection value, once trimmed, is "upgrade" ignoring case. */
  predicate IsUpgradeToken(t: string) {
    EqualsIgnoreCase(UPGRADE, Trim(t))
  }

  /**
   * A Connection value is an upgrade token exactly when, with its surrounding blanks
   * cut, it spells "upgrade" letter by letter in either case.
   */
  lemma UpgradeTokenLetters(t: string)
    ensures IsUpgradeToken(t) <==> SameLetters(UPGRADE, Trim(t))
    ensures IsUpgradeToken(t) ==> |UPGRADE| <= |t|
  {
    EqualsIgnoreCaseLetters(UPGRADE, Trim(t));
  }

  /** Some value of the list, trimmed, is "upgrade" ignoring case. */
  predicate HasUpgradeToken(values: seq<string>) {
    exists i :: 0 <= i < |values| && IsUpgradeToken(values[i])
  }

  /** The answer isConnectionUpgrade computes: some value String.split yields is an upgrade token. */
  predicate ConnectionUpgrade(headers: seq<Header>) {
    match Get(headers, CONNECTION)
    case None => false
    case Some(v) => HasUpgradeToken(JavaSplit(v, ','))
  }

  /**
   * isConnectionUpgrade: false without a Connection header; otherwise whether some
   * comma-separated value, trimmed, is "upgrade" ignoring case.
   */
  method IsConnectionUpgrade(headers: seq<Header>) returns (r: bool)
    ensures r <==> ConnectionUpgrade(headers)
    ensures Get(headers, CONNECTION).None? ==> !r
  {
    var connection := Get(headers, CONNECTION);
    if connection.None? {
      return false;
    }
    ConnectionUpgradeOfValue(headers, connection.value);
    r := AnyUpgradeToken(JavaSplit(connection.value, ','));
  }

  /** The for loop of isConnectionUpgrade: it stops at the first upgrade token. */
  method AnyUpgradeToken(values: seq<string>) returns (r: bool)
    ensures r <==> HasUpgradeToken(values)
  {
    for i := 0 to |values|
      invariant forall k :: 0 <= k < i ==> !IsUpgradeToken(values[k])
    {
      if IsUpgradeToken(values[i]) {
        return true;
      }
    }
    return false;
  }

  /**
   * The trailing empty values String.split drops do not matter: the header asks for
   * an upgrade exactly when one of all its comma-separated pieces, trimmed, is
   * "upgrade" ignoring case.
   */
  lemma ConnectionUpgradeByPieces(headers: seq<Header>)
    ensures ConnectionUpgrade(headers) <==>
      Get(headers, CONNECTION).Some? &&
      HasUpgradeToken(Split(Get(headers, CONNECTION).value, ','))
  {
    if Get(headers, CONNECTION).Some? {
      UpgradeTokenAmongPieces(Get(headers, CONNECTION).value);
    }
  }

  /** Some value String.split yields is an upgrade token iff some piece of the value is. */
  lemma UpgradeTokenAmongPieces(v: string)
    ensures HasUpgradeToken(JavaSplit(v, ',')) <==> HasUpgradeToken(Split(v, ','))
  {
    EmptyIsNotUpgradeToken();
    FoundInPrefix(JavaSplit(v, ','), Split(v, ','));
  }

  /**
   * A list has an upgrade token exactly when a longer list does whose further
   * entries are all empty.
   */
  lemma FoundInPrefix(values: seq<string>, pieces: seq<string>)
    requires |values| <= |pieces| && values == pieces[..|values|]
    requires forall k :: |values| <= k < |pieces| ==> pieces[k] == ""
    requires !IsUpgradeToken("")
    ensures HasUpgradeToken(values) <==> HasUpgradeToken(pieces)
  {
    if HasUpgradeToken(pieces) {
      var i :| 0 <= i < |pieces| && IsUpgradeToken(pieces[i]);
      if i >= |values| {
        assert false;
      }
      assert values[i] == pieces[i];
    }
    if HasUpgradeToken(values) {
      var i :| 0 <= i < |values| && IsUpgradeToken(values[i]);
      assert pieces[i] == values[i];
    }
  }


  /** An empty piece, as String.split drops at the end, is never an upgrade token. */
  lemma EmptyIsNotUpgradeToken()
    ensures !IsUpgradeToken("")
  {
    assert Trim("") == "";
  }

  /** A header listing several options, one of them "Upgrade", asks for an upgrade. */
  lemma KeepAliveUpgradeIsUpgrade()
    ensures ConnectionUpgrade([("Connection", "keep-alive, Upgrade")])
  {
    ConnectionHeaderFound("keep-alive, Upgrade");
    KeepAliveUpgradeValues();
    ConnectionUpgradeOfValue([("Connection", "keep-alive, Upgrade")], "keep-alive, Upgrade");
    SpacedUpgradeIsToken();
    var values := JavaSplit("keep-alive, Upgrade", ',');
    assert IsUpgradeToken(values[1]);
  }

  /** Trimming takes the blank after the comma off " Upgrade". */
  lemma SpacedUpgradeIsToken()
    ensures IsUpgradeToken(" Upgrade")
  {
    TrimSpacedUpgrade();
    CapitalizedUpgrade();
  }

  lemma CapitalizedUpgrade()
    ensures EqualsIgnoreCase(UPGRADE, "Upgrade")
  {
    assert ToLower('U') == 'u';
  }

  lemma TrimSpacedUpgrade()
    ensures Trim(" Upgrade") == "Upgrade"
  {
    assert LeadingBlanks(" Upgrade") == 1;
    assert TrailingBlanks("Upgrade") == 0;
  }

  /** What ConnectionUpgrade asks of a given Connection value. */
  lemma ConnectionUpgradeOfValue(headers: seq<Header>, v: string)
    requires Get(headers, CONNECTION) == Some(v)
    ensures ConnectionUpgrade(headers) <==> HasUpgradeToken(JavaSplit(v, ','))
  {
  }

  /** A header named "Connection" is the Connection header. */
  lemma ConnectionHeaderFound(v: string)
    ensures Get([("Connection", v)], CONNECTION) == Some(v)
  {
    assert EqualsIgnoreCase("Connection", CONNECTION);
  }

  /** How String.split cuts "keep-alive, Upgrade". */
  lemma KeepAliveUpgradeValues()
    ensures JavaSplit("keep-alive, Upgrade", ',') == ["keep-alive", " Upgrade"]
  {
    var pieces := ["keep-alive", " Upgrade"];
    assert Join(pieces, ',') == "keep-alive, Upgrade";
    SplitJoin(pieces, ',');
    assert "keep-alive, Upgrade"[10] == ',';
  }

  /** A value that merely starts with "upgrade" is not an upgrade token. */
  lemma UpgradedIsNotUpgrade()
    ensures !ConnectionUpgrade([("Connection", "upgraded")])
  {
    ConnectionHeaderFound("upgraded");
    ConnectionUpgradeOfValue([("Connection", "upgraded")], "upgraded");
    UpgradedValueHasNoToken();
  }

  lemma UpgradedValueHasNoToken()
    ensures !HasUpgradeToken(JavaSplit("upgraded", ','))
  {
    assert JavaSplit("upgraded", ',') == ["upgraded"];
    UpgradedIsNotUpgradeToken();
  }

  lemma UpgradedIsNotUpgradeToken()
    ensures !IsUpgradeToken("upgraded")
  {
    assert LeadingBlanks("upgraded") == 0;
    assert TrailingBlanks("upgraded") == 0;
  }

  /** The Upgrade header spells "websocket" in either case; an absent header does not. */
  function UpgradesToWebSocket(headers: seq<Header>): (r: bool)
    ensures r <==> Get(headers, UPGRADE).Some? && SameLetters(WEBSOCKET_UPGRADE, Get(headers, UPGRADE).value)
  {
    match Get(headers, UPGRADE)
    case None => false
    case Some(v) =>
      EqualsIgnoreCaseLetters(WEBSOCKET_UPGRADE, v);
      EqualsIgnoreCase(WEBSOCKET_UPGRADE, v)
  }

  /** The condition for taking the upgrade path in channelRead. */
  predicate IsUpgradeRequest(msg: Message) {
    && msg.Request?
    && EqualsIgnoreCase(msg.request.httpMethod, "GET")
    && ConnectionUpgrade(msg.request.headers)
    && UpgradesToWebSocket(msg.request.headers)
  }

  /**
   * The upgrade path is taken for a GET request, in either case, with both a
   * Connection header asking for an upgrade and an Upgrade header naming WebSocket.
   */
  lemma UpgradeRequestCondition(msg: Message)
    ensures IsUpgradeRequest(msg) <==>
      msg.Request? && SameLetters(msg.request.httpMethod, "GET")
      && ConnectionUpgrade(msg.request.headers) && UpgradesToWebSocket(msg.request.headers)
    ensures IsUpgradeRequest(msg) ==>
      Get(msg.request.headers, CONNECTION).Some? && Get(msg.request.headers, UPGRADE).Some?
  {
    if msg.Request? {
      EqualsIgnoreCaseLetters(msg.request.httpMethod, "GET");
    }
  }

  /** The test at the head of channelRead, with isConnectionUpgrade's loop. */
  method CheckUpgradeRequest(msg: Message) returns (r: bool)
    ensures r <==> IsUpgradeRequest(msg)
  {
    r := false;
    if msg.Request? {
      var headers := msg.request.headers;
      var connectionUpgrade := IsConnectionUpgrade(headers);
      r := EqualsIgnoreCase(msg.request.httpMethod, "GET") && connectionUpgrade && UpgradesToWebSocket(headers);
    }
  }

  /** The pipeline with the aggregator and then the handshake stage right after the decoder. */
  function WithHandshakeStages(p: seq<Name>): seq<Name>
    requires DecoderName in p
  {
    var i := IndexOf(p, DecoderName).value;
    p[..i + 1] + [AggregatorName, HandshakeName] + p[i + 1..]
  }

  /** The two addAfter calls of the upgrade path, when both succeed, give WithHandshakeStages. */
  lemma AddHandshakeStages(p: seq<Name>)
    requires DecoderName in p && AggregatorName !in p && HandshakeName !in p
    ensures AddAfter(p, DecoderName, AggregatorName).Ok?
    ensures AddAfter(AddAfter(p, DecoderName, AggregatorName).value, AggregatorName, HandshakeName)
            == Ok(WithHandshakeStages(p))
  {
    var i := IndexOf(p, DecoderName).value;
    var before, after := p[..i + 1], p[i + 1..];
    AggregatorInserted(p);
    var q := before + [AggregatorName] + after;
    HandshakeNotInserted(p, i);
    assert AddAfter(q, AggregatorName, HandshakeName).Ok?;
    InsertedAfter(q, AggregatorName, HandshakeName, i + 1);
    SpliceAfterAggregator(before, after);
  }

  lemma HandshakeNotInserted(p: seq<Name>, i: nat)
    requires i < |p| && HandshakeName !in p
    ensures HandshakeName !in p[..i + 1] + [AggregatorName] + p[i + 1..]
  {
    assert p == p[..i + 1] + p[i + 1..];
  }

  lemma SpliceAfterAggregator(before: seq<Name>, after: seq<Name>)
    ensures var q := before + [AggregatorName] + after;
      q[..|before| + 1] + [HandshakeName] + q[|before| + 1..] == before + [AggregatorName, HandshakeName] + after
  {
    var q := before + [AggregatorName] + after;
    assert q[..|before| + 1] == before + [AggregatorName];
    assert q[|before| + 1..] == after;
  }

  /** The first addAfter puts the aggregator right after the decoder, where it is found. */
  lemma AggregatorInserted(p: seq<Name>)
    requires DecoderName in p && AggregatorName !in p
    ensures var i := IndexOf(p, DecoderName).value;
      var q := AddAfter(p, DecoderName, AggregatorName).value;
      q == p[..i + 1] + [AggregatorName] + p[i + 1..] && IndexOf(q, AggregatorName) == Some(i + 1)
  {
    var i := IndexOf(p, DecoderName).value;
    InsertedAfter(p, DecoderName, AggregatorName, i);
    var q := AddAfter(p, DecoderName, AggregatorName).value;
    assert q[..i + 1] == p[..i + 1];
    assert AggregatorName !in q[..i + 1] by {
      assert p[..i + 1] <= p;
    }
    FirstOccurrence(q, AggregatorName, i + 1);
  }

  /** An occurrence with none before it is where IndexOf finds the name. */
  lemma FirstOccurrence(p: seq<Name>, n: Name, k: nat)
    requires k < |p| && p[k] == n && n !in p[..k]
    ensures IndexOf(p, n) == Some(k)
  {
  }

  /** A successful addAfter, written as a concatenation. */
  lemma InsertedAfter(p: seq<Name>, base: Name, n: Name, i: nat)
    requires AddAfter(p, base, n).Ok? && IndexOf(p, base) == Some(i)
    ensures AddAfter(p, base, n).value == p[..i + 1] + [n] + p[i + 1..]
  {
    var q := AddAfter(p, base, n).value;
    assert q == q[..i + 1] + [q[i + 1]] + q[i + 2..];
  }

  // ---------------------------------------------------------------------------
  // The handler
  // ---------------------------------------------------------------------------

  class WebSocketServerHandshakeHandler {
    const interfaceId: string
    /** The channel's local and remote addresses. */
    const localAddress: Address
    const remoteAddress: Address
    var pipeline: seq<Name>
    /** The channel's auto-read setting. */
    var autoRead: bool
    var out: seq<Output>

    constructor (interfaceId: string, pipeline: seq<Name>, localAddress: Address, remoteAddress: Address)
      ensures this.interfaceId == interfaceId && this.pipeline == pipeline
      ensures this.localAddress == localAddress && this.remoteAddress == remoteAddress
      ensures autoRead && out == []
    {
      this.interfaceId := interfaceId;
      this.pipeline := pipeline;
      this.localAddress := localAddress;
      this.remoteAddress := remoteAddress;
      autoRead := true;
      out := [];
    }

    /**
     * channelRead: an upgrade request inserts "aggregate" after the decoder and
     * "handshake" after it, is re-fired from the decoder and turns auto-read off;
     * any other message is forwarded unchanged. Without a decoder the upgrade path
     * fails on the missing context, and a taken name fails the insertion that uses it.
     */
    method ChannelRead(msg: Message) returns (thrown: Option<Thrown>)
      modifies this`pipeline, this`autoRead, this`out
      ensures !IsUpgradeRequest(msg) ==>
        thrown.None? && out == old(out) + [Forwarded(msg)] && pipeline == old(pipeline) && autoRead == old(autoRead)
      ensures IsUpgradeRequest(msg) && (DecoderName !in old(pipeline) || AggregatorName in old(pipeline)) ==>
        && thrown == Some(if DecoderName !in old(pipeline) then NullPointer else IllegalArgument)
        && out == old(out) && pipeline == old(pipeline) && autoRead == old(autoRead)
      ensures IsUpgradeRequest(msg) && DecoderName in old(pipeline) && AggregatorName !in old(pipeline)
              && HandshakeName in old(pipeline) ==>
        && thrown == Some(IllegalArgument) && out == old(out) && autoRead == old(autoRead)
        && pipeline == AddAfter(old(pipeline), DecoderName, AggregatorName).value
      ensures IsUpgradeRequest(msg) && DecoderName in old(pipeline) && AggregatorName !in old(pipeline)
              && HandshakeName !in old(pipeline) ==>
        && thrown.None? && pipeline == WithHandshakeStages(old(pipeline))
        && out == old(out) + [RefiredFromDecoder(msg), AutoReadDisabled] && !autoRead
      ensures Unique(old(pipeline)) ==> Unique(pipeline)
    {
      var upgrade := CheckUpgradeRequest(msg);
      if !upgrade {
        thrown := None;
        out := out + [Forwarded(msg)];
      } else {
        thrown := TakeUpgradePath(msg);
      }
    }

    /**
     * The upgrade branch of channelRead: the decoder's context must be there (a
     * NullPointerException otherwise), then each addAfter may refuse a taken name.
     */
    method TakeUpgradePath(msg: Message) returns (thrown: Option<Thrown>)
      modifies this`pipeline, this`autoRead, this`out
      ensures DecoderName !in old(pipeline) || AggregatorName in old(pipeline) ==>
        && thrown == Some(if DecoderName !in old(pipeline) then NullPointer else IllegalArgument)
        && out == old(out) && pipeline == old(pipeline) && autoRead == old(autoRead)
      ensures DecoderName in old(pipeline) && AggregatorName !in old(pipeline) && HandshakeName in old(pipeline) ==>
        && thrown == Some(IllegalArgument) && out == old(out) && autoRead == old(autoRead)
        && pipeline == AddAfter(old(pipeline), DecoderName, AggregatorName).value
      ensures DecoderName in old(pipeline) && AggregatorName !in old(pipeline) && HandshakeName !in old(pipeline) ==>
        && thrown.None? && pipeline == WithHandshakeStages(old(pipeline))
        && out == old(out) + [RefiredFromDecoder(msg), AutoReadDisabled] && !autoRead
      ensures Unique(old(pipeline)) ==> Unique(pipeline)
    {
      thrown := None;
      if DecoderName !in pipeline {
        thrown := Some(NullPointer);
        return;
      }
      ghost var p0 := pipeline;
      var withAggregator := AddAfter(pipeline, DecoderName, AggregatorName);
      if withAggregator.Err? {
        thrown := Some(withAggregator.error);
        return;
      }
      pipeline := withAggregator.value;
      var withHandshake := AddAfter(pipeline, AggregatorName, HandshakeName);
      if withHandshake.Err? {
        thrown := Some(withHandshake.error);
        return;
      }
      AddHandshakeStages(p0);
      pipeline := withHandshake.value;
      out := out + [RefiredFromDecoder(msg), AutoReadDisabled];
      autoRead := false;
    }

    /**
     * setupHttpCarbonRequest: the request's properties. HTTP_VERSION reads back as
     * the request's version; LISTENER_PORT is present exactly for an Inet local
     * address; the connection counts as secured exactly when an SSL handler is in
     * the pipeline.
     */
    function SetupHttpCarbonRequest(request: HttpRequest): (r: CarbonRequest)
      reads this
      ensures ParseVersion(r.httpVersion) == Some(request.version)
      ensures r.listenerPort.Some? <==> localAddress.InetAddress?
      ensures localAddress.InetAddress? ==> r.listenerPort.value == localAddress.port
      ensures r.isSecuredConnection <==> SslName in pipeline
      ensures r.protocol == HTTP_SCHEME && r.httpMethod == request.httpMethod
      ensures r.requestUrl == request.uri && r.to == request.uri
      ensures r.request == request && r.listenerInterfaceId == interfaceId
      ensures r.localAddress == localAddress && r.remoteAddress == remoteAddress
    {
      CarbonRequest(
        request,
        VersionToString(request.version),
        request.httpMethod,
        if localAddress.InetAddress? then Some(localAddress.port) else None,
        interfaceId,
        HTTP_SCHEME,
        SslName in pipeline,
        localAddress,
        remoteAddress,
        request.uri,
        request.uri)
    }

    /** The init message handleWebSocketHandshake builds for the aggregated request. */
    function InitMessageFor(request: HttpRequest): (m: InitMessage)
      reads this
      ensures m.isConnectionSecured <==> SslName in pipeline
      ensures m.connection == ConnectionInfo(m.isConnectionSecured, request.uri)
      ensures m.isServerMessage && m.target == request.uri && m.listenerInterface == interfaceId
      ensures m.httpCarbonRequest == SetupHttpCarbonRequest(request)
      ensures m.httpCarbonRequest.isSecuredConnection == m.isConnectionSecured
    {
      var secured := SslName in pipeline;
      InitMessage(ConnectionInfo(secured, request.uri), true, request.uri, interfaceId, secured,
                  SetupHttpCarbonRequest(request))
    }

    /** handleWebSocketHandshake: auto-read goes off, then the listener gets the init message once. */
    method HandleWebSocketHandshake(request: HttpRequest)
      modifies this`autoRead, this`out
      ensures !autoRead
      ensures out == old(out) + [AutoReadDisabled, WsListenerNotified(InitMessageFor(request))]
    {
      var initMessage := InitMessageFor(request);
      autoRead := false;
      out := out + [AutoReadDisabled, WsListenerNotified(initMessage)];
    }

    /** The handshake stage's channelRead0: it removes itself, then hands the request over. */
    method HandshakeStageRead(request: HttpRequest) returns (thrown: Option<Thrown>)
      modifies this`pipeline, this`autoRead, this`out
      ensures HandshakeName !in old(pipeline) ==>
        thrown == Some(NoSuchElement) && pipeline == old(pipeline) && autoRead == old(autoRead) && out == old(out)
      ensures HandshakeName in old(pipeline) ==>
        && thrown.None? && pipeline == Remove(old(pipeline), HandshakeName).value && !autoRead
        && out == old(out) + [AutoReadDisabled, WsListenerNotified(InitMessageFor(request))]
      ensures Unique(old(pipeline)) ==> Unique(pipeline) && HandshakeName !in pipeline
    {
      thrown := None;
      var removed := Remove(pipeline, HandshakeName);
      if removed.Err? {
        thrown := Some(removed.error);
        return;
      }
      pipeline := removed.value;
      HandleWebSocketHandshake(request);
    }

    /** The handshake stage's exceptionCaught: it removes itself and passes the failure on. */
    method HandshakeStageExceptionCaught(cause: string) returns (thrown: Option<Thrown>)
      modifies this`pipeline, this`out
      ensures HandshakeName !in old(pipeline) ==>
        thrown == Some(NoSuchElement) && pipeline == old(pipeline) && out == old(out)
      ensures HandshakeName in old(pipeline) ==>
        && thrown.None? && pipeline == Remove(old(pipeline), HandshakeName).value
        && out == old(out) + [ExceptionForwarded(cause)]
      ensures Unique(old(pipeline)) ==> Unique(pipeline) && HandshakeName !in pipeline
    {
      thrown := None;
      var removed := Remove(pipeline, HandshakeName);
      if removed.Err? {
        thrown := Some(removed.error);
        return;
      }
      pipeline := removed.value;
      out := out + [ExceptionForwarded(cause)];
    }

    /** The handshake stage's channelInactive: passed on unchanged. */
    method HandshakeStageChannelInactive()
      modifies this`out
      ensures out == old(out) + [InactiveForwarded]
    {
      out := out + [InactiveForwarded];
    }
  }

  /**
   * The handshake stage runs once: after it has handed over one request, a second
   * one finds the stage gone and the listener is not notified again.
   */
  method HandshakeStageRunsOnce(h: WebSocketServerHandshakeHandler, first: HttpRequest, second: HttpRequest)
    returns (thrownFirst: Option<Thrown>, thrownSecond: Option<Thrown>)
    requires Unique(h.pipeline) && HandshakeName in h.pipeline
    modifies h
    ensures thrownFirst.None? && thrownSecond == Some(NoSuchElement)
    ensures HandshakeName !in h.pipeline && !h.autoRead
    ensures h.out == old(h.out) + [AutoReadDisabled, WsListenerNotified(h.InitMessageFor(first))]
  {
    thrownFirst := h.HandshakeStageRead(first);
    thrownSecond := h.HandshakeStageRead(second);
  }
}
