/** Shared value types for the three channel handlers. */
module Common {

  datatype Option<T> = None | Some(value: T)

  /**
   * The Java exceptions a handler method lets escape to Netty. Netty catches what a
   * handler throws and hands it to that handler's exceptionCaught; the model returns
   * it instead, and the steps after the throwing call do not happen.
   */
  datatype Thrown =
    | NullPointer          // a call on a null reference (a missing future, a missing in-flight holder)
    | NoSuchElement        // ChannelPipeline.remove or addAfter naming a handler that is not there
    | IllegalArgument      // a handler name that is already taken in the pipeline
    | ClassCast            // a message of another type than the handler casts it to
    | IllegalState         // an unexpected message, or a promise completed twice
    | HandshakeFailed      // WebSocketClientHandshaker.finishHandshake refusing the response
    | UnknownFrameType     // UnknownWebSocketFrameTypeException
    | ServerConnector      // ServerConnectorException

  datatype Result<T> = Ok(value: T) | Err(error: Thrown)

  /** An HTTP protocol version; its HTTP_VERSION property is the string "major.minor". */
  datatype HttpVersion = HttpVersion(major: nat, minor: nat)
}
