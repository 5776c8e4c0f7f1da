/** Optional values, the failure conditions the transport layer raises, and
    the result types that carry them instead of PHP exceptions. */
module Outcomes {

  datatype Option<+T> = None | Some(value: T) {
    function GetOr(default: T): T {
      match this
      case Some(v) => v
      case None => default
    }
  }

  /** The exceptions of the event bus, as error values.
      - EncodingFailed:   MessageEncodingFailedException
      - DecodingFailed:   MessageDecodingFailedException
      - TransportFailed:  TransportException wrapping an AMQPException
      - MissingMarker:    LogicException('Missing marker')
      - MetadataRejected: metadata the Metadata constructor (not part of this
                          model) is handed but cannot take as strings. In
                          structured mode: a required attribute absent or not
                          a string, an optional one neither null nor a string,
                          or an RFC 3339 time that is not a string. In binary
                          mode: a header present but not a string. What the
                          constructor then does is not claimed.
      - TypeError:        a PHP TypeError the code does not catch */
  datatype Error =
    | EncodingFailed
    | DecodingFailed
    | TransportFailed
    | MissingMarker
    | MetadataRejected
    | TypeError

  datatype Result<+T> = Ok(value: T) | Err(error: Error)

  /** Result of an operation that returns nothing (`void` in PHP). */
  datatype Status = Done | Failed(error: Error)
}
