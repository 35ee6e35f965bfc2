// What the client-side operations throw, as values: a method that throws
// returns Err(failure).
module ClientFailures {
  import opened Codec

  datatype Failure =
    /// ArgumentOutOfRangeException, as a List indexer throws it.
    | ArgumentOutOfRange
    /// ArgumentException, as Buffer.BlockCopy throws it for a range that
    /// runs past the end of an array.
    | Argument
    | IndexOutOfRange
    | InvalidCast
    | NullReference
    | InvalidOperation(message: string)
    /// What reading the stream of a gRPC call that was already disposed
    /// raises: the call is cancelled, so no further message arrives.
    | CallDisposed
    /// A remote fault rethrown on the client: its class name, its message
    /// and its properties in order.
    | Remote(className: string, message: string, properties: seq<(string, Value)>)

  /// The exception type both clients throw for their own guards:
  /// RemoteDataException with a message and no properties.
  function LocalFault(message: string): Failure
  {
    Remote("", message, [])
  }
}
