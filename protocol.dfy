// The messages client and server exchange. Scalar fields absent from a
// message read as their default ("" or 0), as in protocol buffers; the one
// optional message field, DataException, is an Option.
module Protocol {
  import opened Wrappers
  import DataFields
  import DataParameters
  import Properties

  /// A server-side exception as the wire carries it.
  datatype DataException = DataException(className: string, message: string, properties: seq<Properties.InnerProperty>)

  datatype OpenConnectionRequest = OpenConnectionRequest(clientIdentifier: string, providerInvariantName: string, connectionString: string)
  datatype OpenConnectionResponse = OpenConnectionResponse(clientIdentifier: string, connectionIdentifier: string, dataException: Option<DataException>)

  datatype CloseConnectionRequest = CloseConnectionRequest(connectionIdentifier: string)

  datatype CreateCommandRequest = CreateCommandRequest(connectionIdentifier: string)
  datatype CreateCommandResponse = CreateCommandResponse(commandIdentifier: string)

  datatype DestroyCommandRequest = DestroyCommandRequest(connectionIdentifier: string, commandIdentifier: string)

  datatype BeginTransactionRequest = BeginTransactionRequest(connectionIdentifier: string, isolationLevel: int, clientIdentifier: string)
  datatype BeginTransactionResponse = BeginTransactionResponse(transactionIdentifier: string)

  /// Commit and rollback requests have the same two fields.
  datatype TransactionRequest = TransactionRequest(connectionIdentifier: string, transactionIdentifier: string)
  /// Commit and rollback responses carry at most a fault.
  datatype TransactionResponse = TransactionResponse(dataException: Option<DataException>)

  datatype ExecuteQueryRequest = ExecuteQueryRequest(
    query: string, connectionIdentifier: string, transactionIdentifier: string, commandIdentifier: string,
    parameters: seq<DataParameters.InnerParameter>)

  /// One streamed message: a row, or a fault.
  datatype ExecuteQueryResponse = ExecuteQueryResponse(fields: seq<DataFields.InnerField>, dataException: Option<DataException>)
  /// The buffered result: every row, or a fault.
  datatype ExecuteQuerySyncResponse = ExecuteQuerySyncResponse(rows: seq<seq<DataFields.InnerField>>, dataException: Option<DataException>)
  datatype ExecuteNonQueryResponse = ExecuteNonQueryResponse(rowsAffected: int, dataException: Option<DataException>)

  const EmptyTransactionResponse := TransactionResponse(None)
}
