// The gateway as the clients see it through a channel: each remote call is
// a total function from the request to the reply. The server's own model is
// DatabaseServices; here it is an oracle, so that the clients' guards,
// request building and reply handling can be stated on their own.
module RemoteEndpoints {
  import Protocol

  datatype Endpoint = Endpoint(
    openConnection: Protocol.OpenConnectionRequest -> Protocol.OpenConnectionResponse,
    createCommand: Protocol.CreateCommandRequest -> Protocol.CreateCommandResponse,
    beginTransaction: Protocol.BeginTransactionRequest -> Protocol.BeginTransactionResponse,
    commitTransaction: Protocol.TransactionRequest -> Protocol.TransactionResponse,
    rollbackTransaction: Protocol.TransactionRequest -> Protocol.TransactionResponse,
    executeQuery: Protocol.ExecuteQueryRequest -> seq<Protocol.ExecuteQueryResponse>,
    executeQuerySync: Protocol.ExecuteQueryRequest -> Protocol.ExecuteQuerySyncResponse,
    executeNonQuery: Protocol.ExecuteQueryRequest -> Protocol.ExecuteNonQueryResponse)
}
