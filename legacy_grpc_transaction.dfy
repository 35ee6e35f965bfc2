// The older client's transaction: created by BeginTransaction with the
// server's transaction id, then committed or rolled back by one remote call
// each. Neither call changes the transaction, so calling again sends the
// same request again.
module LegacyGrpcTransactions {
  import opened Wrappers
  import opened Codec
  import opened ClientFailures
  import Protocol
  import RemoteEndpoints
  import RemoteDataExceptions
  import GrpcDataExceptions
  import IsolationLevelConverter
  import ChannelManagers

  const NoChannel := InvalidOperation("There's no gRPC channel.")

  /// ToIsolationLevel: the six named System.Data levels map to their wire
  /// namesakes, every other value to Snapshot; it agrees with the shared
  /// converter on every input.
  function ToIsolationLevel(isolationLevel: int): (wire: int)
    ensures wire == IsolationLevelConverter.ToWire(isolationLevel)
    ensures 0 <= wire <= 6
  {
    if isolationLevel == -1 then 0
    else if isolationLevel == 0x10 then 1
    else if isolationLevel == 0x100 then 2
    else if isolationLevel == 0x1000 then 3
    else if isolationLevel == 0x10000 then 4
    else if isolationLevel == 0x100000 then 5
    else 6
  }

  /// What Commit and Rollback do with a reply: throw its fault, if any.
  function Settled(c: Serializer, reply: Protocol.TransactionResponse): (r: Result<(), Failure>)
    ensures r.Ok? <==> reply.dataException.None?
    ensures r.Err? ==> r.error == RemoteDataExceptions.Raised(c, reply.dataException.value)
  {
    if reply.dataException.Some? then Err(RemoteDataExceptions.Raised(c, reply.dataException.value)) else Ok(())
  }

  class GrpcTransaction {
    const channel: ChannelManagers.Channel?
    const connectionIdentifier: string
    const isolationLevel: int
    var transactionIdentifier: string

    constructor(channel: ChannelManagers.Channel?, connectionIdentifier: string, isolationLevel: int)
      ensures this.channel == channel && this.connectionIdentifier == connectionIdentifier
      ensures this.isolationLevel == isolationLevel && transactionIdentifier == ""
    {
      this.channel := channel;
      this.connectionIdentifier := connectionIdentifier;
      this.isolationLevel := isolationLevel;
      transactionIdentifier := "";
    }

    /// The request Commit and Rollback send.
    function Request(): Protocol.TransactionRequest
      reads this
    {
      Protocol.TransactionRequest(connectionIdentifier, transactionIdentifier)
    }

    /// Commit and CommitAsync: with no channel or no connection id it throws
    /// before contacting the server; otherwise it sends the two ids and
    /// throws the reply's fault, if any.
    method Commit(c: Serializer, endpoint: RemoteEndpoints.Endpoint) returns (r: Result<(), Failure>, sent: Option<Protocol.TransactionRequest>)
      ensures channel == null || connectionIdentifier == "" ==> r == Err(NoChannel) && sent.None?
      ensures channel != null && connectionIdentifier != "" ==>
        sent == Some(Protocol.TransactionRequest(connectionIdentifier, transactionIdentifier)) &&
        r == Settled(c, endpoint.commitTransaction(sent.value))
    {
      if channel == null || connectionIdentifier == "" {
        return Err(NoChannel), None;
      }
      var request := Request();
      var reply := endpoint.commitTransaction(request);
      sent := Some(request);
      if reply.dataException.Some? {
        var thrown := GrpcDataExceptions.ThrowDataException(c, reply.dataException.value);
        return Err(thrown), sent;
      }
      r := Ok(());
    }

    /// Rollback and RollbackAsync: as Commit, with the rollback call.
    method Rollback(c: Serializer, endpoint: RemoteEndpoints.Endpoint) returns (r: Result<(), Failure>, sent: Option<Protocol.TransactionRequest>)
      ensures channel == null || connectionIdentifier == "" ==> r == Err(NoChannel) && sent.None?
      ensures channel != null && connectionIdentifier != "" ==>
        sent == Some(Protocol.TransactionRequest(connectionIdentifier, transactionIdentifier)) &&
        r == Settled(c, endpoint.rollbackTransaction(sent.value))
    {
      if channel == null || connectionIdentifier == "" {
        return Err(NoChannel), None;
      }
      var request := Request();
      var reply := endpoint.rollbackTransaction(request);
      sent := Some(request);
      if reply.dataException.Some? {
        var thrown := GrpcDataExceptions.ThrowDataException(c, reply.dataException.value);
        return Err(thrown), sent;
      }
      r := Ok(());
    }
  }

  /// BeginTransaction and BeginTransactionAsync: with no channel or no
  /// connection id it throws; otherwise it asks the server and keeps the
  /// returned transaction id as given, empty or not.
  method BeginTransaction(endpoint: RemoteEndpoints.Endpoint, channel: ChannelManagers.Channel?, connectionIdentifier: string, isolationLevel: int)
    returns (r: Result<GrpcTransaction, Failure>, sent: Option<Protocol.BeginTransactionRequest>)
    ensures channel == null || connectionIdentifier == "" ==> r == Err(NoChannel) && sent.None?
    ensures channel != null && connectionIdentifier != "" ==>
      sent == Some(Protocol.BeginTransactionRequest(connectionIdentifier, ToIsolationLevel(isolationLevel), "")) &&
      r.Ok? && fresh(r.value) &&
      r.value.channel == channel && r.value.connectionIdentifier == connectionIdentifier &&
      r.value.isolationLevel == isolationLevel &&
      r.value.transactionIdentifier == endpoint.beginTransaction(sent.value).transactionIdentifier
  {
    if channel == null || connectionIdentifier == "" {
      return Err(NoChannel), None;
    }
    var result := new GrpcTransaction(channel, connectionIdentifier, isolationLevel);
    var request := Protocol.BeginTransactionRequest(connectionIdentifier, ToIsolationLevel(isolationLevel), "");
    var reply := endpoint.beginTransaction(request);
    result.transactionIdentifier := reply.transactionIdentifier;
    r, sent := Ok(result), Some(request);
  }
}
