// The older client's command: it carries the server's command id, builds an
// ExecuteQueryRequest from its text, ids and parameters, and owns the readers
// it creates.
module LegacyGrpcCommands {
  import opened Wrappers
  import opened Codec
  import opened ClientFailures
  import Protocol
  import DataFields
  import DataParameters
  import RemoteEndpoints
  import RemoteDataExceptions
  import GrpcDataExceptions
  import ChannelManagers
  import opened GrpcDataReaders
  import LegacyGrpcDataReaders
  import LegacyGrpcTransactions
  import LegacyGrpcParameterCollections

  const NoChannel := InvalidOperation("There's no gRPC channel.")
  const NotAGrpcTransaction := InvalidOperation("Transaction is not of type GrpcTransaction.")

  /// `p.Value ?? new object()`: a null value travels as a bare object.
  function ValueOrPlaceholder(value: Option<Value>): (v: Value)
    ensures value.Some? ==> v == value.value
    ensures value.None? ==> v == Placeholder
  {
    if value.Some? then value.value else Placeholder
  }

  /// The wire record of one request parameter: a DataParameter given the
  /// parameter's name, then its value.
  function WireParameter(c: Serializer, p: LegacyGrpcParameterCollections.GrpcParameter): DataParameters.InnerParameter
  {
    DataParameters.Described(c, p.parameterName, ValueOrPlaceholder(p.value)).inner
  }

  function WireParameters(c: Serializer, ps: seq<LegacyGrpcParameterCollections.GrpcParameter>): (r: seq<DataParameters.InnerParameter>)
    ensures |r| == |ps|
    ensures forall k :: 0 <= k < |ps| ==> r[k] == WireParameter(c, ps[k])
  {
    seq(|ps|, k requires 0 <= k < |ps| => WireParameter(c, ps[k]))
  }

  /// The result of ExecuteScalar: C# null, or the first field's stored
  /// value (None being the null sentinel).
  datatype Scalar = NullScalar | FieldValue(value: Option<Value>)

  /// What ExecuteScalar makes of its first read: the read's fault, null
  /// when there is no row or the row is empty, else the first field.
  function ScalarOf(first: Outcome): (r: Result<Scalar, Failure>)
    ensures first.result.Err? <==> r.Err?
    ensures r.Ok? && r.value.FieldValue? <==> first.result == Ok(true) && |first.after.items| > 0
    ensures r.Ok? && r.value.FieldValue? ==> r.value.value == first.after.items[0].value
  {
    match first.result
    case Err(e) => Err(e)
    case Ok(read) =>
      if !read || |first.after.items| == 0 then Ok(NullScalar) else Ok(FieldValue(first.after.items[0].value))
  }

  /// The synchronous ExecuteScalar reads a streaming reader with Read,
  /// which never yields a row: whatever the server returns, the result is
  /// null.
  lemma SyncScalarIsAlwaysNull(c: Serializer, messages: seq<Protocol.ExecuteQueryResponse>)
    ensures ScalarOf(ReadStep(c, Streamed(messages), Opened)) == Ok(NullScalar)
  {
  }

  /// ExecuteScalarAsync reads the same stream with ReadAsync and returns
  /// the first field of the first row, or throws that message's fault.
  lemma AsyncScalarIsFirstField(c: Serializer, messages: seq<Protocol.ExecuteQueryResponse>)
    requires |messages| > 0 && messages[0].dataException.None? && |messages[0].fields| > 0
    ensures ScalarOf(ReadAsyncStep(c, Streamed(messages), Opened)) == Ok(FieldValue(DataFields.Unpack(c, messages[0].fields[0]).value))
  {
  }

  /// One row holding one text value: the asynchronous scalar is that value,
  /// the synchronous one is null.
  lemma ScalarsDisagree(c: Serializer, name: string, v: Value, dataTypeName: string)
    requires Sound(c) && WritesAsIs(c, v)
    ensures var row := [Protocol.ExecuteQueryResponse([DataFields.Described(c, name, v, dataTypeName).inner], None)];
      ScalarOf(ReadAsyncStep(c, Streamed(row), Opened)) == Ok(FieldValue(Some(v))) &&
      ScalarOf(ReadStep(c, Streamed(row), Opened)) == Ok(NullScalar)
  {
    DataFields.RoundTrip(c, name, v, dataTypeName);
  }

  class GrpcCommand {
    var items: seq<LegacyGrpcDataReaders.GrpcDataReader>
    var commandIdentifier: string
    var commandText: string
    var channel: ChannelManagers.Channel?
    var connectionIdentifier: string
    const parameters: LegacyGrpcParameterCollections.GrpcParameterCollection
    var transaction: LegacyGrpcTransactions.GrpcTransaction?

    constructor(channel: ChannelManagers.Channel?, connectionIdentifier: string)
      ensures this.channel == channel && this.connectionIdentifier == connectionIdentifier
      ensures items == [] && commandIdentifier == "" && commandText == "" && transaction == null
      ensures fresh(parameters) && parameters.items == []
    {
      this.channel := channel;
      this.connectionIdentifier := connectionIdentifier;
      items := [];
      commandIdentifier := "";
      commandText := "";
      parameters := new LegacyGrpcParameterCollections.GrpcParameterCollection();
      transaction := null;
    }

    /// The guard every execution starts with.
    predicate HasIdentifiers()
      reads this
    {
      channel != null && connectionIdentifier != "" && commandIdentifier != ""
    }

    /// The request an execution sends.
    function Query(c: Serializer): Protocol.ExecuteQueryRequest
      reads this, parameters, transaction
      requires transaction != null
    {
      Protocol.ExecuteQueryRequest(commandText, connectionIdentifier, transaction.transactionIdentifier,
        commandIdentifier, WireParameters(c, parameters.items))
    }

    /// The guards in order: ids first, then the transaction.
    function Guard(): (r: Option<Failure>)
      reads this
      ensures r.None? <==> HasIdentifiers() && transaction != null
      ensures !HasIdentifiers() ==> r == Some(NoChannel)
      ensures HasIdentifiers() && transaction == null ==> r == Some(NotAGrpcTransaction)
    {
      if !HasIdentifiers() then Some(NoChannel)
      else if transaction == null then Some(NotAGrpcTransaction)
      else None
    }

    /// Building the request: the text, the three ids, and one wire
    /// parameter per collection entry in order.
    method BuildQuery(c: Serializer) returns (query: Protocol.ExecuteQueryRequest)
      requires transaction != null
      ensures query == Query(c)
      ensures |query.parameters| == |parameters.items|
    {
      var ps := parameters.items;
      var wire: seq<DataParameters.InnerParameter> := [];
      for i := 0 to |ps|
        invariant |wire| == i && forall k :: 0 <= k < i ==> wire[k] == WireParameter(c, ps[k])
      {
        var p := new DataParameters.DataParameter();
        p.SetName(ps[i].parameterName);
        p.SetValue(c, ValueOrPlaceholder(ps[i].value));
        wire := wire + [p.State().inner];
      }
      query := Protocol.ExecuteQueryRequest(commandText, connectionIdentifier, transaction.transactionIdentifier,
        commandIdentifier, wire);
    }

    /// ExecuteNonQuery and ExecuteNonQueryAsync: after the guards, the
    /// rows affected, or the reply's fault.
    method ExecuteNonQuery(c: Serializer, endpoint: RemoteEndpoints.Endpoint)
      returns (r: Result<int, Failure>, sent: Option<Protocol.ExecuteQueryRequest>)
      ensures Guard().Some? ==> r == Err(Guard().value) && sent.None?
      ensures Guard().None? ==> sent == Some(Query(c))
      ensures Guard().None? && endpoint.executeNonQuery(Query(c)).dataException.Some? ==>
        r == Err(RemoteDataExceptions.Raised(c, endpoint.executeNonQuery(Query(c)).dataException.value))
      ensures Guard().None? && endpoint.executeNonQuery(Query(c)).dataException.None? ==>
        r == Ok(endpoint.executeNonQuery(Query(c)).rowsAffected)
    {
      var guard := Guard();
      if guard.Some? {
        return Err(guard.value), None;
      }
      var query := BuildQuery(c);
      var reply := endpoint.executeNonQuery(query);
      sent := Some(query);
      if reply.dataException.Some? {
        var thrown := GrpcDataExceptions.ThrowDataException(c, reply.dataException.value);
        return Err(thrown), sent;
      }
      r := Ok(reply.rowsAffected);
    }

    /// ExecuteReader: after the guards, a new reader over the streamed
    /// reply, which the command keeps.
    method ExecuteReader(c: Serializer, endpoint: RemoteEndpoints.Endpoint)
      returns (r: Result<LegacyGrpcDataReaders.GrpcDataReader, Failure>, sent: Option<Protocol.ExecuteQueryRequest>)
      modifies this
      ensures Guard().Some? ==> r == Err(Guard().value) && sent.None? && items == old(items)
      ensures Guard().None? ==>
        sent == Some(Query(c)) && r.Ok? && fresh(r.value) &&
        r.value.source == Streamed(endpoint.executeQuery(Query(c))) && r.value.State() == Opened &&
        items == old(items) + [r.value]
      ensures commandIdentifier == old(commandIdentifier) && commandText == old(commandText)
      ensures channel == old(channel) && connectionIdentifier == old(connectionIdentifier) && transaction == old(transaction)
    {
      var guard := Guard();
      if guard.Some? {
        return Err(guard.value), None;
      }
      var query := BuildQuery(c);
      var reply := endpoint.executeQuery(query);
      var reader := new LegacyGrpcDataReaders.GrpcDataReader(Streamed(reply));
      items := items + [reader];
      r, sent := Ok(reader), Some(query);
    }

    /// ExecuteScalar as written: Read on the streaming reader, which the
    /// command keeps like any other it created.
    method ExecuteScalar(c: Serializer, endpoint: RemoteEndpoints.Endpoint)
      returns (r: Result<Scalar, Failure>, sent: Option<Protocol.ExecuteQueryRequest>)
      modifies this
      ensures Guard().Some? ==> r == Err(Guard().value) && sent.None?
      ensures Guard().None? ==> sent == Some(Query(c))
      ensures Guard().None? ==> r == ScalarOf(ReadStep(c, Streamed(endpoint.executeQuery(Query(c))), Opened))
      ensures Guard().None? ==> r == Ok(NullScalar)
      ensures Guard().Some? ==> items == old(items)
      ensures Guard().None? ==>
        |items| == |old(items)| + 1 && items[..|old(items)|] == old(items) && fresh(items[|old(items)|]) &&
        items[|old(items)|].source == Streamed(endpoint.executeQuery(Query(c))) &&
        items[|old(items)|].State() == ReadStep(c, items[|old(items)|].source, Opened).after
      ensures commandIdentifier == old(commandIdentifier) && commandText == old(commandText)
      ensures channel == old(channel) && connectionIdentifier == old(connectionIdentifier) && transaction == old(transaction)
    {
      var reader;
      var created;
      created, sent := ExecuteReader(c, endpoint);
      if created.Err? {
        return Err(created.error), sent;
      }
      reader := created.value;
      var read := reader.Read(c);
      r := ScalarOf(Outcome(reader.State(), read));
      SyncScalarIsAlwaysNull(c, endpoint.executeQuery(sent.value));
    }

    /// ExecuteScalarAsync: ReadAsync on the same kind of reader, which the
    /// command keeps too.
    method ExecuteScalarAsync(c: Serializer, endpoint: RemoteEndpoints.Endpoint)
      returns (r: Result<Scalar, Failure>, sent: Option<Protocol.ExecuteQueryRequest>)
      modifies this
      ensures Guard().Some? ==> r == Err(Guard().value) && sent.None?
      ensures Guard().None? ==> sent == Some(Query(c))
      ensures Guard().None? ==> r == ScalarOf(ReadAsyncStep(c, Streamed(endpoint.executeQuery(Query(c))), Opened))
      ensures Guard().Some? ==> items == old(items)
      ensures Guard().None? ==>
        |items| == |old(items)| + 1 && items[..|old(items)|] == old(items) && fresh(items[|old(items)|]) &&
        items[|old(items)|].source == Streamed(endpoint.executeQuery(Query(c))) &&
        items[|old(items)|].State() == ReadAsyncStep(c, items[|old(items)|].source, Opened).after
      ensures commandIdentifier == old(commandIdentifier) && commandText == old(commandText)
      ensures channel == old(channel) && connectionIdentifier == old(connectionIdentifier) && transaction == old(transaction)
    {
      var reader;
      var created;
      created, sent := ExecuteReader(c, endpoint);
      if created.Err? {
        return Err(created.error), sent;
      }
      reader := created.value;
      var read := reader.ReadAsync(c);
      r := ScalarOf(Outcome(reader.State(), read));
    }

    /// Dispose: closes every reader the command created, last first.
    method Dispose()
      modifies set k | 0 <= k < |items| :: items[k]
      ensures forall k :: 0 <= k < |items| ==> items[k].IsClosed()
      ensures forall k :: 0 <= k < |items| ==>
        items[k].items == old(items[k].items) && items[k].syncResponseIndex == old(items[k].syncResponseIndex) &&
        items[k].consumed == old(items[k].consumed)
    {
      var i := |items| - 1;
      while i >= 0
        invariant -1 <= i < |items|
        invariant forall k :: i < k < |items| ==> items[k].IsClosed()
        invariant forall k :: 0 <= k < |items| ==>
          items[k].items == old(items[k].items) && items[k].syncResponseIndex == old(items[k].syncResponseIndex) &&
          items[k].consumed == old(items[k].consumed)
      {
        items[i].Close();
        i := i - 1;
      }
    }

    /// DisposeAsync: needs all three ids, asks the server to destroy the
    /// command, then closes the readers.
    method DisposeAsync() returns (r: Result<(), Failure>, sent: Option<Protocol.DestroyCommandRequest>)
      modifies set k | 0 <= k < |items| :: items[k]
      ensures !HasIdentifiers() ==> r == Err(NoChannel) && sent.None? && forall k :: 0 <= k < |items| ==> unchanged(items[k])
      ensures HasIdentifiers() ==>
        r == Ok(()) && sent == Some(Protocol.DestroyCommandRequest(connectionIdentifier, commandIdentifier)) &&
        forall k :: 0 <= k < |items| ==> items[k].IsClosed()
    {
      if !HasIdentifiers() {
        return Err(NoChannel), None;
      }
      sent := Some(Protocol.DestroyCommandRequest(connectionIdentifier, commandIdentifier));
      Dispose();
      r := Ok(());
    }
  }

  /// CreateCommand and CreateCommandAsync: with no channel or no connection
  /// id it throws; otherwise the new command takes its id from the reply.
  method CreateCommand(endpoint: RemoteEndpoints.Endpoint, channel: ChannelManagers.Channel?, connectionIdentifier: string)
    returns (r: Result<GrpcCommand, Failure>, sent: Option<Protocol.CreateCommandRequest>)
    ensures channel == null || connectionIdentifier == "" ==> r == Err(NoChannel) && sent.None?
    ensures channel != null && connectionIdentifier != "" ==>
      sent == Some(Protocol.CreateCommandRequest(connectionIdentifier)) &&
      r.Ok? && fresh(r.value) && r.value.channel == channel && r.value.connectionIdentifier == connectionIdentifier &&
      r.value.commandIdentifier == endpoint.createCommand(sent.value).commandIdentifier &&
      r.value.items == [] && r.value.transaction == null
  {
    if channel == null || connectionIdentifier == "" {
      return Err(NoChannel), None;
    }
    var result := new GrpcCommand(channel, connectionIdentifier);
    var request := Protocol.CreateCommandRequest(connectionIdentifier);
    var reply := endpoint.createCommand(request);
    result.commandIdentifier := reply.commandIdentifier;
    r, sent := Ok(result), Some(request);
  }
}
