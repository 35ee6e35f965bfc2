// The older client's connection: the same channel handling as the newer one,
// but Open checks none of its settings and sends no client identifier, and
// BeginTransaction and CreateCommand dereference the manager unchecked.
module LegacyGrpcConnections {
  import opened Wrappers
  import opened Codec
  import opened ClientFailures
  import Protocol
  import RemoteEndpoints
  import RemoteDataExceptions
  import GrpcDataExceptions
  import ChannelManagers
  import ConnectionStrings
  import IsolationLevelConverter
  import LegacyGrpcTransactions
  import LegacyGrpcCommands
  import GrpcConnections

  class GrpcConnection {
    /// The channel pool, static in the source.
    const table: ChannelManagers.ChannelTable
    var channel: ChannelManagers.ChannelManager?
    var connectionIdentifier: string
    var serverProviderInvariantName: string
    var serverConnectionString: string
    var connectionString: string

    /// A held manager draws on this connection's pool.
    predicate Valid()
      reads this, channel
    {
      channel != null ==> channel.table == table
    }

    constructor(table: ChannelManagers.ChannelTable)
      ensures this.table == table && channel == null && Valid()
      ensures connectionIdentifier == "" && serverProviderInvariantName == "" && serverConnectionString == "" && connectionString == ""
    {
      this.table := table;
      channel := null;
      connectionIdentifier := "";
      serverProviderInvariantName := "";
      serverConnectionString := "";
      connectionString := "";
    }

    function State(): (s: GrpcConnections.ConnectionState)
      reads this
      ensures s == GrpcConnections.ConnectionState.Open <==> channel != null
    {
      if channel != null then GrpcConnections.ConnectionState.Open else GrpcConnections.Closed
    }

    /// The request Open sends: no client identifier.
    function OpenRequest(): Protocol.OpenConnectionRequest
      reads this
    {
      Protocol.OpenConnectionRequest("", serverProviderInvariantName, serverConnectionString)
    }

    /// Open and OpenAsync: a pooled channel for the GrpcServer address, then
    /// OpenConnection, with nothing checked first. A fault is thrown with
    /// the channel still held and the old id kept.
    method Open(c: Serializer, endpoint: RemoteEndpoints.Endpoint)
      returns (r: Result<(), Failure>, sent: Protocol.OpenConnectionRequest)
      modifies this, table
      ensures connectionString == old(connectionString) && serverConnectionString == old(serverConnectionString)
      ensures serverProviderInvariantName == old(serverProviderInvariantName)
      ensures State() == GrpcConnections.ConnectionState.Open && fresh(channel) && Valid() && !channel.disposedValue
      ensures table.entries ==
        ChannelManagers.Acquired(old(table.entries), GrpcConnections.Setting(connectionString, GrpcConnections.AddressKey), channel.channel)
      ensures sent == old(OpenRequest())
      ensures endpoint.openConnection(sent).dataException.Some? ==>
        r == Err(RemoteDataExceptions.Raised(c, endpoint.openConnection(sent).dataException.value)) &&
        connectionIdentifier == old(connectionIdentifier)
      ensures endpoint.openConnection(sent).dataException.None? ==>
        r == Ok(()) && connectionIdentifier == endpoint.openConnection(sent).connectionIdentifier
    {
      var builder := new ConnectionStrings.ConnectionStringBuilder.FromConnectionString(connectionString);
      var address := builder.Get(GrpcConnections.AddressKey);
      channel := new ChannelManagers.ChannelManager(table, address);
      sent := Protocol.OpenConnectionRequest("", serverProviderInvariantName, serverConnectionString);
      var reply := endpoint.openConnection(sent);
      if reply.dataException.Some? {
        var thrown := GrpcDataExceptions.ThrowDataException(c, reply.dataException.value);
        return Err(thrown), sent;
      }
      connectionIdentifier := reply.connectionIdentifier;
      r := Ok(());
    }

    /// DisposeChannel: hands the reference back once and forgets the
    /// manager, so a second call does nothing.
    method DisposeChannel()
      requires Valid()
      modifies this, table, if channel != null then {channel, channel.channel} else {}
      ensures channel == null && State() == GrpcConnections.Closed && Valid()
      ensures connectionIdentifier == old(connectionIdentifier) && connectionString == old(connectionString)
      ensures old(channel) == null ==> table.entries == old(table.entries)
      ensures old(channel) != null ==> old(channel).disposedValue
      ensures old(channel) != null && old(channel.disposedValue) ==> table.entries == old(table.entries)
      ensures old(channel) != null && !old(channel.disposedValue) ==>
        table.entries == ChannelManagers.Released(old(table.entries), old(channel).channel)
    {
      if channel == null {
        return;
      }
      channel.Dispose();
      channel := null;
    }

    /// Close and CloseAsync: nothing without a manager or an id; otherwise
    /// CloseConnection, then the channel goes back. The id is kept.
    method Close() returns (sent: Option<Protocol.CloseConnectionRequest>)
      requires Valid()
      modifies this, table, if channel != null then {channel, channel.channel} else {}
      ensures Valid() && connectionIdentifier == old(connectionIdentifier)
      ensures old(channel) == null || old(connectionIdentifier) == "" ==>
        sent.None? && channel == old(channel) && table.entries == old(table.entries) &&
        (channel != null ==> channel.disposedValue == old(channel.disposedValue))
      ensures old(channel) != null && old(connectionIdentifier) != "" ==>
        sent == Some(Protocol.CloseConnectionRequest(old(connectionIdentifier))) && State() == GrpcConnections.Closed &&
        old(channel).disposedValue &&
        (!old(channel.disposedValue) ==> table.entries == ChannelManagers.Released(old(table.entries), old(channel).channel))
    {
      if channel == null || connectionIdentifier == "" {
        return None;
      }
      sent := Some(Protocol.CloseConnectionRequest(connectionIdentifier));
      DisposeChannel();
    }

    /// Dispose and DisposeAsync: Close, then DisposeChannel.
    method Dispose() returns (sent: Option<Protocol.CloseConnectionRequest>)
      requires Valid()
      modifies this, table, if channel != null then {channel, channel.channel} else {}
      ensures State() == GrpcConnections.Closed && Valid()
      ensures sent.Some? <==> old(channel) != null && old(connectionIdentifier) != ""
      ensures sent.Some? ==> sent.value == Protocol.CloseConnectionRequest(old(connectionIdentifier))
      ensures old(channel) == null ==> table.entries == old(table.entries)
      ensures old(channel) != null && !old(channel.disposedValue) ==>
        table.entries == ChannelManagers.Released(old(table.entries), old(channel).channel)
    {
      sent := Close();
      DisposeChannel();
    }

    /// BeginTransaction and BeginTransactionAsync with an explicit level:
    /// `channel.Channel` on a closed connection throws
    /// NullReferenceException.
    method BeginTransaction(endpoint: RemoteEndpoints.Endpoint, isolationLevel: int)
      returns (r: Result<LegacyGrpcTransactions.GrpcTransaction, Failure>, sent: Option<Protocol.BeginTransactionRequest>)
      ensures channel == null ==> r == Err(NullReference) && sent.None?
      ensures channel != null && connectionIdentifier == "" ==> r == Err(LegacyGrpcTransactions.NoChannel) && sent.None?
      ensures channel != null && connectionIdentifier != "" ==>
        sent == Some(Protocol.BeginTransactionRequest(connectionIdentifier, IsolationLevelConverter.ToWire(isolationLevel), "")) &&
        r.Ok? && fresh(r.value) && r.value.channel == channel.channel &&
        r.value.connectionIdentifier == connectionIdentifier && r.value.isolationLevel == isolationLevel &&
        r.value.transactionIdentifier == endpoint.beginTransaction(sent.value).transactionIdentifier
    {
      if channel == null {
        return Err(NullReference), None;
      }
      r, sent := LegacyGrpcTransactions.BeginTransaction(endpoint, channel.channel, connectionIdentifier, isolationLevel);
    }

    /// The parameterless BeginTransaction: Unspecified.
    method BeginDefaultTransaction(endpoint: RemoteEndpoints.Endpoint)
      returns (r: Result<LegacyGrpcTransactions.GrpcTransaction, Failure>, sent: Option<Protocol.BeginTransactionRequest>)
      ensures channel == null ==> r == Err(NullReference) && sent.None?
      ensures r.Ok? ==> r.value.isolationLevel == IsolationLevelConverter.NativeCode(IsolationLevelConverter.Unspecified)
      ensures sent.Some? ==> sent.value.isolationLevel == IsolationLevelConverter.WireCode(IsolationLevelConverter.Unspecified)
    {
      r, sent := BeginTransaction(endpoint, IsolationLevelConverter.NativeCode(IsolationLevelConverter.Unspecified));
    }

    /// The parameterless BeginTransactionAsync: ReadCommitted.
    method BeginDefaultTransactionAsync(endpoint: RemoteEndpoints.Endpoint)
      returns (r: Result<LegacyGrpcTransactions.GrpcTransaction, Failure>, sent: Option<Protocol.BeginTransactionRequest>)
      ensures channel == null ==> r == Err(NullReference) && sent.None?
      ensures r.Ok? ==> r.value.isolationLevel == IsolationLevelConverter.NativeCode(IsolationLevelConverter.ReadCommitted)
      ensures sent.Some? ==> sent.value.isolationLevel == IsolationLevelConverter.WireCode(IsolationLevelConverter.ReadCommitted)
    {
      r, sent := BeginTransaction(endpoint, IsolationLevelConverter.NativeCode(IsolationLevelConverter.ReadCommitted));
    }

    /// CreateCommand and CreateCommandAsync: `channel.Channel` unchecked,
    /// then the command class's CreateCommand.
    method CreateCommand(endpoint: RemoteEndpoints.Endpoint)
      returns (r: Result<LegacyGrpcCommands.GrpcCommand, Failure>, sent: Option<Protocol.CreateCommandRequest>)
      ensures channel == null ==> r == Err(NullReference) && sent.None?
      ensures channel != null && connectionIdentifier == "" ==> r == Err(LegacyGrpcCommands.NoChannel) && sent.None?
      ensures channel != null && connectionIdentifier != "" ==>
        sent == Some(Protocol.CreateCommandRequest(connectionIdentifier)) &&
        r.Ok? && fresh(r.value) && r.value.channel == channel.channel &&
        r.value.connectionIdentifier == connectionIdentifier &&
        r.value.commandIdentifier == endpoint.createCommand(sent.value).commandIdentifier
    {
      if channel == null {
        return Err(NullReference), None;
      }
      r, sent := LegacyGrpcCommands.CreateCommand(endpoint, channel.channel, connectionIdentifier);
    }
  }
}
