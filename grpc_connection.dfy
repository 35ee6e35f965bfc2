// The newer client's connection: it holds one reference to a pooled channel
// while open, opens a server-side connection through it, and hands the
// reference back on Close. Its transactions and commands are the ones of
// the enclosing client namespace, LegacyGrpcTransactions and
// LegacyGrpcCommands.
module GrpcConnections {
  import opened Wrappers
  import opened Codec
  import opened ClientFailures
  import Protocol
  import RemoteEndpoints
  import RemoteDataExceptions
  import ChannelManagers
  import ConnectionStrings
  import IsolationLevelConverter
  import LegacyGrpcTransactions
  import LegacyGrpcCommands

  datatype ConnectionState = Closed | Open

  const EmptyConnectionString := LocalFault("The connection string is empty.")
  const EmptyServerConnectionString := LocalFault("The server connection string is empty.")
  const EmptyProviderInvariantName := LocalFault("The server provider invariant name is empty.")
  const NoChannelManager := LocalFault("The channel manager is null.")

  /// The connection-string keys Open reads.
  const AddressKey := "GrpcServer"
  const ClientIdentifierKey := "ClientIdentifier"

  /// The builder's indexer on a parsed connection string: the value of the
  /// first key equal ignoring case, or "".
  function Setting(connectionString: string, key: string): (v: string)
    ensures ConnectionStrings.IndexIgnoringCase(ConnectionStrings.Parse(connectionString), key) < 0 ==> v == ""
    ensures var i := ConnectionStrings.IndexIgnoringCase(ConnectionStrings.Parse(connectionString), key);
      i >= 0 ==> v == ConnectionStrings.Parse(connectionString)[i].1
  {
    var options := ConnectionStrings.Parse(connectionString);
    var i := ConnectionStrings.IndexIgnoringCase(options, key);
    if i < 0 then "" else options[i].1
  }

  /// A connection string printed from one key and a readable value gives
  /// that value back under the key, whatever the case it is asked in.
  lemma SettingOfPrintedPair(key: string, value: string, asked: string)
    requires ConnectionStrings.PlainKey(key) && ConnectionStrings.ReadableValue(value) && !ConnectionStrings.IsProvider(key)
    requires ConnectionStrings.EqualsIgnoreCase(key, asked)
    ensures Setting(ConnectionStrings.PairText(key, value), asked) == value
  {
    ConnectionStrings.WrappedValueParsesBack(key, value);
  }

  /// Open's checks, in order: the first empty setting is the one reported.
  function OpenGuard(connectionString: string, serverConnectionString: string, serverProviderInvariantName: string): (r: Option<Failure>)
    ensures r.None? <==> connectionString != "" && serverConnectionString != "" && serverProviderInvariantName != ""
    ensures connectionString == "" ==> r == Some(EmptyConnectionString)
    ensures connectionString != "" && serverConnectionString == "" ==> r == Some(EmptyServerConnectionString)
    ensures connectionString != "" && serverConnectionString != "" && serverProviderInvariantName == "" ==>
      r == Some(EmptyProviderInvariantName)
  {
    if connectionString == "" then Some(EmptyConnectionString)
    else if serverConnectionString == "" then Some(EmptyServerConnectionString)
    else if serverProviderInvariantName == "" then Some(EmptyProviderInvariantName)
    else None
  }

  class GrpcConnection {
    /// The channel pool, static in the source.
    const table: ChannelManagers.ChannelTable
    var channelManager: ChannelManagers.ChannelManager?
    var connectionIdentifier: string
    var serverProviderInvariantName: string
    var serverConnectionString: string
    var connectionString: string

    /// A held manager draws on this connection's pool.
    predicate Valid()
      reads this, channelManager
    {
      channelManager != null ==> channelManager.table == table
    }

    constructor(table: ChannelManagers.ChannelTable)
      ensures this.table == table && channelManager == null && Valid()
      ensures connectionIdentifier == "" && serverProviderInvariantName == "" && serverConnectionString == "" && connectionString == ""
    {
      this.table := table;
      channelManager := null;
      connectionIdentifier := "";
      serverProviderInvariantName := "";
      serverConnectionString := "";
      connectionString := "";
    }

    function State(): (s: ConnectionState)
      reads this
      ensures s == ConnectionState.Open <==> channelManager != null
    {
      if channelManager != null then ConnectionState.Open else Closed
    }

    /// Open's checks on this connection's settings.
    function Checks(): Option<Failure>
      reads this
    {
      OpenGuard(connectionString, serverConnectionString, serverProviderInvariantName)
    }

    /// The request Open sends.
    function OpenRequest(): Protocol.OpenConnectionRequest
      reads this
    {
      Protocol.OpenConnectionRequest(Setting(connectionString, ClientIdentifierKey), serverProviderInvariantName, serverConnectionString)
    }

    /// Open and OpenAsync: the three checks, then a pooled channel for the
    /// GrpcServer address, then OpenConnection. A fault is thrown with the
    /// channel still held and the old id kept.
    method Open(c: Serializer, endpoint: RemoteEndpoints.Endpoint)
      returns (r: Result<(), Failure>, sent: Option<Protocol.OpenConnectionRequest>)
      modifies this, table
      ensures connectionString == old(connectionString) && serverConnectionString == old(serverConnectionString)
      ensures serverProviderInvariantName == old(serverProviderInvariantName)
      ensures old(Checks()).Some? ==>
        r == Err(old(Checks()).value) &&
        sent.None? && channelManager == old(channelManager) && connectionIdentifier == old(connectionIdentifier) &&
        table.entries == old(table.entries)
      ensures old(Checks()).None? ==>
        State() == ConnectionState.Open && fresh(channelManager) && Valid() && !channelManager.disposedValue &&
        table.entries == ChannelManagers.Acquired(old(table.entries), Setting(connectionString, AddressKey), channelManager.channel) &&
        sent == Some(old(OpenRequest()))
      ensures old(Checks()).None? && endpoint.openConnection(old(OpenRequest())).dataException.Some? ==>
        r == Err(RemoteDataExceptions.Raised(c, endpoint.openConnection(old(OpenRequest())).dataException.value)) &&
        connectionIdentifier == old(connectionIdentifier)
      ensures old(Checks()).None? && endpoint.openConnection(old(OpenRequest())).dataException.None? ==>
        r == Ok(()) && connectionIdentifier == endpoint.openConnection(old(OpenRequest())).connectionIdentifier
    {
      var guard := OpenGuard(connectionString, serverConnectionString, serverProviderInvariantName);
      if guard.Some? {
        return Err(guard.value), None;
      }
      var builder := new ConnectionStrings.ConnectionStringBuilder.FromConnectionString(connectionString);
      var address := builder.Get(AddressKey);
      var clientIdentifier := builder.Get(ClientIdentifierKey);
      channelManager := new ChannelManagers.ChannelManager(table, address);
      var request := Protocol.OpenConnectionRequest(clientIdentifier, serverProviderInvariantName, serverConnectionString);
      sent := Some(request);
      var reply := endpoint.openConnection(request);
      if reply.dataException.Some? {
        var thrown := RemoteDataExceptions.ThrowDataException(c, reply.dataException.value);
        return Err(thrown), sent;
      }
      connectionIdentifier := reply.connectionIdentifier;
      r := Ok(());
    }

    /// DisposeChannel: hands the reference back once and forgets the
    /// manager, so a second call does nothing.
    method DisposeChannel()
      requires Valid()
      modifies this, table, if channelManager != null then {channelManager, channelManager.channel} else {}
      ensures channelManager == null && State() == Closed && Valid()
      ensures connectionIdentifier == old(connectionIdentifier) && connectionString == old(connectionString)
      ensures old(channelManager) == null ==> table.entries == old(table.entries)
      ensures old(channelManager) != null ==> old(channelManager).disposedValue
      ensures old(channelManager) != null && old(channelManager.disposedValue) ==> table.entries == old(table.entries)
      ensures old(channelManager) != null && !old(channelManager.disposedValue) ==>
        table.entries == ChannelManagers.Released(old(table.entries), old(channelManager).channel)
    {
      if channelManager == null {
        return;
      }
      channelManager.Dispose();
      channelManager := null;
    }

    /// Close and CloseAsync: nothing without a manager or an id; otherwise
    /// CloseConnection, then the channel goes back. The id is kept.
    method Close() returns (sent: Option<Protocol.CloseConnectionRequest>)
      requires Valid()
      modifies this, table, if channelManager != null then {channelManager, channelManager.channel} else {}
      ensures Valid() && connectionIdentifier == old(connectionIdentifier)
      ensures old(channelManager) == null || old(connectionIdentifier) == "" ==>
        sent.None? && channelManager == old(channelManager) && table.entries == old(table.entries) &&
        (channelManager != null ==> channelManager.disposedValue == old(channelManager.disposedValue))
      ensures old(channelManager) != null && old(connectionIdentifier) != "" ==>
        sent == Some(Protocol.CloseConnectionRequest(old(connectionIdentifier))) && State() == Closed &&
        old(channelManager).disposedValue &&
        (!old(channelManager.disposedValue) ==> table.entries == ChannelManagers.Released(old(table.entries), old(channelManager).channel))
    {
      if channelManager == null || connectionIdentifier == "" {
        return None;
      }
      sent := Some(Protocol.CloseConnectionRequest(connectionIdentifier));
      DisposeChannel();
    }

    /// Dispose and DisposeAsync: Close, then DisposeChannel. The reference
    /// goes back exactly once, whether Close sent anything or not.
    method Dispose() returns (sent: Option<Protocol.CloseConnectionRequest>)
      requires Valid()
      modifies this, table, if channelManager != null then {channelManager, channelManager.channel} else {}
      ensures State() == Closed && Valid()
      ensures sent.Some? <==> old(channelManager) != null && old(connectionIdentifier) != ""
      ensures sent.Some? ==> sent.value == Protocol.CloseConnectionRequest(old(connectionIdentifier))
      ensures old(channelManager) == null ==> table.entries == old(table.entries)
      ensures old(channelManager) != null && !old(channelManager.disposedValue) ==>
        table.entries == ChannelManagers.Released(old(table.entries), old(channelManager).channel)
    {
      sent := Close();
      DisposeChannel();
    }

    /// BeginTransaction and BeginTransactionAsync with an explicit level:
    /// the manager's check, then the transaction class's BeginTransaction on
    /// its channel.
    method BeginTransaction(endpoint: RemoteEndpoints.Endpoint, isolationLevel: int)
      returns (r: Result<LegacyGrpcTransactions.GrpcTransaction, Failure>, sent: Option<Protocol.BeginTransactionRequest>)
      ensures channelManager == null ==> r == Err(NoChannelManager) && sent.None?
      ensures channelManager != null && connectionIdentifier == "" ==> r == Err(LegacyGrpcTransactions.NoChannel) && sent.None?
      ensures channelManager != null && connectionIdentifier != "" ==>
        sent == Some(Protocol.BeginTransactionRequest(connectionIdentifier, IsolationLevelConverter.ToWire(isolationLevel), "")) &&
        r.Ok? && fresh(r.value) && r.value.channel == channelManager.channel &&
        r.value.connectionIdentifier == connectionIdentifier && r.value.isolationLevel == isolationLevel &&
        r.value.transactionIdentifier == endpoint.beginTransaction(sent.value).transactionIdentifier
    {
      if channelManager == null {
        return Err(NoChannelManager), None;
      }
      r, sent := LegacyGrpcTransactions.BeginTransaction(endpoint, channelManager.channel, connectionIdentifier, isolationLevel);
    }

    /// The parameterless BeginTransaction: Unspecified.
    method BeginDefaultTransaction(endpoint: RemoteEndpoints.Endpoint)
      returns (r: Result<LegacyGrpcTransactions.GrpcTransaction, Failure>, sent: Option<Protocol.BeginTransactionRequest>)
      ensures channelManager == null ==> r == Err(NoChannelManager) && sent.None?
      ensures r.Ok? ==> r.value.isolationLevel == IsolationLevelConverter.NativeCode(IsolationLevelConverter.Unspecified)
      ensures sent.Some? ==> sent.value.isolationLevel == IsolationLevelConverter.WireCode(IsolationLevelConverter.Unspecified)
    {
      r, sent := BeginTransaction(endpoint, IsolationLevelConverter.NativeCode(IsolationLevelConverter.Unspecified));
    }

    /// The parameterless BeginTransactionAsync: ReadCommitted.
    method BeginDefaultTransactionAsync(endpoint: RemoteEndpoints.Endpoint)
      returns (r: Result<LegacyGrpcTransactions.GrpcTransaction, Failure>, sent: Option<Protocol.BeginTransactionRequest>)
      ensures channelManager == null ==> r == Err(NoChannelManager) && sent.None?
      ensures r.Ok? ==> r.value.isolationLevel == IsolationLevelConverter.NativeCode(IsolationLevelConverter.ReadCommitted)
      ensures sent.Some? ==> sent.value.isolationLevel == IsolationLevelConverter.WireCode(IsolationLevelConverter.ReadCommitted)
    {
      r, sent := BeginTransaction(endpoint, IsolationLevelConverter.NativeCode(IsolationLevelConverter.ReadCommitted));
    }

    /// CreateCommand and CreateCommandAsync: the manager's check, then the
    /// command class's CreateCommand on its channel.
    method CreateCommand(endpoint: RemoteEndpoints.Endpoint)
      returns (r: Result<LegacyGrpcCommands.GrpcCommand, Failure>, sent: Option<Protocol.CreateCommandRequest>)
      ensures channelManager == null ==> r == Err(NoChannelManager) && sent.None?
      ensures channelManager != null && connectionIdentifier == "" ==> r == Err(LegacyGrpcCommands.NoChannel) && sent.None?
      ensures channelManager != null && connectionIdentifier != "" ==>
        sent == Some(Protocol.CreateCommandRequest(connectionIdentifier)) &&
        r.Ok? && fresh(r.value) && r.value.channel == channelManager.channel &&
        r.value.connectionIdentifier == connectionIdentifier &&
        r.value.commandIdentifier == endpoint.createCommand(sent.value).commandIdentifier
    {
      if channelManager == null {
        return Err(NoChannelManager), None;
      }
      r, sent := LegacyGrpcCommands.CreateCommand(endpoint, channelManager.channel, connectionIdentifier);
    }
  }
}
