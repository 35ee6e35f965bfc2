// The native ADO.NET side of the server, which the gateway drives but does
// not implement: connections, commands and transactions are objects; what
// the driver does with them (open, commit, run a query) is a parameter of
// the model, the Driver record of outcomes.
module NativeDriver {
  import opened Wrappers
  import opened Codec

  /// An exception thrown by the driver or by the gateway: its class name,
  /// its message and the public properties reflection reports on it (None
  /// for a property whose value is null).
  datatype Fault = Fault(className: string, message: string, properties: seq<(string, Option<Value>)>)

  class NativeConnection {
    const providerInvariantName: string
    const connectionString: string
    var isOpen: bool

    constructor(providerInvariantName: string, connectionString: string)
      ensures this.providerInvariantName == providerInvariantName && this.connectionString == connectionString
      ensures !isOpen
    {
      this.providerInvariantName := providerInvariantName;
      this.connectionString := connectionString;
      isOpen := false;
    }
  }

  class NativeTransaction {
    const isolationLevel: int

    constructor(isolationLevel: int)
      ensures this.isolationLevel == isolationLevel
    {
      this.isolationLevel := isolationLevel;
    }
  }

  /// A driver parameter: its name and its value, None being null.
  datatype NativeParameter = NativeParameter(parameterName: string, value: Option<Value>)

  class NativeCommand {
    var connection: NativeConnection?
    var transaction: NativeTransaction?
    var commandText: string
    var parameters: seq<NativeParameter>

    constructor(connection: NativeConnection)
      ensures this.connection == connection && transaction == null && commandText == "" && parameters == []
    {
      this.connection := connection;
      transaction := null;
      commandText := "";
      parameters := [];
    }
  }

  /// What the driver sees of a command when it executes it.
  datatype CommandState = CommandState(commandText: string, transaction: NativeTransaction?, parameters: seq<NativeParameter>)

  /// One column of a reader row: name, database type name and value, None
  /// being DBNull.
  datatype Column = Column(name: string, dataTypeName: string, value: Option<Value>)

  /// A reader: the rows it yields in order, and the fault its next read
  /// throws after the last of them, if any (a fault with no rows is also how
  /// a failing ExecuteReader shows).
  datatype ReaderRun = ReaderRun(rows: seq<seq<Column>>, failure: Option<Fault>)

  /// The driver's outcomes.
  datatype Driver = Driver(
    hasFactory: string -> bool,
    createsConnection: string -> bool,
    openFault: (string, string) -> Option<Fault>,
    beginFault: int -> Option<Fault>,
    commitFault: NativeTransaction -> Option<Fault>,
    rollbackFault: NativeTransaction -> Option<Fault>,
    query: CommandState -> ReaderRun,
    nonQuery: CommandState -> Result<int, Fault>,
    reflect: (string, string) -> seq<(string, Option<Value>)>)
}
