// The gateway's server: a table from connection identifier to session and
// the ten remote operations over it. Identifiers the server generates are
// parameters (fresh by assumption, as GUIDs are); the native driver is the
// Driver record; cancellation is a flag checked after each read.
module DatabaseServices {
  import opened Wrappers
  import opened Codec
  import opened OrderedLists
  import opened NativeDriver
  import opened Protocol
  import opened DatabaseConnections
  import DataFields
  import DataParameters
  import Properties
  import IsolationLevelConverter

  // ---------------------------------------------------------------- faults

  /// What a captured exception property becomes: a Property with its name,
  /// and its value assigned only when it is not null.
  function CapturedProperty(c: Serializer, p: (string, Option<Value>)): Properties.PropertyState
  {
    if p.1.Some? then Properties.Described(c, p.0, p.1.value) else Properties.WithName(Properties.Fresh(), p.0)
  }

  /// A property is kept when its value is non-null and serializable.
  predicate Kept(c: Serializer, p: (string, Option<Value>))
  {
    p.1.Some? && c.encode(p.1.value).Some?
  }

  /// The properties of a fault as CreateException records them, in order.
  function CapturedProperties(c: Serializer, props: seq<(string, Option<Value>)>): seq<Properties.InnerProperty>
  {
    if props == [] then []
    else
      var last := CapturedProperty(c, props[|props| - 1]);
      CapturedProperties(c, props[..|props| - 1]) + (if Properties.IsNull(last) then [] else [last.inner])
  }

  /// Exactly the kept properties are recorded, each with its own name.
  lemma CapturedPropertyShape(c: Serializer, p: (string, Option<Value>))
    ensures !Properties.IsNull(CapturedProperty(c, p)) <==> Kept(c, p)
    ensures Kept(c, p) ==> CapturedProperty(c, p).inner.name == p.0 && CapturedProperty(c, p).inner.typeTag == TypeName(p.1.value)
  {
  }

  /// Capturing distributes over concatenation, so the recorded properties
  /// keep the order of the exception's properties.
  lemma {:induction false} CapturedConcat(c: Serializer, a: seq<(string, Option<Value>)>, b: seq<(string, Option<Value>)>)
    ensures CapturedProperties(c, a + b) == CapturedProperties(c, a) + CapturedProperties(c, b)
    decreases |b|
  {
    if b == [] {
      assert a + b == a;
    } else {
      var b' := b[..|b| - 1];
      assert (a + b)[..|a + b| - 1] == a + b';
      assert (a + b)[|a + b| - 1] == b[|b| - 1];
      CapturedConcat(c, a, b');
    }
  }

  /// Every recorded property comes from a kept exception property, and
  /// their number is that of the kept ones.
  lemma {:induction false} CapturedAreKept(c: Serializer, props: seq<(string, Option<Value>)>)
    ensures |CapturedProperties(c, props)| <= |props|
    ensures forall q :: q in CapturedProperties(c, props) ==>
      exists i :: 0 <= i < |props| && Kept(c, props[i]) && q == CapturedProperty(c, props[i]).inner
    ensures (forall i :: 0 <= i < |props| ==> !Kept(c, props[i])) ==> CapturedProperties(c, props) == []
  {
    if props != [] {
      var init := props[..|props| - 1];
      CapturedAreKept(c, init);
      CapturedPropertyShape(c, props[|props| - 1]);
      forall q | q in CapturedProperties(c, props)
        ensures exists i :: 0 <= i < |props| && Kept(c, props[i]) && q == CapturedProperty(c, props[i]).inner
      {
        if q in CapturedProperties(c, init) {
          var i :| 0 <= i < |init| && Kept(c, init[i]) && q == CapturedProperty(c, init[i]).inner;
          assert props[i] == init[i];
        } else {
          assert Kept(c, props[|props| - 1]);
        }
      }
    }
  }

  /// The wire form of an exception: class name, message, kept properties.
  function ExceptionOf(c: Serializer, fault: Fault): DataException
  {
    DataException(fault.className, fault.message, CapturedProperties(c, fault.properties))
  }

  /// CreateException: one Property per reflected property, kept unless null.
  method CreateException(c: Serializer, fault: Fault) returns (e: DataException)
    ensures e == ExceptionOf(c, fault)
    ensures e.className == fault.className && e.message == fault.message
  {
    var props: seq<Properties.InnerProperty> := [];
    var i := 0;
    while i < |fault.properties|
      invariant 0 <= i <= |fault.properties|
      invariant props == CapturedProperties(c, fault.properties[..i])
    {
      var name, val := fault.properties[i].0, fault.properties[i].1;
      var p := new Properties.Property();
      p.SetName(name);
      if val.Some? {
        p.SetValue(c, val.value);
      }
      if !p.IsNullProperty() {
        props := props + [p.inner];
      }
      assert fault.properties[..i + 1][..i] == fault.properties[..i];
      i := i + 1;
    }
    assert fault.properties[..i] == fault.properties;
    e := DataException(fault.className, fault.message, props);
  }

  /// The exception OpenConnection reports when no connection can be created.
  function NoConnectionFault(driver: Driver, providerInvariantName: string): Fault
  {
    var className := "System.InvalidOperationException";
    var message := "Unable to get the connection for the provider " + providerInvariantName + ".";
    Fault(className, message, driver.reflect(className, message))
  }

  // ---------------------------------------------------------------- rows

  /// GetField: one reader column as a DataField record. A DBNull column
  /// carries only its name and its data type name.
  function GetField(c: Serializer, column: Column): (r: DataFields.InnerField)
    ensures column.value.None? ==> r == DataFields.InnerField(column.name, [], "", column.dataTypeName)
    ensures column.value.Some? && c.encode(column.value.value).Some? ==>
      r.name == column.name && r.dataTypeName == column.dataTypeName &&
      r.typeTag == TypeName(c.encode(column.value.value).value.serialized) && r.content == c.encode(column.value.value).value.content
    ensures column.value.Some? && c.encode(column.value.value).None? ==> r == DataFields.InnerField("", [], "", column.dataTypeName)
  {
    if column.value.Some? then DataFields.Described(c, column.name, column.value.value, column.dataTypeName).inner
    else DataFields.WithDataTypeName(DataFields.WithName(DataFields.Fresh(), column.name), column.dataTypeName).inner
  }

  /// One row, fields in ordinal order.
  function RowOf(c: Serializer, columns: seq<Column>): (r: seq<DataFields.InnerField>)
  {
    seq(|columns|, i requires 0 <= i < |columns| => GetField(c, columns[i]))
  }

  function RowsOf(c: Serializer, rows: seq<seq<Column>>): seq<seq<DataFields.InnerField>>
  {
    seq(|rows|, i requires 0 <= i < |rows| => RowOf(c, rows[i]))
  }

  /// The inner loop over `FieldCount`, building each field as an object
  /// initializer does: Name, then Value unless DBNull, then DataTypeName.
  method BuildRow(c: Serializer, columns: seq<Column>) returns (fields: seq<DataFields.InnerField>)
    ensures |fields| == |columns|
    ensures forall i :: 0 <= i < |columns| ==> fields[i] == GetField(c, columns[i])
  {
    fields := [];
    var i := 0;
    while i < |columns|
      invariant 0 <= i <= |columns|
      invariant |fields| == i
      invariant forall j :: 0 <= j < i ==> fields[j] == GetField(c, columns[j])
    {
      var field := new DataFields.DataField();
      field.SetName(columns[i].name);
      if columns[i].value.Some? {
        field.SetValue(c, columns[i].value.value);
      }
      field.SetDataTypeName(columns[i].dataTypeName);
      fields := fields + [field.inner];
      i := i + 1;
    }
  }

  /// The rows the read loop delivers: `ReadAsync` runs before the
  /// cancellation check, so a cancelled call delivers none.
  function Delivered(run: ReaderRun, cancelled: bool): seq<seq<Column>>
  {
    if cancelled then [] else run.rows
  }

  /// Whether the read loop reaches the read that throws.
  predicate Faulted(run: ReaderRun, cancelled: bool)
  {
    run.failure.Some? && (!cancelled || run.rows == [])
  }

  /// ExecuteQuerySync's answer for a resolved command.
  function SyncResponseOf(c: Serializer, run: ReaderRun, cancelled: bool): ExecuteQuerySyncResponse
  {
    if Faulted(run, cancelled) then ExecuteQuerySyncResponse([], Some(ExceptionOf(c, run.failure.value)))
    else ExecuteQuerySyncResponse(RowsOf(c, Delivered(run, cancelled)), None)
  }

  /// ExecuteQuery's messages for a resolved command.
  function StreamOf(c: Serializer, run: ReaderRun, cancelled: bool): seq<ExecuteQueryResponse>
  {
    var rows := Delivered(run, cancelled);
    seq(|rows|, i requires 0 <= i < |rows| => ExecuteQueryResponse(RowOf(c, rows[i]), None)) +
    (if Faulted(run, cancelled) then [ExecuteQueryResponse([], Some(ExceptionOf(c, run.failure.value)))] else [])
  }

  /// The two query modes report the same thing: without a fault the stream
  /// is the buffered rows one per message; with one, the buffered response
  /// holds only the fault and the stream ends with it.
  lemma StreamMatchesBuffered(c: Serializer, run: ReaderRun, cancelled: bool)
    ensures var sync, stream := SyncResponseOf(c, run, cancelled), StreamOf(c, run, cancelled);
      sync.dataException.None? ==>
        |stream| == |sync.rows| &&
        forall i :: 0 <= i < |stream| ==> stream[i] == ExecuteQueryResponse(sync.rows[i], None)
    ensures var sync, stream := SyncResponseOf(c, run, cancelled), StreamOf(c, run, cancelled);
      sync.dataException.Some? ==>
        sync.rows == [] && |stream| >= 1 &&
        stream[|stream| - 1] == ExecuteQueryResponse([], sync.dataException) &&
        forall i :: 0 <= i < |stream| - 1 ==> stream[i].dataException.None?
  {
  }

  /// The stream is its row messages followed by the fault, if any.
  lemma StreamFrom(c: Serializer, run: ReaderRun, cancelled: bool, rowMessages: seq<ExecuteQueryResponse>)
    requires |rowMessages| == |Delivered(run, cancelled)|
    requires forall j :: 0 <= j < |rowMessages| ==> rowMessages[j] == ExecuteQueryResponse(RowOf(c, Delivered(run, cancelled)[j]), None)
    ensures StreamOf(c, run, cancelled) ==
      rowMessages + (if Faulted(run, cancelled) then [ExecuteQueryResponse([], Some(ExceptionOf(c, run.failure.value)))] else [])
  {
  }

  /// A cancelled query delivers no rows, only a fault when the very first
  /// read throws.
  lemma CancelledQueryDeliversNoRows(c: Serializer, run: ReaderRun)
    ensures SyncResponseOf(c, run, true).rows == []
    ensures SyncResponseOf(c, run, true).dataException.Some? <==> run.failure.Some? && run.rows == []
  {
  }

  // ---------------------------------------------------------------- parameters

  /// AddParameter for one request parameter: unpacked, skipped when its
  /// name is empty, and passed as null when the envelope is null.
  function RebuiltParameter(c: Serializer, wire: DataParameters.InnerParameter): seq<NativeParameter>
  {
    var p := DataParameters.Unpack(c, wire);
    if p.inner.name == "" then [] else [NativeParameter(p.inner.name, if !DataParameters.IsNull(p) then p.value else None)]
  }

  /// The command's parameter list after it is cleared and rebuilt.
  function RebuiltParameters(c: Serializer, wires: seq<DataParameters.InnerParameter>): seq<NativeParameter>
  {
    if wires == [] then [] else RebuiltParameters(c, wires[..|wires| - 1]) + RebuiltParameter(c, wires[|wires| - 1])
  }

  /// The parameters rebuilt from the first `n` request parameters.
  function RebuiltPrefix(c: Serializer, wires: seq<DataParameters.InnerParameter>, n: nat): seq<NativeParameter>
    requires n <= |wires|
  {
    if n == 0 then [] else RebuiltPrefix(c, wires, n - 1) + RebuiltParameter(c, wires[n - 1])
  }

  /// Rebuilding a prefix by count is rebuilding the prefix itself.
  lemma {:induction false} RebuiltPrefixIsRebuilt(c: Serializer, wires: seq<DataParameters.InnerParameter>, n: nat)
    requires n <= |wires|
    ensures RebuiltPrefix(c, wires, n) == RebuiltParameters(c, wires[..n])
  {
    if n > 0 {
      RebuiltPrefixIsRebuilt(c, wires, n - 1);
      assert wires[..n][..n - 1] == wires[..n - 1];
    }
  }

  /// Rebuilding keeps request order: it distributes over concatenation.
  lemma {:induction false} RebuiltConcat(c: Serializer, a: seq<DataParameters.InnerParameter>, b: seq<DataParameters.InnerParameter>)
    ensures RebuiltParameters(c, a + b) == RebuiltParameters(c, a) + RebuiltParameters(c, b)
    decreases |b|
  {
    if b == [] {
      assert a + b == a;
    } else {
      var b' := b[..|b| - 1];
      assert (a + b)[..|a + b| - 1] == a + b';
      assert (a + b)[|a + b| - 1] == b[|b| - 1];
      RebuiltConcat(c, a, b');
    }
  }

  /// When every request parameter yields exactly one native parameter, the
  /// rebuilt list lines up with the request, index for index.
  lemma {:induction false} RebuiltOnePerWire(c: Serializer, wires: seq<DataParameters.InnerParameter>)
    requires forall i :: 0 <= i < |wires| ==> |RebuiltParameter(c, wires[i])| == 1
    ensures |RebuiltParameters(c, wires)| == |wires|
    ensures forall i :: 0 <= i < |wires| ==> RebuiltParameters(c, wires)[i] == RebuiltParameter(c, wires[i])[0]
  {
    if wires != [] {
      var init := wires[..|wires| - 1];
      assert forall i :: 0 <= i < |init| ==> init[i] == wires[i];
      RebuiltOnePerWire(c, init);
      var before := RebuiltParameters(c, init);
      var last := RebuiltParameter(c, wires[|wires| - 1]);
      assert RebuiltParameters(c, wires) == before + last;
      assert |last| == 1;
    }
  }

  /// No rebuilt parameter has an empty name, there are never more of them
  /// than in the request, and each carries its envelope's value.
  lemma {:induction false} RebuiltAreNamed(c: Serializer, wires: seq<DataParameters.InnerParameter>)
    ensures |RebuiltParameters(c, wires)| <= |wires|
    ensures forall q :: q in RebuiltParameters(c, wires) ==>
      q.parameterName != "" &&
      exists i :: 0 <= i < |wires| && q == NativeParameter(DataParameters.Unpack(c, wires[i]).inner.name, DataParameters.Unpack(c, wires[i]).value)
  {
    if wires != [] {
      var init := wires[..|wires| - 1];
      RebuiltAreNamed(c, init);
      forall q | q in RebuiltParameters(c, wires)
        ensures q.parameterName != "" &&
          exists i :: 0 <= i < |wires| && q == NativeParameter(DataParameters.Unpack(c, wires[i]).inner.name, DataParameters.Unpack(c, wires[i]).value)
      {
        if q in RebuiltParameters(c, init) {
          var i :| 0 <= i < |init| && q == NativeParameter(DataParameters.Unpack(c, init[i]).inner.name, DataParameters.Unpack(c, init[i]).value);
          assert wires[i] == init[i];
        } else {
          assert q in RebuiltParameter(c, wires[|wires| - 1]);
        }
      }
    }
  }

  /// ExecuteNonQuery's answer for a resolved command.
  function NonQueryResponseOf(c: Serializer, outcome: Result<int, Fault>): (r: ExecuteNonQueryResponse)
    ensures outcome.Ok? ==> r.dataException.None? && r.rowsAffected == outcome.value
    ensures outcome.Err? ==> r.dataException == Some(ExceptionOf(c, outcome.error)) && r.rowsAffected == 0
  {
    match outcome
    case Ok(n) => ExecuteNonQueryResponse(n, None)
    case Err(f) => ExecuteNonQueryResponse(0, Some(ExceptionOf(c, f)))
  }

  /// The foreach over the request's parameters: each is unpacked and
  /// added to the command unless its name is empty, in request order.
  method AddParameters(c: Serializer, command: NativeCommand, wires: seq<DataParameters.InnerParameter>)
    modifies command
    ensures command.parameters == old(command.parameters) + RebuiltParameters(c, wires)
    ensures command.connection == old(command.connection) && command.transaction == old(command.transaction)
    ensures command.commandText == old(command.commandText)
  {
    var i := 0;
    while i < |wires|
      invariant 0 <= i <= |wires|
      invariant command.parameters == old(command.parameters) + RebuiltPrefix(c, wires, i)
      invariant command.connection == old(command.connection) && command.transaction == old(command.transaction)
      invariant command.commandText == old(command.commandText)
    {
      var p := DataParameters.FromAny(c, wires[i]);
      if p.Name() != "" {
        command.parameters := command.parameters + [NativeParameter(p.Name(), if !p.IsNullParameter() then p.value else None)];
      }
      i := i + 1;
    }
    RebuiltPrefixIsRebuilt(c, wires, i);
    assert wires[..i] == wires;
  }

  /// ExecuteQuery's read loop: one message per row read before the call is
  /// cancelled, then a message carrying the fault if a read throws.
  method StreamRows(c: Serializer, run: ReaderRun, cancelled: bool) returns (written: seq<ExecuteQueryResponse>)
    ensures written == StreamOf(c, run, cancelled)
  {
    written := [];
    var k := 0;
    while k < |run.rows| && !cancelled
      invariant 0 <= k <= |run.rows|
      invariant cancelled ==> k == 0
      invariant |written| == k
      invariant forall j :: 0 <= j < k ==> written[j] == ExecuteQueryResponse(RowOf(c, run.rows[j]), None)
    {
      var fields := BuildRow(c, run.rows[k]);
      written := written + [ExecuteQueryResponse(fields, None)];
      k := k + 1;
    }
    StreamFrom(c, run, cancelled, written);
    if run.failure.Some? && k == |run.rows| {
      var e := CreateException(c, run.failure.value);
      written := written + [ExecuteQueryResponse([], Some(e))];
    }
  }

  /// ExecuteQuerySync's read loop: every row read before the call is
  /// cancelled, or only the fault if a read throws.
  method BufferRows(c: Serializer, run: ReaderRun, cancelled: bool) returns (response: ExecuteQuerySyncResponse)
    ensures response == SyncResponseOf(c, run, cancelled)
  {
    var rows: seq<seq<DataFields.InnerField>> := [];
    var k := 0;
    while k < |run.rows| && !cancelled
      invariant 0 <= k <= |run.rows|
      invariant cancelled ==> k == 0
      invariant |rows| == k
      invariant forall j :: 0 <= j < k ==> rows[j] == RowOf(c, run.rows[j])
    {
      var fields := BuildRow(c, run.rows[k]);
      rows := rows + [fields];
      k := k + 1;
    }
    if run.failure.Some? && k == |run.rows| {
      var e := CreateException(c, run.failure.value);
      return ExecuteQuerySyncResponse([], Some(e));
    }
    response := ExecuteQuerySyncResponse(rows, None);
  }

  // ---------------------------------------------------------------- service

  class DatabaseService {
    var clients: map<string, DatabaseConnection>

    constructor()
      ensures clients == map[]
    {
      clients := map[];
    }

    /// Every session keeps its identifiers unique.
    predicate Valid()
      reads this, clients.Values
    {
      forall s :: s in clients.Values ==> s.Valid()
    }

    /// The session an operation on this connection identifier may change.
    function Session(connectionIdentifier: string): set<object>
      reads this
    {
      if connectionIdentifier in clients then {clients[connectionIdentifier]} else {}
    }

    /// The connection, transaction and command of a request all resolve.
    predicate Resolves(request: ExecuteQueryRequest)
      reads this, clients.Values
    {
      request.connectionIdentifier in clients &&
      clients[request.connectionIdentifier].GetTransaction(request.transactionIdentifier) != null &&
      clients[request.connectionIdentifier].GetCommand(request.commandIdentifier) != null
    }

    /// The command an execution request names, if it resolves.
    function Target(request: ExecuteQueryRequest): set<object?>
      reads this, clients.Values
    {
      if Resolves(request) then {clients[request.connectionIdentifier].GetCommand(request.commandIdentifier)} else {}
    }

    /// What the driver sees when it runs the resolved command.
    function StateFor(c: Serializer, request: ExecuteQueryRequest): CommandState
      reads this, clients.Values
      requires Resolves(request)
    {
      CommandState(request.query, clients[request.connectionIdentifier].GetTransaction(request.transactionIdentifier),
        RebuiltParameters(c, request.parameters))
    }

    method OpenConnection(driver: Driver, c: Serializer, peer: string, request: OpenConnectionRequest, freshIdentifier: string)
      returns (response: OpenConnectionResponse)
      requires freshIdentifier !in clients && freshIdentifier != ""
      modifies this
      ensures var p := request.providerInvariantName;
        if !driver.hasFactory(p) || !driver.createsConnection(p) then
          response == OpenConnectionResponse(peer, "", Some(ExceptionOf(c, NoConnectionFault(driver, p)))) && clients == old(clients)
        else if driver.openFault(p, request.connectionString).Some? then
          response == OpenConnectionResponse(peer, "", Some(ExceptionOf(c, driver.openFault(p, request.connectionString).value))) &&
          clients == old(clients)
        else
          response == OpenConnectionResponse(peer, freshIdentifier, None) &&
          freshIdentifier in clients && clients == old(clients)[freshIdentifier := clients[freshIdentifier]] &&
          fresh(clients[freshIdentifier]) && fresh(clients[freshIdentifier].connection) &&
          clients[freshIdentifier].connection.isOpen && clients[freshIdentifier].connection.providerInvariantName == p &&
          clients[freshIdentifier].connection.connectionString == request.connectionString &&
          clients[freshIdentifier].commands == [] && clients[freshIdentifier].transactions == []
      ensures old(Valid()) ==> Valid()
    {
      var p := request.providerInvariantName;
      if !driver.hasFactory(p) || !driver.createsConnection(p) {
        var e := CreateException(c, NoConnectionFault(driver, p));
        return OpenConnectionResponse(peer, "", Some(e));
      }
      var connection := new NativeConnection(p, request.connectionString);
      var fault := driver.openFault(p, request.connectionString);
      if fault.Some? {
        var e := CreateException(c, fault.value);
        return OpenConnectionResponse(peer, "", Some(e));
      }
      connection.isOpen := true;
      var session := new DatabaseConnection(connection);
      clients := clients[freshIdentifier := session];
      response := OpenConnectionResponse(peer, freshIdentifier, None);
    }

    /// Removes the session and closes its native connection; an unknown
    /// identifier changes nothing. The reply is always empty.
    method CloseConnection(request: CloseConnectionRequest)
      modifies this, if request.connectionIdentifier in clients then {clients[request.connectionIdentifier].connection} else {}
      ensures clients == old(clients) - {request.connectionIdentifier}
      ensures request.connectionIdentifier in old(clients) ==> !old(clients)[request.connectionIdentifier].connection.isOpen
      ensures old(Valid()) ==> Valid()
    {
      var id := request.connectionIdentifier;
      if id in clients {
        var session := clients[id];
        clients := clients - {id};
        session.connection.isOpen := false;
      }
    }

    /// Creates a native command on the session and registers it under a
    /// fresh identifier; an unknown connection gets the default response.
    method CreateCommand(request: CreateCommandRequest, freshIdentifier: string) returns (response: CreateCommandResponse)
      requires freshIdentifier != ""
      requires request.connectionIdentifier in clients ==> clients[request.connectionIdentifier].GetCommand(freshIdentifier) == null
      modifies Session(request.connectionIdentifier)
      ensures clients == old(clients)
      ensures request.connectionIdentifier !in clients ==> response == CreateCommandResponse("")
      ensures request.connectionIdentifier in clients ==>
        var s := clients[request.connectionIdentifier];
        response == CreateCommandResponse(freshIdentifier) &&
        |s.commands| == |old(s.commands)| + 1 && s.commands[..|old(s.commands)|] == old(s.commands) &&
        s.commands[|old(s.commands)|].0 == freshIdentifier && fresh(s.commands[|old(s.commands)|].1) &&
        s.commands[|old(s.commands)|].1.connection == s.connection && s.GetCommand(freshIdentifier) == s.commands[|old(s.commands)|].1 &&
        s.transactions == old(s.transactions)
      ensures old(Valid()) ==> Valid()
    {
      var id := request.connectionIdentifier;
      if id !in clients {
        return CreateCommandResponse("");
      }
      var session := clients[id];
      var command := new NativeCommand(session.connection);
      session.AddCommand(freshIdentifier, command);
      response := CreateCommandResponse(freshIdentifier);
      if old(Valid()) {
        forall other | other in clients.Values
          ensures other.Valid()
        {
          if other != session {
            assert old(other.Valid());
          }
        }
      }
    }

    /// Disposes and removes a command; an unknown connection or command
    /// changes nothing. The reply is always empty.
    method DestroyCommand(request: DestroyCommandRequest)
      modifies Session(request.connectionIdentifier)
      ensures clients == old(clients)
      ensures request.connectionIdentifier in clients ==>
        clients[request.connectionIdentifier].commands == RemoveFirst(old(clients[request.connectionIdentifier].commands), request.commandIdentifier) &&
        clients[request.connectionIdentifier].transactions == old(clients[request.connectionIdentifier].transactions)
      ensures old(Valid()) ==> Valid()
    {
      var id := request.connectionIdentifier;
      if id !in clients {
        return;
      }
      clients[id].DestroyCommand(request.commandIdentifier);
    }

    /// Begins a native transaction at the converted isolation level and
    /// registers it under a fresh identifier. A driver that throws makes the
    /// call itself fail (Err), with nothing registered.
    method BeginTransaction(driver: Driver, request: BeginTransactionRequest, freshIdentifier: string)
      returns (response: Result<BeginTransactionResponse, Fault>)
      requires freshIdentifier != ""
      requires request.connectionIdentifier in clients ==> clients[request.connectionIdentifier].GetTransaction(freshIdentifier) == null
      modifies Session(request.connectionIdentifier)
      ensures clients == old(clients)
      ensures request.connectionIdentifier !in clients ==> response == Ok(BeginTransactionResponse(""))
      ensures request.connectionIdentifier in clients ==>
        var s := clients[request.connectionIdentifier];
        var level := IsolationLevelConverter.ToNative(request.isolationLevel);
        s.commands == old(s.commands) &&
        (driver.beginFault(level).Some? ==> response == Err(driver.beginFault(level).value) && s.transactions == old(s.transactions))
      ensures request.connectionIdentifier in clients ==>
        var s := clients[request.connectionIdentifier];
        var level := IsolationLevelConverter.ToNative(request.isolationLevel);
        driver.beginFault(level).None? ==>
          response == Ok(BeginTransactionResponse(freshIdentifier)) &&
          |s.transactions| == |old(s.transactions)| + 1 && s.transactions[..|old(s.transactions)|] == old(s.transactions) &&
          s.transactions[|old(s.transactions)|].0 == freshIdentifier && fresh(s.transactions[|old(s.transactions)|].1) &&
          s.transactions[|old(s.transactions)|].1.isolationLevel == level
      ensures old(Valid()) ==> Valid()
    {
      var id := request.connectionIdentifier;
      if id !in clients {
        return Ok(BeginTransactionResponse(""));
      }
      var session := clients[id];
      var level := IsolationLevelConverter.ToNative(request.isolationLevel);
      var fault := driver.beginFault(level);
      if fault.Some? {
        return Err(fault.value);
      }
      var transaction := new NativeTransaction(level);
      session.AddTransaction(freshIdentifier, transaction);
      response := Ok(BeginTransactionResponse(freshIdentifier));
      if old(Valid()) {
        forall other | other in clients.Values
          ensures other.Valid()
        {
          if other != session {
            assert old(other.Valid());
          }
        }
      }
    }

    /// Commits and removes the transaction. When the commit throws, the
    /// transaction is destroyed anyway and the fault is returned as data.
    method CommitTransaction(driver: Driver, c: Serializer, request: TransactionRequest) returns (response: TransactionResponse)
      modifies Session(request.connectionIdentifier)
      ensures clients == old(clients)
      ensures request.connectionIdentifier !in clients ==> response == EmptyTransactionResponse
      ensures request.connectionIdentifier in clients ==>
        var s := clients[request.connectionIdentifier];
        var i := FindIndex(old(s.transactions), request.transactionIdentifier);
        s.transactions == RemoveFirst(old(s.transactions), request.transactionIdentifier) && s.commands == old(s.commands) &&
        response == (if i >= 0 && driver.commitFault(old(s.transactions)[i].1).Some?
          then TransactionResponse(Some(ExceptionOf(c, driver.commitFault(old(s.transactions)[i].1).value)))
          else EmptyTransactionResponse)
      ensures old(Valid()) && request.connectionIdentifier in clients ==>
        Valid() && clients[request.connectionIdentifier].GetTransaction(request.transactionIdentifier) == null
    {
      var id := request.connectionIdentifier;
      if id !in clients {
        return EmptyTransactionResponse;
      }
      var session := clients[id];
      var fault := session.CommitAndDestroy(driver, request.transactionIdentifier);
      if fault.None? {
        response := EmptyTransactionResponse;
      } else {
        session.Destroy(request.transactionIdentifier);
        var e := CreateException(c, fault.value);
        response := TransactionResponse(Some(e));
      }
      if old(Valid()) {
        forall other | other in clients.Values
          ensures other.Valid()
        {
          if other != session {
            assert old(other.Valid());
          }
        }
      }
    }

    /// Rolls back and removes the transaction; as CommitTransaction.
    method RollbackTransaction(driver: Driver, c: Serializer, request: TransactionRequest) returns (response: TransactionResponse)
      modifies Session(request.connectionIdentifier)
      ensures clients == old(clients)
      ensures request.connectionIdentifier !in clients ==> response == EmptyTransactionResponse
      ensures request.connectionIdentifier in clients ==>
        var s := clients[request.connectionIdentifier];
        var i := FindIndex(old(s.transactions), request.transactionIdentifier);
        s.transactions == RemoveFirst(old(s.transactions), request.transactionIdentifier) && s.commands == old(s.commands) &&
        response == (if i >= 0 && driver.rollbackFault(old(s.transactions)[i].1).Some?
          then TransactionResponse(Some(ExceptionOf(c, driver.rollbackFault(old(s.transactions)[i].1).value)))
          else EmptyTransactionResponse)
      ensures old(Valid()) && request.connectionIdentifier in clients ==>
        Valid() && clients[request.connectionIdentifier].GetTransaction(request.transactionIdentifier) == null
    {
      var id := request.connectionIdentifier;
      if id !in clients {
        return EmptyTransactionResponse;
      }
      var session := clients[id];
      var fault := session.RollbackAndDestroy(driver, request.transactionIdentifier);
      if fault.None? {
        response := EmptyTransactionResponse;
      } else {
        session.Destroy(request.transactionIdentifier);
        var e := CreateException(c, fault.value);
        response := TransactionResponse(Some(e));
      }
      if old(Valid()) {
        forall other | other in clients.Values
          ensures other.Valid()
        {
          if other != session {
            assert old(other.Valid());
          }
        }
      }
    }

    /// GetCommand(request): resolves connection, transaction and command,
    /// then binds the command to them, sets its text and rebuilds its
    /// parameters in request order.
    method ResolveCommand(c: Serializer, request: ExecuteQueryRequest) returns (command: NativeCommand?)
      modifies Target(request)
      ensures clients == old(clients)
      ensures forall s :: s in clients.Values ==> s.commands == old(s.commands) && s.transactions == old(s.transactions)
      ensures command == null <==> !Resolves(request)
      ensures command != null ==>
        var s := clients[request.connectionIdentifier];
        command == s.GetCommand(request.commandIdentifier) &&
        command.connection == s.connection && command.transaction == s.GetTransaction(request.transactionIdentifier) &&
        command.commandText == request.query && command.parameters == RebuiltParameters(c, request.parameters)
    {
      var id := request.connectionIdentifier;
      if id !in clients {
        return null;
      }
      var session := clients[id];
      var transaction := session.GetTransaction(request.transactionIdentifier);
      if transaction == null {
        return null;
      }
      command := session.GetCommand(request.commandIdentifier);
      if command == null {
        return;
      }
      command.connection := session.connection;
      command.transaction := transaction;
      command.commandText := request.query;
      command.parameters := [];
      AddParameters(c, command, request.parameters);
    }

    /// ExecuteQuery: the messages written to the response stream.
    method ExecuteQuery(driver: Driver, c: Serializer, request: ExecuteQueryRequest, cancelled: bool)
      returns (written: seq<ExecuteQueryResponse>)
      modifies Target(request)
      ensures clients == old(clients)
      ensures !Resolves(request) ==> written == []
      ensures Resolves(request) ==> written == StreamOf(c, driver.query(StateFor(c, request)), cancelled)
    {
      var command := ResolveCommand(c, request);
      if command == null {
        return [];
      }
      var run := driver.query(CommandState(command.commandText, command.transaction, command.parameters));
      written := StreamRows(c, run, cancelled);
    }

    /// ExecuteQuerySync: every row in one response, or only the fault.
    method ExecuteQuerySync(driver: Driver, c: Serializer, request: ExecuteQueryRequest, cancelled: bool)
      returns (response: ExecuteQuerySyncResponse)
      modifies Target(request)
      ensures clients == old(clients)
      ensures !Resolves(request) ==> response == ExecuteQuerySyncResponse([], None)
      ensures Resolves(request) ==> response == SyncResponseOf(c, driver.query(StateFor(c, request)), cancelled)
    {
      var command := ResolveCommand(c, request);
      if command == null {
        return ExecuteQuerySyncResponse([], None);
      }
      var run := driver.query(CommandState(command.commandText, command.transaction, command.parameters));
      response := BufferRows(c, run, cancelled);
    }

    /// ExecuteNonQuery: the affected-row count, or the fault.
    method ExecuteNonQuery(driver: Driver, c: Serializer, request: ExecuteQueryRequest) returns (response: ExecuteNonQueryResponse)
      modifies Target(request)
      ensures clients == old(clients)
      ensures !Resolves(request) ==> response == ExecuteNonQueryResponse(0, None)
      ensures Resolves(request) ==> response == NonQueryResponseOf(c, driver.nonQuery(StateFor(c, request)))
    {
      var command := ResolveCommand(c, request);
      if command == null {
        return ExecuteNonQueryResponse(0, None);
      }
      match driver.nonQuery(CommandState(command.commandText, command.transaction, command.parameters))
      case Ok(n) =>
        response := ExecuteNonQueryResponse(n, None);
      case Err(f) =>
        var e := CreateException(c, f);
        response := ExecuteNonQueryResponse(0, Some(e));
    }
  }
}
