// What survives the trip between the server and the clients: a fault
// captured by the server and thrown by a client, a column written by the
// server and read back by a client reader, and a command parameter built by
// the older client and rebuilt by the server.
module EndToEnd {
  import opened Wrappers
  import opened Codec
  import opened OrderedLists
  import Protocol
  import Properties
  import DataFields
  import DataParameters
  import NativeDriver
  import DatabaseServices
  import RemoteDataExceptions
  import GrpcDataReaders
  import LegacyGrpcParameterCollections
  import LegacyGrpcCommands

  /// Every non-null value is one the serializer writes as is.
  predicate Writable(c: Serializer, props: seq<(string, Option<Value>)>)
  {
    forall i :: 0 <= i < |props| && props[i].1.Some? ==> WritesAsIs(c, props[i].1.value)
  }

  // ---------------------------------------------------------------- faults

  /// The properties the server records and the client throws are those a
  /// local exception with the same properties would carry: null ones
  /// dropped, a later duplicate overwriting an earlier one.
  lemma {:induction false} CapturedThenThrown(c: Serializer, props: seq<(string, Option<Value>)>)
    requires Sound(c) && Writable(c, props)
    ensures RemoteDataExceptions.ThrownProperties(c, DatabaseServices.CapturedProperties(c, props)) ==
      RemoteDataExceptions.CollectedProperties(props)
  {
    if props != [] {
      var init := props[..|props| - 1];
      var p := props[|props| - 1];
      var last := DatabaseServices.CapturedProperty(c, p);
      assert Writable(c, init) by {
        forall i | 0 <= i < |init| && init[i].1.Some?
          ensures WritesAsIs(c, init[i].1.value)
        {
          assert init[i] == props[i];
        }
      }
      CapturedThenThrown(c, init);
      var captured := DatabaseServices.CapturedProperties(c, init);
      if p.1.Some? {
        Properties.RoundTrip(c, p.0, p.1.value);
        assert !Properties.IsNull(last);
        var whole := captured + [last.inner];
        assert whole[..|whole| - 1] == captured;
      } else {
        assert Properties.IsNull(last);
        assert DatabaseServices.CapturedProperties(c, props) == captured;
      }
    }
  }

  /// A fault the server reports is thrown by a client as the same failure
  /// the client builds from a local exception: class name, message and
  /// properties.
  lemma ServerFaultRaisedAsLocal(c: Serializer, fault: NativeDriver.Fault)
    requires Sound(c) && Writable(c, fault.properties)
    ensures RemoteDataExceptions.Raised(c, DatabaseServices.ExceptionOf(c, fault)) == RemoteDataExceptions.RaisedLocally(fault)
  {
    CapturedThenThrown(c, fault.properties);
  }

  /// Reading a thrown fault's properties by name gives the last non-null
  /// value the exception had under that name.
  lemma ThrownPropertyByName(c: Serializer, fault: NativeDriver.Fault, name: string)
    requires Sound(c) && Writable(c, fault.properties)
    ensures var thrown := RemoteDataExceptions.Raised(c, DatabaseServices.ExceptionOf(c, fault));
      Lookup(thrown.properties, name) == Lookup(RemoteDataExceptions.CollectedProperties(fault.properties), name)
  {
    CapturedThenThrown(c, fault.properties);
  }

  // ---------------------------------------------------------------- rows

  /// A column with a value the serializer writes as is reads back with its
  /// name, its data type name and its value. A DBNull column carries no
  /// type tag, so the client's merge resets the field: it reads back as a
  /// fresh field, nameless and null.
  lemma ColumnReadBack(c: Serializer, column: NativeDriver.Column)
    requires Sound(c)
    ensures column.value.Some? && WritesAsIs(c, column.value.value) ==>
      var f := DataFields.Unpack(c, DatabaseServices.GetField(c, column));
      f.value == column.value && f.inner.name == column.name && f.inner.dataTypeName == column.dataTypeName
    ensures column.value.None? ==> DataFields.Unpack(c, DatabaseServices.GetField(c, column)) == DataFields.Fresh()
  {
    if column.value.Some? && WritesAsIs(c, column.value.value) {
      DataFields.RoundTrip(c, column.name, column.value.value, column.dataTypeName);
    }
  }

  /// Every column of a row with writable values reads back in place.
  lemma RowReadBack(c: Serializer, columns: seq<NativeDriver.Column>)
    requires Sound(c)
    requires forall k :: 0 <= k < |columns| && columns[k].value.Some? ==> WritesAsIs(c, columns[k].value.value)
    ensures var items := GrpcDataReaders.Unpacked(c, DatabaseServices.RowOf(c, columns));
      |items| == |columns| &&
      forall k :: 0 <= k < |columns| && columns[k].value.Some? ==>
        items[k].value == columns[k].value && items[k].inner.name == columns[k].name
  {
    forall k | 0 <= k < |columns|
      ensures columns[k].value.Some? ==>
        DataFields.Unpack(c, DatabaseServices.GetField(c, columns[k])).value == columns[k].value &&
        DataFields.Unpack(c, DatabaseServices.GetField(c, columns[k])).inner.name == columns[k].name
    {
      ColumnReadBack(c, columns[k]);
    }
  }

  /// A fault-free query read through ExecuteQuerySync: the (n+1)-th Read
  /// returns row n of the native reader, value for value.
  lemma BufferedQueryReadBack(c: Serializer, run: NativeDriver.ReaderRun, n: nat)
    requires Sound(c) && run.failure.None? && n < |run.rows|
    requires forall k :: 0 <= k < |run.rows[n]| && run.rows[n][k].value.Some? ==> WritesAsIs(c, run.rows[n][k].value.value)
    ensures var source := GrpcDataReaders.Buffered(DatabaseServices.SyncResponseOf(c, run, false));
      var step := GrpcDataReaders.ReadStep(c, source, GrpcDataReaders.Reads(c, source, n));
      step.result == Ok(true) && |step.after.items| == |run.rows[n]| &&
      forall k :: 0 <= k < |run.rows[n]| && run.rows[n][k].value.Some? ==> step.after.items[k].value == run.rows[n][k].value
  {
    var response := DatabaseServices.SyncResponseOf(c, run, false);
    assert response.rows[n] == DatabaseServices.RowOf(c, run.rows[n]);
    GrpcDataReaders.BufferedRowsInOrder(c, response, n);
    RowReadBack(c, run.rows[n]);
  }

  /// The same query read through ExecuteQuery: the (n+1)-th ReadAsync
  /// returns row n of the native reader, value for value.
  lemma StreamedQueryReadBack(c: Serializer, run: NativeDriver.ReaderRun, n: nat)
    requires Sound(c) && run.failure.None? && n < |run.rows|
    requires forall k :: 0 <= k < |run.rows[n]| && run.rows[n][k].value.Some? ==> WritesAsIs(c, run.rows[n][k].value.value)
    ensures var source := GrpcDataReaders.Streamed(DatabaseServices.StreamOf(c, run, false));
      var step := GrpcDataReaders.ReadAsyncStep(c, source, GrpcDataReaders.AsyncReads(c, source, n));
      step.result == Ok(true) && |step.after.items| == |run.rows[n]| &&
      forall k :: 0 <= k < |run.rows[n]| && run.rows[n][k].value.Some? ==> step.after.items[k].value == run.rows[n][k].value
  {
    var messages := DatabaseServices.StreamOf(c, run, false);
    assert |messages| == |run.rows|;
    assert forall k :: 0 <= k < |messages| ==> messages[k] == Protocol.ExecuteQueryResponse(DatabaseServices.RowOf(c, run.rows[k]), None);
    GrpcDataReaders.StreamedMessagesInOrder(c, messages, n);
    RowReadBack(c, run.rows[n]);
  }

  // ---------------------------------------------------------------- parameters

  /// The native parameter a client parameter becomes: its name, and its
  /// value, a null one turned into a bare object on the way.
  function Arrived(p: LegacyGrpcParameterCollections.GrpcParameter): NativeDriver.NativeParameter
  {
    NativeDriver.NativeParameter(p.parameterName, Some(LegacyGrpcCommands.ValueOrPlaceholder(p.value)))
  }

  /// One named parameter with a writable value arrives as itself.
  lemma ParameterArrives(c: Serializer, p: LegacyGrpcParameterCollections.GrpcParameter)
    requires Sound(c) && p.parameterName != "" && WritesAsIs(c, LegacyGrpcCommands.ValueOrPlaceholder(p.value))
    ensures DatabaseServices.RebuiltParameter(c, LegacyGrpcCommands.WireParameter(c, p)) == [Arrived(p)]
  {
    DataParameters.RoundTrip(c, p.parameterName, LegacyGrpcCommands.ValueOrPlaceholder(p.value));
  }

  /// Named parameters whose values the serializer writes as is reach the
  /// server's command in order, each with its name and value; a null value
  /// arrives as a bare object, not as null.
  lemma ParametersReachServer(c: Serializer, ps: seq<LegacyGrpcParameterCollections.GrpcParameter>)
    requires Sound(c)
    requires forall i :: 0 <= i < |ps| ==> ps[i].parameterName != "" && WritesAsIs(c, LegacyGrpcCommands.ValueOrPlaceholder(ps[i].value))
    ensures var rebuilt := DatabaseServices.RebuiltParameters(c, LegacyGrpcCommands.WireParameters(c, ps));
      |rebuilt| == |ps| && forall i :: 0 <= i < |ps| ==> rebuilt[i] == Arrived(ps[i])
  {
    var wires := LegacyGrpcCommands.WireParameters(c, ps);
    forall i | 0 <= i < |ps|
      ensures DatabaseServices.RebuiltParameter(c, wires[i]) == [Arrived(ps[i])]
    {
      ParameterArrives(c, ps[i]);
    }
    DatabaseServices.RebuiltOnePerWire(c, wires);
  }
}
