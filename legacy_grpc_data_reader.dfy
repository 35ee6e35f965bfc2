// The older client's data reader. Reading works as in the newer reader, so
// its steps are GrpcDataReaders' ReadStep and ReadAsyncStep; the accessors
// differ: they index the List directly, so a bad ordinal throws
// ArgumentOutOfRangeException, and GetBytes answers 0 for a bad ordinal
// instead of throwing.
module LegacyGrpcDataReaders {
  import opened Wrappers
  import opened Codec
  import opened ClientFailures
  import DataFields
  import GrpcDataExceptions
  import opened GrpcDataReaders

  class GrpcDataReader {
    const source: Source
    var items: seq<DataFields.FieldState>
    var syncResponseIndex: nat
    var consumed: nat
    var isOpen: bool

    function State(): Cursor
      reads this
    {
      Cursor(items, syncResponseIndex, consumed, isOpen)
    }

    constructor(source: Source)
      ensures this.source == source && State() == Opened
    {
      this.source := source;
      items := [];
      syncResponseIndex := 0;
      consumed := 0;
      isOpen := true;
    }

    method LoadRow(c: Serializer, fields: seq<DataFields.InnerField>)
      modifies this
      ensures items == Unpacked(c, fields)
      ensures syncResponseIndex == old(syncResponseIndex) && consumed == old(consumed) && isOpen == old(isOpen)
    {
      items := [];
      var j := 0;
      while j < |fields|
        invariant 0 <= j <= |fields|
        invariant |items| == j && forall k :: 0 <= k < j ==> items[k] == DataFields.Unpack(c, fields[k])
        invariant syncResponseIndex == old(syncResponseIndex) && consumed == old(consumed) && isOpen == old(isOpen)
      {
        var f := new DataFields.DataField();
        f.MergeFrom(c, fields[j]);
        items := items + [f.State()];
        j := j + 1;
      }
    }

    method Read(c: Serializer) returns (r: Result<bool, Failure>)
      modifies this
      ensures Outcome(State(), r) == ReadStep(c, source, old(State()))
    {
      items := [];
      if !source.Buffered? {
        return Ok(false);
      }
      var response := source.response;
      if response.dataException.Some? {
        var thrown := GrpcDataExceptions.ThrowDataException(c, response.dataException.value);
        return Err(thrown);
      }
      if syncResponseIndex >= |response.rows| {
        return Ok(false);
      }
      LoadRow(c, response.rows[syncResponseIndex]);
      syncResponseIndex := syncResponseIndex + 1;
      r := Ok(true);
    }

    method ReadAsync(c: Serializer) returns (r: Result<bool, Failure>)
      modifies this
      ensures Outcome(State(), r) == ReadAsyncStep(c, source, old(State()))
    {
      items := [];
      if !source.Streamed? {
        return Ok(false);
      }
      if !isOpen {
        return Err(CallDisposed);
      }
      if consumed >= |source.messages| {
        return Ok(false);
      }
      var m := source.messages[consumed];
      consumed := consumed + 1;
      if m.dataException.Some? {
        var thrown := GrpcDataExceptions.ThrowDataException(c, m.dataException.value);
        return Err(thrown);
      }
      LoadRow(c, m.fields);
      r := Ok(true);
    }

    function FieldCount(): (n: nat)
      reads this
      ensures n == |items|
    {
      |items|
    }

    function IsClosed(): bool
      reads this
    {
      !isOpen
    }

    /// Close and CloseAsync: the streaming call is disposed and the reader
    /// reports itself closed; the current row and positions stay, and from
    /// now on ReadAsync on a streaming reader raises CallDisposed.
    method Close()
      modifies this
      ensures IsClosed()
      ensures items == old(items) && syncResponseIndex == old(syncResponseIndex) && consumed == old(consumed)
    {
      isOpen := false;
    }

    /// The indexer by position and GetValue.
    function GetValue(i: int): (r: Result<Option<Value>, Failure>)
      reads this
      ensures r.Ok? <==> 0 <= i < FieldCount()
      ensures r.Ok? ==> r.value == items[i].value
      ensures r.Err? ==> r.error == ArgumentOutOfRange
    {
      match ListItem(items, i)
      case Ok(item) => Ok(item.value)
      case Err(e) => Err(e)
    }

    /// The typed getters: the List's bounds check, then the cast.
    function GetAs(i: int, typeName: string): (r: Result<Value, Failure>)
      reads this
      ensures r.Ok? <==> 0 <= i < FieldCount() && items[i].value.Some? && TypeName(items[i].value.value) == typeName
      ensures r.Ok? ==> Some(r.value) == items[i].value
      ensures !(0 <= i < FieldCount()) ==> r == Err(ArgumentOutOfRange)
      ensures 0 <= i < FieldCount() && r.Err? ==> r.error == InvalidCast
    {
      match ListItem(items, i)
      case Ok(item) => Cast(item.value, typeName)
      case Err(e) => Err(e)
    }

    function GetName(i: int): (r: Result<string, Failure>)
      reads this
      ensures r.Ok? <==> 0 <= i < FieldCount()
      ensures r.Ok? ==> r.value == items[i].inner.name
      ensures r.Err? ==> r.error == ArgumentOutOfRange
    {
      match ListItem(items, i)
      case Ok(item) => Ok(item.inner.name)
      case Err(e) => Err(e)
    }

    function GetDataTypeName(i: int): (r: Result<string, Failure>)
      reads this
      ensures r.Ok? <==> 0 <= i < FieldCount()
      ensures r.Ok? ==> r.value == items[i].inner.dataTypeName
      ensures r.Err? ==> r.error == ArgumentOutOfRange
    {
      match ListItem(items, i)
      case Ok(item) => Ok(item.inner.dataTypeName)
      case Err(e) => Err(e)
    }

    function GetFieldType(i: int): (r: Result<string, Failure>)
      reads this
      ensures r.Ok? <==> 0 <= i < FieldCount()
      ensures r.Ok? ==> r.value == StoredTypeName(items[i].value)
      ensures r.Err? ==> r.error == ArgumentOutOfRange
    {
      match ListItem(items, i)
      case Ok(item) => Ok(StoredTypeName(item.value))
      case Err(e) => Err(e)
    }

    function IsDBNull(i: int): (r: Result<bool, Failure>)
      reads this
      ensures r.Ok? <==> 0 <= i < FieldCount()
      ensures r.Ok? ==> (r.value <==> items[i].value.None?)
      ensures r.Err? ==> r.error == ArgumentOutOfRange
    {
      match ListItem(items, i)
      case Ok(item) => Ok(DataFields.IsNull(item))
      case Err(e) => Err(e)
    }

    function GetOrdinal(name: string): (r: int)
      reads this
      ensures -1 <= r < FieldCount()
      ensures r >= 0 ==> items[r].inner.name == name && forall k :: 0 <= k < r ==> items[k].inner.name != name
      ensures r < 0 <==> forall k :: 0 <= k < |items| ==> items[k].inner.name != name
    {
      Ordinal(items, name)
    }

    function GetValueByName(name: string): (r: Option<Value>)
      reads this
      ensures GetOrdinal(name) >= 0 ==> r == items[GetOrdinal(name)].value
      ensures GetOrdinal(name) < 0 ==> r.None?
    {
      var k := Ordinal(items, name);
      if k >= 0 then items[k].value else DataFields.Fresh().value
    }

    function GetString(i: int): (r: Result<string, Failure>)
      reads this
      ensures !(0 <= i < FieldCount()) ==> r == Err(ArgumentOutOfRange)
      ensures 0 <= i < FieldCount() && items[i].value.None? ==> r == Ok("")
      ensures 0 <= i < FieldCount() && items[i].value.Some? && items[i].value.value.Text? ==> r == Ok(items[i].value.value.text)
      ensures 0 <= i < FieldCount() && items[i].value.Some? && !items[i].value.value.Text? ==> r == Err(InvalidCast)
    {
      match ListItem(items, i)
      case Err(e) => Err(e)
      case Ok(item) =>
        if DataFields.IsNull(item) then Ok("")
        else if item.value.value.Text? then Ok(item.value.value.text)
        else Err(InvalidCast)
    }

    method GetValues(values: array<Option<Value>>) returns (count: int)
      modifies values
      ensures count == Min(values.Length, |items|)
      ensures forall k :: 0 <= k < count ==> values[k] == items[k].value
      ensures forall k :: count <= k < values.Length ==> values[k] == old(values[k])
    {
      count := Min(values.Length, |items|);
      var i := 0;
      while i < count
        invariant 0 <= i <= count
        invariant forall k :: 0 <= k < i ==> values[k] == items[k].value
        invariant forall k :: i <= k < values.Length ==> values[k] == old(values[k])
      {
        values[i] := items[i].value;
        i := i + 1;
      }
    }

    /// GetBytes: 0 for a null buffer, a buffer with no room past
    /// bufferOffset, or a bad ordinal; otherwise as the newer reader,
    /// including its as-written count (GetBytesFromOffsetThrows).
    method GetBytes(i: int, fieldOffset: int, buffer: array?<bv8>, bufferOffset: int, length: int) returns (r: Result<int, Failure>)
      modifies buffer
      ensures r.Ok? ==> r.value >= 0
      ensures buffer == null || Int32Of(buffer.Length - bufferOffset) <= 0 || !(0 <= i < |items|) ==> r == Ok(0)
      ensures 0 <= i < |items| && buffer != null && Int32Of(buffer.Length - bufferOffset) > 0 && !IsBinary(items[i].value) ==>
        r == Err(InvalidCast)
      ensures 0 <= i < |items| && buffer != null && Int32Of(buffer.Length - bufferOffset) > 0 && IsBinary(items[i].value) ==>
        var value := items[i].value.value.bytes;
        var n := CopyCountAsWritten(Int32Of(buffer.Length - bufferOffset), length, |value|);
        (n <= 0 ==> r == Ok(0)) &&
        (n > 0 ==> BlockCopy(value, Int32Of(fieldOffset), old(buffer[..]), bufferOffset, n).Err? ==>
          r == Err(BlockCopy(value, Int32Of(fieldOffset), old(buffer[..]), bufferOffset, n).error)) &&
        (n > 0 ==> BlockCopy(value, Int32Of(fieldOffset), old(buffer[..]), bufferOffset, n).Ok? ==>
          r == Ok(n) && buffer[..] == BlockCopy(value, Int32Of(fieldOffset), old(buffer[..]), bufferOffset, n).value)
      ensures buffer != null && (r.Err? || r == Ok(0)) ==> buffer[..] == old(buffer[..])
    {
      if buffer == null {
        return Ok(0);
      }
      var maxBufferLength := Int32Of(buffer.Length - bufferOffset);
      if maxBufferLength <= 0 || i < 0 || i >= |items| {
        return Ok(0);
      }
      if !IsBinary(items[i].value) {
        return Err(InvalidCast);
      }
      var value := items[i].value.value.bytes;
      var offset := Int32Of(fieldOffset);
      var copyCount := CopyCountAsWritten(maxBufferLength, length, |value|);
      if copyCount <= 0 {
        return Ok(0);
      }
      var copied := BlockCopy(value, offset, buffer[..], bufferOffset, copyCount);
      if copied.Err? {
        return Err(copied.error);
      }
      forall k | 0 <= k < buffer.Length {
        buffer[k] := copied.value[k];
      }
      r := Ok(copyCount);
    }
  }
}
