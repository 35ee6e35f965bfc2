// The newer client's data reader. It reads either a buffered response (Read
// walks its rows) or a stream of messages (ReadAsync takes one per call);
// the current row is a list of unpacked DataFields, cleared at the start of
// every read.
module GrpcDataReaders {
  import opened Wrappers
  import opened Codec
  import opened ClientFailures
  import DataFields
  import Protocol
  import RemoteDataExceptions

  /// What the reader was built on: the buffered reply or the messages the
  /// server streams.
  datatype Source =
    | Buffered(response: Protocol.ExecuteQuerySyncResponse)
    | Streamed(messages: seq<Protocol.ExecuteQueryResponse>)

  /// The reader's mutable state: the current row, the next buffered row,
  /// how many streamed messages were taken, and whether it is open.
  datatype Cursor = Cursor(items: seq<DataFields.FieldState>, syncResponseIndex: nat, consumed: nat, isOpen: bool)

  /// The state both constructors create.
  const Opened := Cursor([], 0, 0, true)

  /// One read: the state after it and what it returned or threw.
  datatype Outcome = Outcome(after: Cursor, result: Result<bool, Failure>)

  /// The implicit conversion applied to each field of a row.
  function Unpacked(c: Serializer, fields: seq<DataFields.InnerField>): (r: seq<DataFields.FieldState>)
    ensures |r| == |fields|
    ensures forall k :: 0 <= k < |fields| ==> r[k] == DataFields.Unpack(c, fields[k])
  {
    seq(|fields|, k requires 0 <= k < |fields| => DataFields.Unpack(c, fields[k]))
  }

  /// Read: a streaming reader has no buffered rows; a faulted reply throws
  /// on every call; otherwise the next row, then false for ever.
  function ReadStep(c: Serializer, source: Source, cur: Cursor): (r: Outcome)
    ensures r.after.isOpen == cur.isOpen && r.after.consumed == cur.consumed
    ensures r.result != Ok(true) ==> r.after.items == [] && r.after.syncResponseIndex == cur.syncResponseIndex
    ensures r.result == Ok(true) <==>
      (source.Buffered? && source.response.dataException.None? && cur.syncResponseIndex < |source.response.rows|)
    ensures r.result == Ok(true) ==>
      r.after.syncResponseIndex == cur.syncResponseIndex + 1 &&
      r.after.items == Unpacked(c, source.response.rows[cur.syncResponseIndex])
    ensures r.result.Err? <==> source.Buffered? && source.response.dataException.Some?
    ensures r.result.Err? ==> r.result.error == RemoteDataExceptions.Raised(c, source.response.dataException.value)
  {
    var cleared := cur.(items := []);
    if !source.Buffered? then Outcome(cleared, Ok(false))
    else if source.response.dataException.Some? then
      Outcome(cleared, Err(RemoteDataExceptions.Raised(c, source.response.dataException.value)))
    else if cur.syncResponseIndex >= |source.response.rows| then Outcome(cleared, Ok(false))
    else
      Outcome(cleared.(items := Unpacked(c, source.response.rows[cur.syncResponseIndex]),
                       syncResponseIndex := cur.syncResponseIndex + 1), Ok(true))
  }

  /// ReadAsync: a buffered reader has no stream; a closed streaming reader
  /// has disposed its call, so reading it raises; otherwise the next message
  /// is taken, and it throws if it carries a fault.
  function ReadAsyncStep(c: Serializer, source: Source, cur: Cursor): (r: Outcome)
    ensures r.after.isOpen == cur.isOpen && r.after.syncResponseIndex == cur.syncResponseIndex
    ensures r.result != Ok(true) ==> r.after.items == []
    ensures (source.Streamed? && cur.isOpen && cur.consumed < |source.messages|) <==> r.after.consumed == cur.consumed + 1
    ensures r.after.consumed == cur.consumed || r.after.consumed == cur.consumed + 1
    ensures r.result == Err(CallDisposed) <==> source.Streamed? && !cur.isOpen
    ensures r.result == Ok(true) <==>
      (source.Streamed? && cur.isOpen && cur.consumed < |source.messages| && source.messages[cur.consumed].dataException.None?)
    ensures r.result == Ok(true) ==> r.after.items == Unpacked(c, source.messages[cur.consumed].fields)
    ensures (r.result.Err? && r.result != Err(CallDisposed)) <==>
      (source.Streamed? && cur.isOpen && cur.consumed < |source.messages| && source.messages[cur.consumed].dataException.Some?)
    ensures r.result.Err? && r.result != Err(CallDisposed) ==>
      r.result.error == RemoteDataExceptions.Raised(c, source.messages[cur.consumed].dataException.value)
  {
    var cleared := cur.(items := []);
    if !source.Streamed? then Outcome(cleared, Ok(false))
    else if !cur.isOpen then Outcome(cleared, Err(CallDisposed))
    else if cur.consumed >= |source.messages| then Outcome(cleared, Ok(false))
    else
      var m := source.messages[cur.consumed];
      var moved := cleared.(consumed := cur.consumed + 1);
      if m.dataException.Some? then Outcome(moved, Err(RemoteDataExceptions.Raised(c, m.dataException.value)))
      else Outcome(moved.(items := Unpacked(c, m.fields)), Ok(true))
  }

  /// The state after n consecutive calls to Read on a new reader.
  function Reads(c: Serializer, source: Source, n: nat): Cursor
  {
    if n == 0 then Opened else ReadStep(c, source, Reads(c, source, n - 1)).after
  }

  /// The state after n consecutive calls to ReadAsync on a new reader.
  function AsyncReads(c: Serializer, source: Source, n: nat): Cursor
  {
    if n == 0 then Opened else ReadAsyncStep(c, source, AsyncReads(c, source, n - 1)).after
  }

  /// A fault-free buffered reply is delivered row by row in order: the
  /// (n+1)-th Read returns true with row n while rows remain, and false
  /// from then on.
  lemma {:induction false} BufferedRowsInOrder(c: Serializer, response: Protocol.ExecuteQuerySyncResponse, n: nat)
    requires response.dataException.None?
    ensures Reads(c, Buffered(response), n).syncResponseIndex == if n < |response.rows| then n else |response.rows|
    ensures ReadStep(c, Buffered(response), Reads(c, Buffered(response), n)).result == Ok(n < |response.rows|)
    ensures n < |response.rows| ==>
      ReadStep(c, Buffered(response), Reads(c, Buffered(response), n)).after.items == Unpacked(c, response.rows[n])
  {
    if n > 0 {
      BufferedRowsInOrder(c, response, n - 1);
    }
  }

  /// A faulted buffered reply throws the fault on every Read, however many
  /// came before.
  lemma {:induction false} FaultedBufferAlwaysThrows(c: Serializer, response: Protocol.ExecuteQuerySyncResponse, n: nat)
    requires response.dataException.Some?
    ensures Reads(c, Buffered(response), n) == Opened
    ensures ReadStep(c, Buffered(response), Reads(c, Buffered(response), n)).result ==
      Err(RemoteDataExceptions.Raised(c, response.dataException.value))
  {
    if n > 0 {
      FaultedBufferAlwaysThrows(c, response, n - 1);
    }
  }

  /// Streamed messages are delivered one per ReadAsync, in order: while no
  /// earlier message carried a fault, the (n+1)-th call takes message n.
  lemma {:induction false} StreamedMessagesInOrder(c: Serializer, messages: seq<Protocol.ExecuteQueryResponse>, n: nat)
    requires forall k :: 0 <= k < n && k < |messages| ==> messages[k].dataException.None?
    ensures AsyncReads(c, Streamed(messages), n).consumed == if n < |messages| then n else |messages|
    ensures n < |messages| && messages[n].dataException.None? ==>
      ReadAsyncStep(c, Streamed(messages), AsyncReads(c, Streamed(messages), n)) ==
      Outcome(Cursor(Unpacked(c, messages[n].fields), 0, n + 1, true), Ok(true))
    ensures n >= |messages| ==> ReadAsyncStep(c, Streamed(messages), AsyncReads(c, Streamed(messages), n)).result == Ok(false)
  {
    if n > 0 {
      StreamedMessagesInOrder(c, messages, n - 1);
    }
  }

  /// The state after n further calls to ReadAsync from a given state.
  function AsyncReadsFrom(c: Serializer, source: Source, cur: Cursor, n: nat): Cursor
  {
    if n == 0 then cur else ReadAsyncStep(c, source, AsyncReadsFrom(c, source, cur, n - 1)).after
  }

  /// Once a streaming reader is closed its call is disposed: however many
  /// ReadAsync calls follow, none takes a message and each one raises.
  lemma {:induction false} ClosedStreamDeliversNothing(c: Serializer, messages: seq<Protocol.ExecuteQueryResponse>, cur: Cursor, n: nat)
    requires !cur.isOpen
    ensures AsyncReadsFrom(c, Streamed(messages), cur, n).consumed == cur.consumed
    ensures !AsyncReadsFrom(c, Streamed(messages), cur, n).isOpen
    ensures ReadAsyncStep(c, Streamed(messages), AsyncReadsFrom(c, Streamed(messages), cur, n)).result == Err(CallDisposed)
  {
    if n > 0 {
      ClosedStreamDeliversNothing(c, messages, cur, n - 1);
    }
  }

  /// The reader's one accessor that reads the List directly, without the
  /// reader's own bounds check.
  function ListItem(items: seq<DataFields.FieldState>, i: int): (r: Result<DataFields.FieldState, Failure>)
    ensures r.Ok? <==> 0 <= i < |items|
    ensures r.Ok? ==> r.value == items[i]
    ensures r.Err? ==> r.error == ArgumentOutOfRange
  {
    if 0 <= i < |items| then Ok(items[i]) else Err(ArgumentOutOfRange)
  }

  /// A `(T)value` unboxing cast: the sentinel and any value of another type
  /// throw InvalidCastException.
  function Cast(value: Option<Value>, typeName: string): (r: Result<Value, Failure>)
    ensures r.Ok? <==> value.Some? && TypeName(value.value) == typeName
    ensures r.Ok? ==> r.value == value.value
    ensures r.Err? ==> r.error == InvalidCast
  {
    if value.Some? && TypeName(value.value) == typeName then Ok(value.value) else Err(InvalidCast)
  }

  /// Whether `(byte[])value` succeeds.
  predicate IsBinary(value: Option<Value>)
  {
    value.Some? && value.value.Binary?
  }

  const Int32Modulus := 0x1_0000_0000

  /// C#'s unchecked conversion of a long to an int: wraps modulo 2^32.
  function Int32Of(x: int): (r: int)
    ensures -0x8000_0000 <= r < 0x8000_0000
    ensures (r - x) % Int32Modulus == 0
  {
    var m := (x + 0x8000_0000) % Int32Modulus;
    assert x + 0x8000_0000 == (x + 0x8000_0000) / Int32Modulus * Int32Modulus + m;
    m - 0x8000_0000
  }

  function Min(a: int, b: int): int
  {
    if a <= b then a else b
  }

  /// Buffer.BlockCopy on byte arrays: copies count bytes of src from
  /// srcOffset over dst at dstOffset; a negative argument throws
  /// ArgumentOutOfRangeException and a range past either end throws
  /// ArgumentException.
  function BlockCopy(src: Bytes, srcOffset: int, dst: Bytes, dstOffset: int, count: int): (r: Result<Bytes, Failure>)
    ensures r.Ok? <==> 0 <= srcOffset && 0 <= dstOffset && 0 <= count && srcOffset + count <= |src| && dstOffset + count <= |dst|
    ensures r.Ok? ==>
      |r.value| == |dst| &&
      (forall k :: 0 <= k < |dst| && !(dstOffset <= k < dstOffset + count) ==> r.value[k] == dst[k]) &&
      (forall k :: dstOffset <= k < dstOffset + count ==> r.value[k] == src[srcOffset + (k - dstOffset)])
  {
    if srcOffset < 0 || dstOffset < 0 || count < 0 then Err(ArgumentOutOfRange)
    else if srcOffset + count > |src| || dstOffset + count > |dst| then Err(Argument)
    else Ok(dst[..dstOffset] + src[srcOffset..srcOffset + count] + dst[dstOffset + count..])
  }

  /// GetFieldArray's element count as written: the smaller of the room in
  /// the buffer, the requested length and the whole value's length, without
  /// subtracting the offset the copy starts from.
  function CopyCountAsWritten(space: int, length: int, valueLength: int): (n: int)
    ensures n <= space && n <= length && n <= valueLength
    ensures n == space || n == length || n == valueLength
  {
    Min(Min(space, length), valueLength)
  }

  /// The count evidently intended: the bytes left after the field offset
  /// bound the copy, not the whole value.
  function CopyCount(space: int, length: int, valueLength: int, fieldOffset: int): (n: int)
    ensures n <= space && n <= length && fieldOffset + n <= valueLength
    ensures n == space || n == length || n == valueLength - fieldOffset
  {
    Min(Min(space, length), valueLength - fieldOffset)
  }

  /// As written, reading the last two bytes of a four-byte value into a
  /// ten-byte buffer computes a count of four and the copy throws, although
  /// two bytes are there to be read.
  lemma AsWrittenCountOverrunsValue(value: Bytes, buffer: Bytes)
    requires |value| == 4 && |buffer| == 10
    ensures Int32Of(|buffer| - 0) == 10 && Int32Of(2) == 2
    ensures CopyCountAsWritten(10, 10, 4) == 4
    ensures BlockCopy(value, 2, buffer, 0, CopyCountAsWritten(10, 10, 4)) == Err(Argument)
    ensures CopyCount(10, 10, 4, 2) == 2
    ensures BlockCopy(value, 2, buffer, 0, CopyCount(10, 10, 4, 2)).Ok?
  {
  }

  /// Either GetBytes as written throws ArgumentException whenever the
  /// field offset is positive and the count it computes is the whole value
  /// (the request above is one such).
  lemma GetBytesFromOffsetThrows(value: Bytes, buffer: Bytes, fieldOffset: int, bufferOffset: int, length: int)
    requires 0 <= bufferOffset && 0 < fieldOffset < 0x8000_0000 && |value| > 0
    requires CopyCountAsWritten(Int32Of(|buffer| - bufferOffset), length, |value|) == |value|
    ensures BlockCopy(value, Int32Of(fieldOffset), buffer, bufferOffset,
      CopyCountAsWritten(Int32Of(|buffer| - bufferOffset), length, |value|)) == Err(Argument)
  {
    assert Int32Of(fieldOffset) == fieldOffset;
  }

  /// With the corrected count, every request whose offsets lie inside the
  /// value and the buffer copies without throwing, and copies as much as
  /// the three bounds allow.
  lemma CorrectedCountNeverOverruns(value: Bytes, fieldOffset: int, buffer: Bytes, bufferOffset: int, length: int)
    requires 0 <= fieldOffset <= |value| && 0 <= bufferOffset <= |buffer|
    requires CopyCount(|buffer| - bufferOffset, length, |value|, fieldOffset) > 0
    ensures BlockCopy(value, fieldOffset, buffer, bufferOffset, CopyCount(|buffer| - bufferOffset, length, |value|, fieldOffset)).Ok?
  {
  }

  class GrpcDataReader {
    const source: Source
    var items: seq<DataFields.FieldState>
    var syncResponseIndex: nat
    var consumed: nat
    var isOpen: bool

    function State(): Cursor
      reads this
    {
      Cursor(items, syncResponseIndex, consumed, isOpen)
    }

    constructor(source: Source)
      ensures this.source == source && State() == Opened
    {
      this.source := source;
      items := [];
      syncResponseIndex := 0;
      consumed := 0;
      isOpen := true;
    }

    /// The current row, unpacked field by field.
    method LoadRow(c: Serializer, fields: seq<DataFields.InnerField>)
      modifies this
      ensures items == Unpacked(c, fields)
      ensures syncResponseIndex == old(syncResponseIndex) && consumed == old(consumed) && isOpen == old(isOpen)
    {
      items := [];
      var j := 0;
      while j < |fields|
        invariant 0 <= j <= |fields|
        invariant |items| == j && forall k :: 0 <= k < j ==> items[k] == DataFields.Unpack(c, fields[k])
        invariant syncResponseIndex == old(syncResponseIndex) && consumed == old(consumed) && isOpen == old(isOpen)
      {
        var f := new DataFields.DataField();
        f.MergeFrom(c, fields[j]);
        items := items + [f.State()];
        j := j + 1;
      }
    }

    method Read(c: Serializer) returns (r: Result<bool, Failure>)
      modifies this
      ensures Outcome(State(), r) == ReadStep(c, source, old(State()))
    {
      items := [];
      if !source.Buffered? {
        return Ok(false);
      }
      var response := source.response;
      if response.dataException.Some? {
        var thrown := RemoteDataExceptions.ThrowDataException(c, response.dataException.value);
        return Err(thrown);
      }
      if syncResponseIndex >= |response.rows| {
        return Ok(false);
      }
      LoadRow(c, response.rows[syncResponseIndex]);
      syncResponseIndex := syncResponseIndex + 1;
      r := Ok(true);
    }

    method ReadAsync(c: Serializer) returns (r: Result<bool, Failure>)
      modifies this
      ensures Outcome(State(), r) == ReadAsyncStep(c, source, old(State()))
    {
      items := [];
      if !source.Streamed? {
        return Ok(false);
      }
      if !isOpen {
        return Err(CallDisposed);
      }
      if consumed >= |source.messages| {
        return Ok(false);
      }
      var m := source.messages[consumed];
      consumed := consumed + 1;
      if m.dataException.Some? {
        var thrown := RemoteDataExceptions.ThrowDataException(c, m.dataException.value);
        return Err(thrown);
      }
      LoadRow(c, m.fields);
      r := Ok(true);
    }

    function FieldCount(): (n: nat)
      reads this
      ensures n == |items|
    {
      |items|
    }

    function IsClosed(): bool
      reads this
    {
      !isOpen
    }

    /// Close and CloseAsync: the streaming call is disposed and the reader
    /// reports itself closed; the current row and positions stay, and from
    /// now on ReadAsync on a streaming reader raises CallDisposed.
    method Close()
      modifies this
      ensures IsClosed()
      ensures items == old(items) && syncResponseIndex == old(syncResponseIndex) && consumed == old(consumed)
    {
      isOpen := false;
    }

    /// The indexer by position and GetValue: the stored value, None being
    /// the null sentinel; outside [0, FieldCount) IndexOutOfRangeException.
    function GetValue(i: int): (r: Result<Option<Value>, Failure>)
      reads this
      ensures r.Ok? <==> 0 <= i < FieldCount()
      ensures r.Ok? ==> r.value == items[i].value
      ensures r.Err? ==> r.error == IndexOutOfRange
    {
      if 0 <= i < |items| then Ok(items[i].value) else Err(IndexOutOfRange)
    }

    /// The typed getters (GetBoolean … GetInt64): bounds-checked, then a
    /// cast to the getter's type.
    function GetAs(i: int, typeName: string): (r: Result<Value, Failure>)
      reads this
      ensures r.Ok? <==> 0 <= i < FieldCount() && items[i].value.Some? && TypeName(items[i].value.value) == typeName
      ensures r.Ok? ==> Some(r.value) == items[i].value
      ensures !(0 <= i < FieldCount()) ==> r == Err(IndexOutOfRange)
      ensures 0 <= i < FieldCount() && r.Err? ==> r.error == InvalidCast
    {
      if 0 <= i < |items| then Cast(items[i].value, typeName) else Err(IndexOutOfRange)
    }

    function GetName(i: int): (r: Result<string, Failure>)
      reads this
      ensures r.Ok? <==> 0 <= i < FieldCount()
      ensures r.Ok? ==> r.value == items[i].inner.name
      ensures r.Err? ==> r.error == IndexOutOfRange
    {
      if 0 <= i < |items| then Ok(items[i].inner.name) else Err(IndexOutOfRange)
    }

    function GetDataTypeName(i: int): (r: Result<string, Failure>)
      reads this
      ensures r.Ok? <==> 0 <= i < FieldCount()
      ensures r.Ok? ==> r.value == items[i].inner.dataTypeName
      ensures r.Err? ==> r.error == IndexOutOfRange
    {
      if 0 <= i < |items| then Ok(items[i].inner.dataTypeName) else Err(IndexOutOfRange)
    }

    /// GetFieldType: the stored value's runtime type, the sentinel's being
    /// System.Object.
    function GetFieldType(i: int): (r: Result<string, Failure>)
      reads this
      ensures r.Ok? <==> 0 <= i < FieldCount()
      ensures r.Ok? && items[i].value.None? ==> r.value == ObjectTypeName
      ensures r.Ok? && items[i].value.Some? ==> r.value == TypeName(items[i].value.value)
      ensures r.Err? ==> r.error == IndexOutOfRange
    {
      if 0 <= i < |items| then Ok(StoredTypeName(items[i].value)) else Err(IndexOutOfRange)
    }

    function IsDBNull(i: int): (r: Result<bool, Failure>)
      reads this
      ensures r.Ok? <==> 0 <= i < FieldCount()
      ensures r.Ok? ==> (r.value <==> items[i].value.None?)
      ensures r.Err? ==> r.error == IndexOutOfRange
    {
      if 0 <= i < |items| then Ok(DataFields.IsNull(items[i])) else Err(IndexOutOfRange)
    }

    /// GetOrdinal: the first field with exactly this name, or -1.
    function GetOrdinal(name: string): (r: int)
      reads this
      ensures -1 <= r < FieldCount()
      ensures r >= 0 ==> items[r].inner.name == name && forall k :: 0 <= k < r ==> items[k].inner.name != name
      ensures r < 0 <==> forall k :: 0 <= k < |items| ==> items[k].inner.name != name
    {
      Ordinal(items, name)
    }

    /// The indexer by name: the first match's value; a missing name gives
    /// the sentinel of a fresh DataField.
    function GetValueByName(name: string): (r: Option<Value>)
      reads this
      ensures GetOrdinal(name) >= 0 ==> r == items[GetOrdinal(name)].value
      ensures GetOrdinal(name) < 0 ==> r.None?
    {
      var k := Ordinal(items, name);
      if k >= 0 then items[k].value else DataFields.Fresh().value
    }

    /// GetString reads the List directly: a bad index throws
    /// ArgumentOutOfRangeException, a null field reads as "".
    function GetString(i: int): (r: Result<string, Failure>)
      reads this
      ensures !(0 <= i < FieldCount()) ==> r == Err(ArgumentOutOfRange)
      ensures 0 <= i < FieldCount() && items[i].value.None? ==> r == Ok("")
      ensures 0 <= i < FieldCount() && items[i].value.Some? && items[i].value.value.Text? ==> r == Ok(items[i].value.value.text)
      ensures 0 <= i < FieldCount() && items[i].value.Some? && !items[i].value.value.Text? ==> r == Err(InvalidCast)
    {
      match ListItem(items, i)
      case Err(e) => Err(e)
      case Ok(item) =>
        if DataFields.IsNull(item) then Ok("")
        else if item.value.value.Text? then Ok(item.value.value.text)
        else Err(InvalidCast)
    }

    /// GetValues: copies the first min(values.Length, FieldCount) values
    /// and returns that count; the rest of the array is untouched.
    method GetValues(values: array<Option<Value>>) returns (count: int)
      modifies values
      ensures count == Min(values.Length, |items|)
      ensures forall k :: 0 <= k < count ==> values[k] == items[k].value
      ensures forall k :: count <= k < values.Length ==> values[k] == old(values[k])
    {
      count := Min(values.Length, |items|);
      var i := 0;
      while i < count
        invariant 0 <= i <= count
        invariant forall k :: 0 <= k < i ==> values[k] == items[k].value
        invariant forall k :: i <= k < values.Length ==> values[k] == old(values[k])
      {
        values[i] := items[i].value;
        i := i + 1;
      }
    }

    /// GetBytes (GetFieldArray over bytes): a bad index throws; a null
    /// buffer or one with no room past bufferOffset gives 0; the field must
    /// hold a byte array; then min(room, length, value length) bytes are
    /// copied from fieldOffset, which throws when they run past the value's
    /// end (see GetBytesFromOffsetThrows).
    method GetBytes(i: int, fieldOffset: int, buffer: array?<bv8>, bufferOffset: int, length: int) returns (r: Result<int, Failure>)
      modifies buffer
      ensures r.Ok? ==> r.value >= 0
      ensures !(0 <= i < |items|) ==> r == Err(IndexOutOfRange)
      ensures 0 <= i < |items| && (buffer == null || Int32Of(buffer.Length - bufferOffset) <= 0) ==> r == Ok(0)
      ensures 0 <= i < |items| && buffer != null && Int32Of(buffer.Length - bufferOffset) > 0 && !IsBinary(items[i].value) ==>
        r == Err(InvalidCast)
      ensures 0 <= i < |items| && buffer != null && Int32Of(buffer.Length - bufferOffset) > 0 && IsBinary(items[i].value) ==>
        var value := items[i].value.value.bytes;
        var n := CopyCountAsWritten(Int32Of(buffer.Length - bufferOffset), length, |value|);
        (n <= 0 ==> r == Ok(0)) &&
        (n > 0 ==> BlockCopy(value, Int32Of(fieldOffset), old(buffer[..]), bufferOffset, n).Err? ==>
          r == Err(BlockCopy(value, Int32Of(fieldOffset), old(buffer[..]), bufferOffset, n).error)) &&
        (n > 0 ==> BlockCopy(value, Int32Of(fieldOffset), old(buffer[..]), bufferOffset, n).Ok? ==>
          r == Ok(n) && buffer[..] == BlockCopy(value, Int32Of(fieldOffset), old(buffer[..]), bufferOffset, n).value)
      ensures buffer != null && (r.Err? || r == Ok(0)) ==> buffer[..] == old(buffer[..])
    {
      if !(0 <= i < |items|) {
        return Err(IndexOutOfRange);
      }
      if buffer == null {
        return Ok(0);
      }
      var maxBufferLength := Int32Of(buffer.Length - bufferOffset);
      if maxBufferLength <= 0 {
        return Ok(0);
      }
      if !IsBinary(items[i].value) {
        return Err(InvalidCast);
      }
      var value := items[i].value.value.bytes;
      var offset := Int32Of(fieldOffset);
      var copyCount := CopyCountAsWritten(maxBufferLength, length, |value|);
      if copyCount <= 0 {
        return Ok(0);
      }
      var copied := BlockCopy(value, offset, buffer[..], bufferOffset, copyCount);
      if copied.Err? {
        return Err(copied.error);
      }
      forall k | 0 <= k < buffer.Length {
        buffer[k] := copied.value[k];
      }
      r := Ok(copyCount);
    }
  }

  /// The first field with this name, or -1.
  function Ordinal(items: seq<DataFields.FieldState>, name: string): (r: int)
    ensures -1 <= r < |items|
    ensures r >= 0 ==> items[r].inner.name == name && forall k :: 0 <= k < r ==> items[k].inner.name != name
    ensures r < 0 <==> forall k :: 0 <= k < |items| ==> items[k].inner.name != name
  {
    if items == [] then -1
    else if items[0].inner.name == name then 0
    else
      var k := Ordinal(items[1..], name);
      if k < 0 then -1 else k + 1
  }
}
