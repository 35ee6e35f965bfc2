// The values the gateway carries and the serializer that turns them into
// bytes. The serializer itself is not modelled: it is a parameter, a record of
// three total functions, and the round trip the envelopes rely on is the
// hypothesis Sound rather than an axiom.
module Codec {
  import opened Wrappers

  type Bytes = seq<bv8>

  /// A runtime value: a string, a byte array, or any other value known by
  /// the full name of its runtime type and an abstract rendering of its
  /// content.
  datatype Value =
    | Text(text: string)
    | Binary(bytes: Bytes)
    | Boxed(boxedType: string, payload: string)

  const StringTypeName := "System.String"
  const ByteArrayTypeName := "System.Byte[]"
  /// The type of the private `new object()` sentinel every envelope stores
  /// for "no value".
  const ObjectTypeName := "System.Object"

  /// `value.GetType().FullName`.
  function TypeName(v: Value): string
  {
    match v
    case Text(_) => StringTypeName
    case Binary(_) => ByteArrayTypeName
    case Boxed(t, _) => t
  }

  /// The runtime type of what an envelope stores, None being the sentinel.
  function StoredTypeName(stored: Option<Value>): string
  {
    if stored.Some? then TypeName(stored.value) else ObjectTypeName
  }

  /// A bare `new object()`, which the client sends for a null parameter.
  const Placeholder := Boxed(ObjectTypeName, "")

  /// What a successful serialization produced: the value that was actually
  /// written (after any converter the serializer applies) and its bytes.
  datatype Encoded = Encoded(serialized: Value, content: Bytes)

  /// The serializer: `encode` is None when it rejects the value; `resolves`
  /// says whether a type tag names a loadable type; `decode` is None when
  /// deserialization fails and Some(None) when it yields null.
  datatype Serializer = Serializer(
    encode: Value -> Option<Encoded>,
    resolves: string -> bool,
    decode: (string, Bytes) -> Option<Option<Value>>)

  /// The serializer's round trip: whatever it writes, tagged with the written
  /// value's type, resolves and decodes back to the written value; and the
  /// empty tag of an unset record names no type.
  ghost predicate Sound(s: Serializer)
  {
    !s.resolves("") &&
    forall v: Value :: s.encode(v).Some? ==>
      s.resolves(TypeName(s.encode(v).value.serialized)) &&
      s.decode(TypeName(s.encode(v).value.serialized), s.encode(v).value.content) == Some(Some(s.encode(v).value.serialized))
  }

  /// The serializer writes `v` itself, with no converter in between.
  predicate WritesAsIs(s: Serializer, v: Value)
  {
    s.encode(v).Some? && s.encode(v).value.serialized == v
  }
}
