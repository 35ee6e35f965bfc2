// DataField: a named, typed value carried as an InnerField wire record. The
// setter serializes the value into the record; MergeFrom reads a record back.
module DataFields {
  import opened Wrappers
  import opened Codec

  /// The wire record: name, serialized content, type tag and the database
  /// type name of the column.
  datatype InnerField = InnerField(name: string, content: Bytes, typeTag: string, dataTypeName: string)

  const EmptyInnerField := InnerField("", [], "", "")

  /// Protocol-buffers merge of a parsed record into an existing one: every
  /// field the incoming record sets (non-empty) overwrites, the others stay.
  function Merge(into: InnerField, incoming: InnerField): (r: InnerField)
    ensures incoming.name != "" ==> r.name == incoming.name
    ensures incoming.name == "" ==> r.name == into.name
    ensures incoming.content != [] ==> r.content == incoming.content
    ensures incoming.content == [] ==> r.content == into.content
    ensures incoming.typeTag != "" ==> r.typeTag == incoming.typeTag
    ensures incoming.typeTag == "" ==> r.typeTag == into.typeTag
    ensures incoming.dataTypeName != "" ==> r.dataTypeName == incoming.dataTypeName
    ensures incoming.dataTypeName == "" ==> r.dataTypeName == into.dataTypeName
  {
    InnerField(
      if incoming.name != "" then incoming.name else into.name,
      if incoming.content != [] then incoming.content else into.content,
      if incoming.typeTag != "" then incoming.typeTag else into.typeTag,
      if incoming.dataTypeName != "" then incoming.dataTypeName else into.dataTypeName)
  }

  /// Merging into the empty record yields the incoming record itself.
  lemma MergeIntoEmpty(incoming: InnerField)
    ensures Merge(EmptyInnerField, incoming) == incoming
  {
  }

  /// The whole state of a DataField: its record and its value, None standing
  /// for the private empty sentinel.
  datatype FieldState = FieldState(inner: InnerField, value: Option<Value>)

  /// The state the constructor creates.
  function Fresh(): FieldState
  {
    FieldState(EmptyInnerField, None)
  }

  /// IsNull: the stored value is the sentinel.
  predicate IsNull(s: FieldState)
  {
    s.value.None?
  }

  function WithName(s: FieldState, name: string): FieldState
  {
    s.(inner := s.inner.(name := name))
  }

  function WithDataTypeName(s: FieldState, dataTypeName: string): FieldState
  {
    s.(inner := s.inner.(dataTypeName := dataTypeName))
  }

  /// The Value setter.
  function WithValue(c: Serializer, s: FieldState, v: Value): (r: FieldState)
    ensures c.encode(v).Some? <==> !IsNull(r)
    ensures c.encode(v).Some? ==>
      r.value == Some(v) && r.inner.name == s.inner.name && r.inner.dataTypeName == s.inner.dataTypeName &&
      r.inner.typeTag == TypeName(c.encode(v).value.serialized) && r.inner.content == c.encode(v).value.content
    ensures c.encode(v).None? ==> r == Fresh()
  {
    match c.encode(v)
    case Some(e) => FieldState(InnerField(s.inner.name, e.content, TypeName(e.serialized), s.inner.dataTypeName), Some(v))
    case None => FieldState(EmptyInnerField, None)
  }

  /// MergeFrom: merge the incoming record, then resolve its type tag and
  /// deserialize its content.
  function MergedFrom(c: Serializer, s: FieldState, incoming: InnerField): (r: FieldState)
    ensures var m := Merge(s.inner, incoming);
      if !c.resolves(m.typeTag) || c.decode(m.typeTag, m.content).None? then r == Fresh()
      else r == FieldState(m, c.decode(m.typeTag, m.content).value)
  {
    var m := Merge(s.inner, incoming);
    if !c.resolves(m.typeTag) then FieldState(EmptyInnerField, None)
    else match c.decode(m.typeTag, m.content)
      case Some(decoded) => FieldState(m, decoded)
      case None => FieldState(EmptyInnerField, None)
  }

  /// Unpacking an `Any`: a fresh field merged from the record.
  function Unpack(c: Serializer, incoming: InnerField): FieldState
  {
    MergedFrom(c, Fresh(), incoming)
  }

  /// The state the server builds for one column: Name, then Value, then
  /// DataTypeName, in the order an object initializer assigns them.
  function Described(c: Serializer, name: string, v: Value, dataTypeName: string): FieldState
  {
    WithDataTypeName(WithValue(c, WithName(Fresh(), name), v), dataTypeName)
  }

  /// Because Value is assigned after Name, a rejected value also loses the
  /// name, while the DataTypeName assigned afterwards survives.
  lemma RejectedValueLosesName(c: Serializer, name: string, v: Value, dataTypeName: string)
    requires c.encode(v).None?
    ensures Described(c, name, v, dataTypeName) == FieldState(EmptyInnerField.(dataTypeName := dataTypeName), None)
  {
  }

  /// Pack then unpack preserves Name, DataTypeName and the written value;
  /// when the serializer writes the value as is, the whole state survives.
  lemma {:induction false} RoundTrip(c: Serializer, name: string, v: Value, dataTypeName: string)
    requires Sound(c) && c.encode(v).Some?
    ensures var s := Described(c, name, v, dataTypeName);
      Unpack(c, s.inner).inner == s.inner &&
      Unpack(c, s.inner).value == Some(c.encode(v).value.serialized) &&
      (WritesAsIs(c, v) ==> Unpack(c, s.inner) == s)
  {
    var s := Described(c, name, v, dataTypeName);
    MergeIntoEmpty(s.inner);
    var e := c.encode(v).value;
    assert s.inner.typeTag == TypeName(e.serialized) && s.inner.content == e.content;
  }

  /// An unresolvable type tag collapses the field to the fresh state.
  lemma UnresolvedTagCollapses(c: Serializer, s: FieldState, incoming: InnerField)
    requires !c.resolves(Merge(s.inner, incoming).typeTag)
    ensures MergedFrom(c, s, incoming) == Fresh() && IsNull(MergedFrom(c, s, incoming))
  {
  }

  class DataField {
    var inner: InnerField
    var value: Option<Value>

    function State(): FieldState
      reads this
    {
      FieldState(inner, value)
    }

    constructor()
      ensures State() == Fresh()
      ensures IsNullField() && Name() == ""
    {
      inner := EmptyInnerField;
      value := None;
    }

    function Name(): string
      reads this
    {
      inner.name
    }

    method SetName(name: string)
      modifies this
      ensures State() == WithName(old(State()), name)
    {
      inner := inner.(name := name);
    }

    function DataTypeName(): string
      reads this
    {
      inner.dataTypeName
    }

    method SetDataTypeName(dataTypeName: string)
      modifies this
      ensures State() == WithDataTypeName(old(State()), dataTypeName)
    {
      inner := inner.(dataTypeName := dataTypeName);
    }

    function IsNullField(): bool
      reads this
    {
      value.None?
    }

    /// `Type`: the runtime type of the stored value.
    function TypeOfValue(): string
      reads this
    {
      StoredTypeName(value)
    }

    method SetValue(c: Serializer, v: Value)
      modifies this
      ensures State() == WithValue(c, old(State()), v)
    {
      var encoded := c.encode(v);
      if encoded.Some? {
        inner := InnerField(inner.name, encoded.value.content, TypeName(encoded.value.serialized), inner.dataTypeName);
        value := Some(v);
      } else {
        inner := EmptyInnerField;
        value := None;
      }
    }

    method MergeFrom(c: Serializer, incoming: InnerField)
      modifies this
      ensures State() == MergedFrom(c, old(State()), incoming)
    {
      inner := Merge(inner, incoming);
      if !c.resolves(inner.typeTag) {
        inner := EmptyInnerField;
        value := None;
        return;
      }
      var decoded := c.decode(inner.typeTag, inner.content);
      if decoded.Some? {
        value := decoded.value;
      } else {
        inner := EmptyInnerField;
        value := None;
      }
    }
  }
}
