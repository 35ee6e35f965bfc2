// The older DataField (Field.cs), whose serializer reports failure by
// throwing InvalidOperationException: here an encode or decode of None.
module LegacyFields {
  import opened Wrappers
  import opened Codec
  import DataFields

  type InnerField = DataFields.InnerField

  datatype FieldState = FieldState(inner: InnerField, value: Option<Value>)

  function Fresh(): FieldState
  {
    FieldState(DataFields.EmptyInnerField, None)
  }

  predicate IsNull(s: FieldState)
  {
    s.value.None?
  }

  /// The Value setter: the tag is the input's own type, and a throwing
  /// serializer resets the record.
  function WithValue(c: Serializer, s: FieldState, v: Value): (r: FieldState)
    ensures c.encode(v).Some? <==> !IsNull(r)
    ensures c.encode(v).Some? ==>
      r.value == Some(v) && r.inner.name == s.inner.name && r.inner.dataTypeName == s.inner.dataTypeName &&
      r.inner.typeTag == TypeName(v) && r.inner.content == c.encode(v).value.content
    ensures c.encode(v).None? ==> r == Fresh()
  {
    match c.encode(v)
    case Some(e) => FieldState(DataFields.InnerField(s.inner.name, e.content, TypeName(v), s.inner.dataTypeName), Some(v))
    case None => Fresh()
  }

  /// MergeFrom: an unresolvable tag returns without resetting; a null result
  /// stores the sentinel but keeps the record; a throwing deserializer resets.
  function MergedFrom(c: Serializer, s: FieldState, incoming: InnerField): (r: FieldState)
    ensures var m := DataFields.Merge(s.inner, incoming);
      if !c.resolves(m.typeTag) then r == FieldState(m, s.value)
      else if c.decode(m.typeTag, m.content).None? then r == Fresh()
      else r == FieldState(m, c.decode(m.typeTag, m.content).value)
  {
    var m := DataFields.Merge(s.inner, incoming);
    if !c.resolves(m.typeTag) then FieldState(m, s.value)
    else match c.decode(m.typeTag, m.content)
      case Some(decoded) => FieldState(m, decoded)
      case None => Fresh()
  }

  /// Where the two generations part: on an unresolvable tag the newer
  /// DataField resets to null, the older one keeps whatever value it had.
  lemma UnresolvedTagDiffersFromNewer(c: Serializer, s: FieldState, incoming: InnerField)
    requires !c.resolves(DataFields.Merge(s.inner, incoming).typeTag)
    ensures MergedFrom(c, s, incoming).value == s.value
    ensures DataFields.MergedFrom(c, DataFields.FieldState(s.inner, s.value), incoming) == DataFields.Fresh()
  {
  }

  /// Pack then unpack keeps name, data type name and value when the
  /// serializer writes the value as is.
  lemma {:induction false} RoundTrip(c: Serializer, name: string, v: Value, dataTypeName: string)
    requires Sound(c) && WritesAsIs(c, v)
    ensures var s := WithValue(c, FieldState(DataFields.EmptyInnerField.(name := name, dataTypeName := dataTypeName), None), v);
      MergedFrom(c, Fresh(), s.inner) == s && s.inner.name == name && s.inner.dataTypeName == dataTypeName && s.value == Some(v)
  {
    var s := WithValue(c, FieldState(DataFields.EmptyInnerField.(name := name, dataTypeName := dataTypeName), None), v);
    DataFields.MergeIntoEmpty(s.inner);
    assert s.inner.typeTag == TypeName(c.encode(v).value.serialized);
  }

  class DataField {
    var inner: InnerField
    var value: Option<Value>

    function State(): FieldState
      reads this
    {
      FieldState(inner, value)
    }

    constructor()
      ensures State() == Fresh() && IsNullField() && inner.name == ""
    {
      inner := DataFields.EmptyInnerField;
      value := None;
    }

    method SetName(name: string)
      modifies this
      ensures State() == old(State()).(inner := old(inner).(name := name))
    {
      inner := inner.(name := name);
    }

    method SetDataTypeName(dataTypeName: string)
      modifies this
      ensures State() == old(State()).(inner := old(inner).(dataTypeName := dataTypeName))
    {
      inner := inner.(dataTypeName := dataTypeName);
    }

    function IsNullField(): bool
      reads this
    {
      value.None?
    }

    function TypeOfValue(): string
      reads this
    {
      StoredTypeName(value)
    }

    method SetValue(c: Serializer, v: Value)
      modifies this
      ensures State() == WithValue(c, old(State()), v)
    {
      var encoded := c.encode(v);
      if encoded.Some? {
        inner := DataFields.InnerField(inner.name, encoded.value.content, TypeName(v), inner.dataTypeName);
        value := Some(v);
      } else {
        inner := DataFields.EmptyInnerField;
        value := None;
      }
    }

    method MergeFrom(c: Serializer, incoming: InnerField)
      modifies this
      ensures State() == MergedFrom(c, old(State()), incoming)
    {
      inner := DataFields.Merge(inner, incoming);
      if !c.resolves(inner.typeTag) {
        return;
      }
      var decoded := c.decode(inner.typeTag, inner.content);
      if decoded.Some? {
        value := decoded.value;
      } else {
        inner := DataFields.EmptyInnerField;
        value := None;
      }
    }
  }
}
