// DataParameter: a named value carried as an InnerParameter wire record, the
// form in which a command's parameters travel from client to server.
module DataParameters {
  import opened Wrappers
  import opened Codec

  /// The wire record: name, serialized content and type tag.
  datatype InnerParameter = InnerParameter(name: string, content: Bytes, typeTag: string)

  const EmptyInnerParameter := InnerParameter("", [], "")

  /// Protocol-buffers merge: every non-empty incoming field overwrites.
  function Merge(into: InnerParameter, incoming: InnerParameter): (r: InnerParameter)
    ensures r.name == (if incoming.name != "" then incoming.name else into.name)
    ensures r.content == (if incoming.content != [] then incoming.content else into.content)
    ensures r.typeTag == (if incoming.typeTag != "" then incoming.typeTag else into.typeTag)
  {
    InnerParameter(
      if incoming.name != "" then incoming.name else into.name,
      if incoming.content != [] then incoming.content else into.content,
      if incoming.typeTag != "" then incoming.typeTag else into.typeTag)
  }

  /// The record and the value, None standing for the empty sentinel.
  datatype ParameterState = ParameterState(inner: InnerParameter, value: Option<Value>)

  function Fresh(): ParameterState
  {
    ParameterState(EmptyInnerParameter, None)
  }

  predicate IsNull(s: ParameterState)
  {
    s.value.None?
  }

  function WithName(s: ParameterState, name: string): ParameterState
  {
    s.(inner := s.inner.(name := name))
  }

  /// The Value setter: the tag is the type of the value the serializer wrote.
  function WithValue(c: Serializer, s: ParameterState, v: Value): (r: ParameterState)
    ensures c.encode(v).Some? <==> !IsNull(r)
    ensures c.encode(v).Some? ==>
      r.value == Some(v) && r.inner.name == s.inner.name &&
      r.inner.typeTag == TypeName(c.encode(v).value.serialized) && r.inner.content == c.encode(v).value.content
    ensures c.encode(v).None? ==> r == Fresh()
  {
    match c.encode(v)
    case Some(e) => ParameterState(InnerParameter(s.inner.name, e.content, TypeName(e.serialized)), Some(v))
    case None => ParameterState(EmptyInnerParameter, None)
  }

  /// MergeFrom: an unresolvable tag or a failed decode resets to the fresh
  /// state; a decode that yields null stores the sentinel.
  function MergedFrom(c: Serializer, s: ParameterState, incoming: InnerParameter): (r: ParameterState)
    ensures var m := Merge(s.inner, incoming);
      if !c.resolves(m.typeTag) || c.decode(m.typeTag, m.content).None? then r == Fresh()
      else r == ParameterState(m, c.decode(m.typeTag, m.content).value)
  {
    var m := Merge(s.inner, incoming);
    if !c.resolves(m.typeTag) then ParameterState(EmptyInnerParameter, None)
    else match c.decode(m.typeTag, m.content)
      case Some(decoded) => ParameterState(m, decoded)
      case None => ParameterState(EmptyInnerParameter, None)
  }

  function Unpack(c: Serializer, incoming: InnerParameter): ParameterState
  {
    MergedFrom(c, Fresh(), incoming)
  }

  /// A parameter as the client builds it: Name, then Value.
  function Described(c: Serializer, name: string, v: Value): ParameterState
  {
    WithValue(c, WithName(Fresh(), name), v)
  }

  /// Pack then unpack keeps the name and the written value; a value the
  /// serializer rejects arrives as a nameless null parameter.
  lemma {:induction false} RoundTrip(c: Serializer, name: string, v: Value)
    requires Sound(c)
    ensures c.encode(v).Some? ==>
      Unpack(c, Described(c, name, v).inner).inner.name == name &&
      Unpack(c, Described(c, name, v).inner).value == Some(c.encode(v).value.serialized) &&
      (WritesAsIs(c, v) ==> Unpack(c, Described(c, name, v).inner) == Described(c, name, v))
    ensures c.encode(v).None? ==> IsNull(Unpack(c, Described(c, name, v).inner)) && Unpack(c, Described(c, name, v).inner).inner.name == ""
  {
    var s := Described(c, name, v);
    assert Merge(EmptyInnerParameter, s.inner) == s.inner;
    if c.encode(v).None? {
      assert s.inner == EmptyInnerParameter;
    }
  }

  class DataParameter {
    var inner: InnerParameter
    var value: Option<Value>

    function State(): ParameterState
      reads this
    {
      ParameterState(inner, value)
    }

    constructor()
      ensures State() == Fresh() && IsNullParameter()
    {
      inner := EmptyInnerParameter;
      value := None;
    }

    function Name(): string
      reads this
    {
      inner.name
    }

    method SetName(name: string)
      modifies this
      ensures State() == WithName(old(State()), name)
    {
      inner := inner.(name := name);
    }

    function IsNullParameter(): bool
      reads this
    {
      value.None?
    }

    /// `Type`: the runtime type of the stored value.
    function TypeOfValue(): string
      reads this
    {
      StoredTypeName(value)
    }

    method SetValue(c: Serializer, v: Value)
      modifies this
      ensures State() == WithValue(c, old(State()), v)
    {
      var encoded := c.encode(v);
      if encoded.Some? {
        inner := InnerParameter(inner.name, encoded.value.content, TypeName(encoded.value.serialized));
        value := Some(v);
      } else {
        inner := EmptyInnerParameter;
        value := None;
      }
    }

    method MergeFrom(c: Serializer, incoming: InnerParameter)
      modifies this
      ensures State() == MergedFrom(c, old(State()), incoming)
    {
      inner := Merge(inner, incoming);
      if !c.resolves(inner.typeTag) {
        inner := EmptyInnerParameter;
        value := None;
        return;
      }
      var decoded := c.decode(inner.typeTag, inner.content);
      if decoded.Some? {
        value := decoded.value;
      } else {
        inner := EmptyInnerParameter;
        value := None;
      }
    }
  }

  /// The implicit conversion from Any: a fresh parameter merged from the
  /// wire record.
  method FromAny(c: Serializer, incoming: InnerParameter) returns (p: DataParameter)
    ensures fresh(p) && p.State() == Unpack(c, incoming)
  {
    p := new DataParameter();
    p.MergeFrom(c, incoming);
  }
}
