// Property: one named property of a server-side exception, carried as an
// InnerProperty wire record inside a fault.
module Properties {
  import opened Wrappers
  import opened Codec

  datatype InnerProperty = InnerProperty(name: string, content: Bytes, typeTag: string)

  const EmptyInnerProperty := InnerProperty("", [], "")

  /// Protocol-buffers merge: every non-empty incoming field overwrites.
  function Merge(into: InnerProperty, incoming: InnerProperty): (r: InnerProperty)
    ensures r.name == (if incoming.name != "" then incoming.name else into.name)
    ensures r.content == (if incoming.content != [] then incoming.content else into.content)
    ensures r.typeTag == (if incoming.typeTag != "" then incoming.typeTag else into.typeTag)
  {
    InnerProperty(
      if incoming.name != "" then incoming.name else into.name,
      if incoming.content != [] then incoming.content else into.content,
      if incoming.typeTag != "" then incoming.typeTag else into.typeTag)
  }

  datatype PropertyState = PropertyState(inner: InnerProperty, value: Option<Value>)

  function Fresh(): PropertyState
  {
    PropertyState(EmptyInnerProperty, None)
  }

  predicate IsNull(s: PropertyState)
  {
    s.value.None?
  }

  /// `Type`: the runtime type of the stored value; the sentinel is a plain
  /// object.
  function TypeOf(s: PropertyState): (t: string)
    ensures IsNull(s) ==> t == ObjectTypeName
    ensures !IsNull(s) ==> t == TypeName(s.value.value)
  {
    StoredTypeName(s.value)
  }

  function WithName(s: PropertyState, name: string): PropertyState
  {
    s.(inner := s.inner.(name := name))
  }

  /// The Value setter: unlike DataField, the tag is the input's own type.
  function WithValue(c: Serializer, s: PropertyState, v: Value): (r: PropertyState)
    ensures c.encode(v).Some? <==> !IsNull(r)
    ensures c.encode(v).Some? ==>
      r.value == Some(v) && r.inner.name == s.inner.name && TypeOf(r) == TypeName(v) &&
      r.inner.typeTag == TypeName(v) && r.inner.content == c.encode(v).value.content
    ensures c.encode(v).None? ==> r == Fresh()
  {
    match c.encode(v)
    case Some(e) => PropertyState(InnerProperty(s.inner.name, e.content, TypeName(v)), Some(v))
    case None => PropertyState(EmptyInnerProperty, None)
  }

  /// MergeFrom: an unresolvable tag returns early, keeping the merged record
  /// and the old value; a failed decode resets.
  function MergedFrom(c: Serializer, s: PropertyState, incoming: InnerProperty): (r: PropertyState)
    ensures var m := Merge(s.inner, incoming);
      if !c.resolves(m.typeTag) then r == PropertyState(m, s.value)
      else if c.decode(m.typeTag, m.content).None? then r == Fresh()
      else r == PropertyState(m, c.decode(m.typeTag, m.content).value)
  {
    var m := Merge(s.inner, incoming);
    if !c.resolves(m.typeTag) then PropertyState(m, s.value)
    else match c.decode(m.typeTag, m.content)
      case Some(decoded) => PropertyState(m, decoded)
      case None => PropertyState(EmptyInnerProperty, None)
  }

  function Unpack(c: Serializer, incoming: InnerProperty): PropertyState
  {
    MergedFrom(c, Fresh(), incoming)
  }

  /// A property as the server builds it: Name, then Value.
  function Described(c: Serializer, name: string, v: Value): PropertyState
  {
    WithValue(c, WithName(Fresh(), name), v)
  }

  /// Pack then unpack preserves IsNull, Name, Type and Value for a value the
  /// serializer writes as is.
  lemma {:induction false} RoundTrip(c: Serializer, name: string, v: Value)
    requires Sound(c) && WritesAsIs(c, v)
    ensures var u := Unpack(c, Described(c, name, v).inner);
      u == Described(c, name, v) && !IsNull(u) && u.inner.name == name && TypeOf(u) == TypeName(v) && u.value == Some(v)
  {
    var s := Described(c, name, v);
    assert Merge(EmptyInnerProperty, s.inner) == s.inner;
    assert s.inner.typeTag == TypeName(c.encode(v).value.serialized);
  }

  /// An unresolvable tag leaves the stored value as it was: a property that
  /// held a value keeps it, one that was null stays null.
  lemma UnresolvedTagKeepsValue(c: Serializer, s: PropertyState, incoming: InnerProperty)
    requires !c.resolves(Merge(s.inner, incoming).typeTag)
    ensures MergedFrom(c, s, incoming).value == s.value
    ensures IsNull(MergedFrom(c, s, incoming)) == IsNull(s)
  {
  }

  class Property {
    var inner: InnerProperty
    var value: Option<Value>

    function State(): PropertyState
      reads this
    {
      PropertyState(inner, value)
    }

    constructor()
      ensures State() == Fresh() && IsNullProperty() && TypeOfValue() == ObjectTypeName
    {
      inner := EmptyInnerProperty;
      value := None;
    }

    function Name(): string
      reads this
    {
      inner.name
    }

    method SetName(name: string)
      modifies this
      ensures State() == WithName(old(State()), name)
    {
      inner := inner.(name := name);
    }

    function IsNullProperty(): bool
      reads this
    {
      value.None?
    }

    function TypeOfValue(): string
      reads this
    {
      StoredTypeName(value)
    }

    method SetValue(c: Serializer, v: Value)
      modifies this
      ensures State() == WithValue(c, old(State()), v)
    {
      if c.encode(v).Some? {
        inner := InnerProperty(inner.name, c.encode(v).value.content, TypeName(v));
        value := Some(v);
      } else {
        inner := EmptyInnerProperty;
        value := None;
      }
    }

    method MergeFrom(c: Serializer, incoming: InnerProperty)
      modifies this
      ensures State() == MergedFrom(c, old(State()), incoming)
    {
      inner := Merge(inner, incoming);
      if !c.resolves(inner.typeTag) {
        return;
      }
      var decoded := c.decode(inner.typeTag, inner.content);
      if decoded.Some? {
        value := decoded.value;
      } else {
        inner := EmptyInnerProperty;
        value := None;
      }
    }
  }

  /// The implicit conversion from Any: a fresh property merged from the
  /// wire record.
  method FromAny(c: Serializer, incoming: InnerProperty) returns (p: Property)
    ensures fresh(p) && p.State() == Unpack(c, incoming)
  {
    p := new Property();
    p.MergeFrom(c, incoming);
  }
}
