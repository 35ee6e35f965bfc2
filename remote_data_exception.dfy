// The exception the newer client throws for a fault: a message, a class
// name and an ordered list of named properties with unique names.
module RemoteDataExceptions {
  import opened Wrappers
  import opened Codec
  import opened OrderedLists
  import opened ClientFailures
  import Properties
  import NativeDriver
  import Protocol

  /// The properties ThrowDataException(DataException) collects: each wire
  /// property unpacked, and set by name unless it is null.
  function ThrownProperties(c: Serializer, props: seq<Properties.InnerProperty>): seq<(string, Value)>
  {
    if props == [] then []
    else
      var p := Properties.Unpack(c, props[|props| - 1]);
      var prev := ThrownProperties(c, props[..|props| - 1]);
      if !Properties.IsNull(p) then Upsert(prev, p.inner.name, p.value.value) else prev
  }

  /// The properties collected from the first `n` wire properties.
  function ThrownPrefix(c: Serializer, props: seq<Properties.InnerProperty>, n: nat): seq<(string, Value)>
    requires n <= |props|
  {
    if n == 0 then []
    else
      var p := Properties.Unpack(c, props[n - 1]);
      var prev := ThrownPrefix(c, props, n - 1);
      if !Properties.IsNull(p) then Upsert(prev, p.inner.name, p.value.value) else prev
  }

  /// Collecting a prefix by count is collecting the prefix itself.
  lemma {:induction false} ThrownPrefixIsThrown(c: Serializer, props: seq<Properties.InnerProperty>, n: nat)
    requires n <= |props|
    ensures ThrownPrefix(c, props, n) == ThrownProperties(c, props[..n])
  {
    if n > 0 {
      ThrownPrefixIsThrown(c, props, n - 1);
      assert props[..n][..n - 1] == props[..n - 1];
    }
  }

  /// The failure ThrowDataException(DataException) throws.
  function Raised(c: Serializer, e: Protocol.DataException): Failure
  {
    Remote(e.className, e.message, ThrownProperties(c, e.properties))
  }

  /// The properties ThrowDataException(Exception) collects from a local
  /// exception: each non-null property set by name.
  function CollectedProperties(props: seq<(string, Option<Value>)>): seq<(string, Value)>
  {
    if props == [] then []
    else
      var prev := CollectedProperties(props[..|props| - 1]);
      var last := props[|props| - 1];
      if last.1.Some? then Upsert(prev, last.0, last.1.value) else prev
  }

  /// The failure ThrowDataException(Exception) throws.
  function RaisedLocally(e: NativeDriver.Fault): Failure
  {
    Remote(e.className, e.message, CollectedProperties(e.properties))
  }

  /// The value of the last non-null wire property with this name.
  function LastThrown(c: Serializer, props: seq<Properties.InnerProperty>, name: string): Option<Value>
  {
    if props == [] then None
    else
      var p := Properties.Unpack(c, props[|props| - 1]);
      if !Properties.IsNull(p) && p.inner.name == name then p.value else LastThrown(c, props[..|props| - 1], name)
  }

  /// Thrown properties have unique names, and each name holds the value of
  /// the last non-null property of that name: later duplicates overwrite
  /// earlier ones, null properties are dropped.
  lemma {:induction false} ThrownLookup(c: Serializer, props: seq<Properties.InnerProperty>, name: string)
    ensures UniqueNames(ThrownProperties(c, props))
    ensures Lookup(ThrownProperties(c, props), name) == LastThrown(c, props, name)
    ensures |ThrownProperties(c, props)| <= |props|
  {
    if props != [] {
      var init := props[..|props| - 1];
      var p := Properties.Unpack(c, props[|props| - 1]);
      ThrownLookup(c, init, name);
      if !Properties.IsNull(p) {
        if p.inner.name == name {
          UpsertLookup(ThrownProperties(c, init), name, p.value.value, name + "_");
        } else {
          UpsertLookup(ThrownProperties(c, init), p.inner.name, p.value.value, name);
        }
      }
    }
  }

  class RemoteDataException {
    const message: string
    var className: string
    var properties: seq<(string, Value)>

    /// The exception as the failure a caller catches.
    function AsFailure(): Failure
      reads this
    {
      Remote(className, message, properties)
    }

    constructor(message: string)
      ensures this.message == message && className == "" && properties == []
    {
      this.message := message;
      className := "";
      properties := [];
    }

    method SetClassName(className: string)
      modifies this
      ensures this.className == className && properties == old(properties)
    {
      this.className := className;
    }

    /// The indexer by position: out of range throws.
    function GetAt(i: int): (r: Result<Value, Failure>)
      reads this
      ensures 0 <= i < |properties| <==> r.Ok?
      ensures r.Ok? ==> r.value == properties[i].1
      ensures r.Err? ==> r.error == ArgumentOutOfRange
    {
      if 0 <= i < |properties| then Ok(properties[i].1) else Err(ArgumentOutOfRange)
    }

    /// Setting by position keeps the name there.
    method SetAt(i: int, value: Value) returns (r: Result<(), Failure>)
      modifies this
      ensures 0 <= i < |old(properties)| ==> r == Ok(()) && properties == old(properties)[i := (old(properties)[i].0, value)]
      ensures !(0 <= i < |old(properties)|) ==> r == Err(ArgumentOutOfRange) && properties == old(properties)
      ensures className == old(className)
    {
      if !(0 <= i < |properties|) {
        return Err(ArgumentOutOfRange);
      }
      properties := properties[i := (properties[i].0, value)];
      r := Ok(());
    }

    /// The indexer by name: the first ordinal match; a missing name is
    /// index -1, which throws.
    function GetByName(name: string): (r: Result<Value, Failure>)
      reads this
      ensures r.Ok? <==> exists j :: 0 <= j < |properties| && properties[j].0 == name
      ensures r.Ok? ==> r.value == properties[FindIndex(properties, name)].1
      ensures r.Err? ==> r.error == ArgumentOutOfRange
    {
      var i := FindIndex(properties, name);
      if i >= 0 then Ok(properties[i].1) else Err(ArgumentOutOfRange)
    }

    /// Setting by name appends a new name and replaces an existing one in
    /// place.
    method SetByName(name: string, value: Value)
      modifies this
      ensures properties == Upsert(old(properties), name, value)
      ensures className == old(className)
    {
      var i := FindIndex(properties, name);
      if i < 0 {
        properties := properties + [(name, value)];
      } else {
        properties := properties[i := (name, value)];
      }
    }

    function TryGetPropertyValue(name: string): (r: Option<Value>)
      reads this
      ensures r.None? <==> forall j :: 0 <= j < |properties| ==> properties[j].0 != name
      ensures r.Some? ==> r.value == properties[FindIndex(properties, name)].1
    {
      var i := FindIndex(properties, name);
      if i < 0 then None else Some(properties[i].1)
    }

    function GetPropertyCount(): (r: nat)
      reads this
      ensures r == |properties|
    {
      |properties|
    }

    function GetPropertyIndex(name: string): (r: int)
      reads this
      ensures -1 <= r < |properties|
      ensures r >= 0 ==> properties[r].0 == name && forall j :: 0 <= j < r ==> properties[j].0 != name
      ensures r < 0 <==> forall j :: 0 <= j < |properties| ==> properties[j].0 != name
    {
      FindIndex(properties, name)
    }

    function GetPropertyName(i: int): (r: Result<string, Failure>)
      reads this
      ensures 0 <= i < |properties| <==> r.Ok?
      ensures r.Ok? ==> r.value == properties[i].0
      ensures r.Err? ==> r.error == ArgumentOutOfRange
    {
      if 0 <= i < |properties| then Ok(properties[i].0) else Err(ArgumentOutOfRange)
    }
  }

  /// ThrowDataException(DataException): always throws; the exception has
  /// the fault's message and class name and its non-null properties.
  method ThrowDataException(c: Serializer, dataException: Protocol.DataException) returns (thrown: Failure)
    ensures thrown == Raised(c, dataException)
  {
    var exception := new RemoteDataException(dataException.message);
    exception.SetClassName(dataException.className);
    var props := dataException.properties;
    var i := 0;
    while i < |props|
      invariant 0 <= i <= |props|
      invariant exception.message == dataException.message && exception.className == dataException.className
      invariant exception.properties == ThrownPrefix(c, props, i)
    {
      var p := Properties.FromAny(c, props[i]);
      if !p.IsNullProperty() {
        exception.SetByName(p.Name(), p.value.value);
      }
      assert exception.properties == ThrownPrefix(c, props, i + 1);
      i := i + 1;
    }
    ThrownPrefixIsThrown(c, props, i);
    assert props[..i] == props;
    thrown := exception.AsFailure();
  }

  /// ThrowDataException(Exception): the same for a local exception, whose
  /// properties are read directly.
  method ThrowLocalException(e: NativeDriver.Fault) returns (thrown: Failure)
    ensures thrown == RaisedLocally(e)
  {
    var exception := new RemoteDataException(e.message);
    exception.SetClassName(e.className);
    var i := 0;
    while i < |e.properties|
      invariant 0 <= i <= |e.properties|
      invariant exception.message == e.message && exception.className == e.className
      invariant exception.properties == CollectedProperties(e.properties[..i])
    {
      var (name, val) := e.properties[i];
      if val.Some? {
        exception.SetByName(name, val.value);
      }
      assert e.properties[..i + 1][..i] == e.properties[..i];
      i := i + 1;
    }
    assert e.properties[..i] == e.properties;
    thrown := exception.AsFailure();
  }
}
