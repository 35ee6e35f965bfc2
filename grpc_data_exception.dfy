// The older client's exception for a fault: the same property bag as the
// newer RemoteDataException, without TryGetPropertyValue and without the
// overload that captures a local exception.
module GrpcDataExceptions {
  import opened Wrappers
  import opened Codec
  import opened OrderedLists
  import opened ClientFailures
  import Properties
  import Protocol
  import RemoteDataExceptions

  class GrpcDataException {
    const message: string
    var className: string
    var properties: seq<(string, Value)>

    function AsFailure(): Failure
      reads this
    {
      Remote(className, message, properties)
    }

    constructor(message: string)
      ensures this.message == message && className == "" && properties == []
    {
      this.message := message;
      className := "";
      properties := [];
    }

    method SetClassName(className: string)
      modifies this
      ensures this.className == className && properties == old(properties)
    {
      this.className := className;
    }

    function GetAt(i: int): (r: Result<Value, Failure>)
      reads this
      ensures 0 <= i < |properties| <==> r.Ok?
      ensures r.Ok? ==> r.value == properties[i].1
      ensures r.Err? ==> r.error == ArgumentOutOfRange
    {
      if 0 <= i < |properties| then Ok(properties[i].1) else Err(ArgumentOutOfRange)
    }

    method SetAt(i: int, value: Value) returns (r: Result<(), Failure>)
      modifies this
      ensures 0 <= i < |old(properties)| ==> r == Ok(()) && properties == old(properties)[i := (old(properties)[i].0, value)]
      ensures !(0 <= i < |old(properties)|) ==> r == Err(ArgumentOutOfRange) && properties == old(properties)
      ensures className == old(className)
    {
      if !(0 <= i < |properties|) {
        return Err(ArgumentOutOfRange);
      }
      properties := properties[i := (properties[i].0, value)];
      r := Ok(());
    }

    function GetByName(name: string): (r: Result<Value, Failure>)
      reads this
      ensures r.Ok? <==> exists j :: 0 <= j < |properties| && properties[j].0 == name
      ensures r.Ok? ==> r.value == properties[FindIndex(properties, name)].1
      ensures r.Err? ==> r.error == ArgumentOutOfRange
    {
      var i := FindIndex(properties, name);
      if i >= 0 then Ok(properties[i].1) else Err(ArgumentOutOfRange)
    }

    method SetByName(name: string, value: Value)
      modifies this
      ensures properties == Upsert(old(properties), name, value)
      ensures className == old(className)
    {
      var i := FindIndex(properties, name);
      if i < 0 {
        properties := properties + [(name, value)];
      } else {
        properties := properties[i := (name, value)];
      }
    }

    function GetPropertyCount(): (r: nat)
      reads this
      ensures r == |properties|
    {
      |properties|
    }

    function GetPropertyIndex(name: string): (r: int)
      reads this
      ensures -1 <= r < |properties|
      ensures r >= 0 ==> properties[r].0 == name && forall j :: 0 <= j < r ==> properties[j].0 != name
      ensures r < 0 <==> forall j :: 0 <= j < |properties| ==> properties[j].0 != name
    {
      FindIndex(properties, name)
    }

    function GetPropertyName(i: int): (r: Result<string, Failure>)
      reads this
      ensures 0 <= i < |properties| <==> r.Ok?
      ensures r.Ok? ==> r.value == properties[i].0
      ensures r.Err? ==> r.error == ArgumentOutOfRange
    {
      if 0 <= i < |properties| then Ok(properties[i].0) else Err(ArgumentOutOfRange)
    }
  }

  /// Always throws; the failure is the same one the newer client raises for
  /// the same fault.
  method ThrowDataException(c: Serializer, dataException: Protocol.DataException) returns (thrown: Failure)
    ensures thrown == RemoteDataExceptions.Raised(c, dataException)
  {
    var exception := new GrpcDataException(dataException.message);
    exception.SetClassName(dataException.className);
    var props := dataException.properties;
    var i := 0;
    while i < |props|
      invariant 0 <= i <= |props|
      invariant exception.message == dataException.message && exception.className == dataException.className
      invariant exception.properties == RemoteDataExceptions.ThrownPrefix(c, props, i)
    {
      var p := Properties.FromAny(c, props[i]);
      if !p.IsNullProperty() {
        exception.SetByName(p.Name(), p.value.value);
      }
      assert exception.properties == RemoteDataExceptions.ThrownPrefix(c, props, i + 1);
      i := i + 1;
    }
    RemoteDataExceptions.ThrownPrefixIsThrown(c, props, i);
    assert props[..i] == props;
    thrown := exception.AsFailure();
  }
}
