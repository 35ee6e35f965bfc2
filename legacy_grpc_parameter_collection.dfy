// The older client's parameter collection: a List of parameters with lookup
// by the first parameter whose name is ordinally equal.
module LegacyGrpcParameterCollections {
  import opened Wrappers
  import opened Codec
  import opened ClientFailures

  /// A GrpcParameter as a value: its name and its Value, None being null.
  /// A new parameter holds a bare object, not null.
  datatype GrpcParameter = GrpcParameter(parameterName: string, value: Option<Value>)

  const NewParameter := GrpcParameter("", Some(Placeholder))

  /// The index of the first parameter with this name, or -1.
  function IndexOfName(items: seq<GrpcParameter>, name: string): (i: int)
    ensures -1 <= i < |items|
    ensures i >= 0 ==> items[i].parameterName == name && forall j :: 0 <= j < i ==> items[j].parameterName != name
    ensures i < 0 <==> forall j :: 0 <= j < |items| ==> items[j].parameterName != name
  {
    if items == [] then -1
    else if items[0].parameterName == name then 0
    else
      var k := IndexOfName(items[1..], name);
      if k < 0 then -1 else k + 1
  }

  /// The list without its first parameter of this name.
  function WithoutFirst(items: seq<GrpcParameter>, name: string): seq<GrpcParameter>
  {
    var i := IndexOfName(items, name);
    if i < 0 then items else items[..i] + items[i + 1..]
  }

  /// Removing by name takes out one occurrence only: when the name occurs
  /// twice, it is still found afterwards.
  lemma {:induction false} RemoveFirstFindsNext(items: seq<GrpcParameter>, name: string, a: int, b: int)
    requires 0 <= a < b < |items| && items[a].parameterName == name && items[b].parameterName == name
    ensures |WithoutFirst(items, name)| == |items| - 1
    ensures IndexOfName(WithoutFirst(items, name), name) >= 0
  {
    var i := IndexOfName(items, name);
    var r := WithoutFirst(items, name);
    assert i <= a;
    assert r[b - 1] == items[b];
  }

  /// The search finds the first parameter with the name.
  lemma IndexOfNameIs(items: seq<GrpcParameter>, name: string, k: int)
    requires 0 <= k < |items| && items[k].parameterName == name
    requires forall j :: 0 <= j < k ==> items[j].parameterName != name
    ensures IndexOfName(items, name) == k
  {
  }

  /// A search in a list with one parameter taken out at `i` finds, for a
  /// name other than the one there, the same parameter as before.
  lemma SearchAfterRemoval(items: seq<GrpcParameter>, r: seq<GrpcParameter>, i: int, other: string)
    requires 0 <= i < |items| && |r| == |items| - 1 && items[i].parameterName != other
    requires forall j :: 0 <= j < i ==> r[j] == items[j]
    requires forall j :: i <= j < |r| ==> r[j] == items[j + 1]
    ensures (IndexOfName(r, other) >= 0) == (IndexOfName(items, other) >= 0)
    ensures IndexOfName(items, other) >= 0 ==> r[IndexOfName(r, other)] == items[IndexOfName(items, other)]
  {
    var k := IndexOfName(items, other);
    if k >= 0 {
      var k' := if k < i then k else k - 1;
      assert r[k'] == items[k];
      forall j | 0 <= j < k'
        ensures r[j].parameterName != other
      {
        if j < i {
          assert r[j] == items[j];
        } else {
          assert r[j] == items[j + 1];
        }
      }
      IndexOfNameIs(r, other, k');
    } else {
      forall j | 0 <= j < |r|
        ensures r[j].parameterName != other
      {
        if j < i {
          assert r[j] == items[j];
        } else {
          assert r[j] == items[j + 1];
        }
      }
    }
  }

  /// Removing by name leaves every other name where a search finds the
  /// same parameter as before.
  lemma {:induction false} RemoveFirstKeepsOthers(items: seq<GrpcParameter>, name: string, other: string)
    requires other != name
    ensures (IndexOfName(WithoutFirst(items, name), other) >= 0) == (IndexOfName(items, other) >= 0)
    ensures IndexOfName(items, other) >= 0 ==>
      WithoutFirst(items, name)[IndexOfName(WithoutFirst(items, name), other)] == items[IndexOfName(items, other)]
  {
    var i := IndexOfName(items, name);
    if i >= 0 {
      var r := WithoutFirst(items, name);
      assert forall j :: 0 <= j < i ==> r[j] == items[j];
      assert forall j :: i <= j < |r| ==> r[j] == items[j + 1];
      SearchAfterRemoval(items, r, i, other);
    }
  }

  class GrpcParameterCollection {
    var items: seq<GrpcParameter>

    constructor()
      ensures items == []
    {
      items := [];
    }

    /// List.Add.
    method Add(p: GrpcParameter)
      modifies this
      ensures items == old(items) + [p]
    {
      items := items + [p];
    }

    function IndexOf(name: string): (i: int)
      reads this
      ensures -1 <= i < |items|
      ensures i >= 0 ==> items[i].parameterName == name && forall j :: 0 <= j < i ==> items[j].parameterName != name
      ensures i < 0 <==> forall j :: 0 <= j < |items| ==> items[j].parameterName != name
    {
      IndexOfName(items, name)
    }

    function Contains(name: string): (b: bool)
      reads this
      ensures b <==> exists j :: 0 <= j < |items| && items[j].parameterName == name
    {
      IndexOf(name) >= 0
    }

    /// The getter by name: the first match; a missing name is index -1,
    /// which the List indexer rejects.
    function Get(name: string): (r: Result<GrpcParameter, Failure>)
      reads this
      ensures r.Ok? <==> Contains(name)
      ensures r.Ok? ==> r.value.parameterName == name && r.value == items[IndexOf(name)]
      ensures r.Err? ==> r.error == ArgumentOutOfRange
    {
      var i := IndexOf(name);
      if i < 0 then Err(ArgumentOutOfRange) else Ok(items[i])
    }

    /// The setter by name: a value that is not a GrpcParameter (None) is
    /// ignored; otherwise it replaces the first match, and a missing name
    /// throws.
    method Set(name: string, value: Option<GrpcParameter>) returns (r: Result<(), Failure>)
      modifies this
      ensures value.None? ==> r == Ok(()) && items == old(items)
      ensures value.Some? && IndexOfName(old(items), name) < 0 ==> r == Err(ArgumentOutOfRange) && items == old(items)
      ensures value.Some? && IndexOfName(old(items), name) >= 0 ==>
        r == Ok(()) && items == old(items)[IndexOfName(old(items), name) := value.value]
    {
      if value.None? {
        return Ok(());
      }
      var i := IndexOf(name);
      if i < 0 {
        return Err(ArgumentOutOfRange);
      }
      items := items[i := value.value];
      r := Ok(());
    }

    /// RemoveAt(name): removes the first match only, keeping the order of
    /// the rest; a missing name changes nothing.
    method RemoveAtName(name: string)
      modifies this
      ensures items == WithoutFirst(old(items), name)
      ensures IndexOfName(old(items), name) < 0 ==> items == old(items)
      ensures IndexOfName(old(items), name) >= 0 ==>
        |items| == |old(items)| - 1 &&
        (forall j :: 0 <= j < IndexOfName(old(items), name) ==> items[j] == old(items)[j]) &&
        (forall j :: IndexOfName(old(items), name) <= j < |items| ==> items[j] == old(items)[j + 1])
    {
      var i := IndexOf(name);
      if i < 0 {
        return;
      }
      items := items[..i] + items[i + 1..];
    }
  }
}
