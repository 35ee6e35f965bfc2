// Lists of (name, item) pairs searched by the first ordinally equal name, as
// `List<T>.FindIndex` with an ordinal string comparison searches them. The
// server's command and transaction lists, the fault property bags and the
// connection-string options are all of this shape.
module OrderedLists {
  import opened Wrappers

  /// The index of the first entry named `key`, or -1.
  function FindIndex<T>(s: seq<(string, T)>, key: string): (i: int)
    ensures -1 <= i < |s|
    ensures i >= 0 ==> s[i].0 == key && forall j :: 0 <= j < i ==> s[j].0 != key
    ensures i < 0 <==> forall j :: 0 <= j < |s| ==> s[j].0 != key
  {
    if |s| == 0 then -1
    else if s[0].0 == key then 0
    else
      var k := FindIndex(s[1..], key);
      if k < 0 then -1 else k + 1
  }

  /// The item of the first entry named `key`.
  function Lookup<T>(s: seq<(string, T)>, key: string): (r: Option<T>)
    ensures r.None? <==> forall j :: 0 <= j < |s| ==> s[j].0 != key
    ensures r.Some? ==> exists j :: 0 <= j < |s| && s[j] == (key, r.value)
  {
    var i := FindIndex(s, key);
    if i >= 0 then Some(s[i].1) else None
  }

  /// `List<T>.RemoveAt`: the entry at `i` goes, the others keep their order.
  function RemoveAt<T>(s: seq<(string, T)>, i: int): (r: seq<(string, T)>)
    requires 0 <= i < |s|
    ensures |r| == |s| - 1
    ensures forall j :: 0 <= j < i ==> r[j] == s[j]
    ensures forall j :: i <= j < |r| ==> r[j] == s[j + 1]
  {
    s[..i] + s[i + 1..]
  }

  /// Removing the first entry named `key`, if there is one.
  function RemoveFirst<T>(s: seq<(string, T)>, key: string): (r: seq<(string, T)>)
    ensures FindIndex(s, key) < 0 ==> r == s
    ensures FindIndex(s, key) >= 0 ==> |r| == |s| - 1 && multiset(r) + multiset{s[FindIndex(s, key)]} == multiset(s)
    ensures FindIndex(s, key) >= 0 ==>
      (forall j :: 0 <= j < FindIndex(s, key) ==> r[j] == s[j]) &&
      (forall j :: FindIndex(s, key) <= j < |r| ==> r[j] == s[j + 1])
  {
    var i := FindIndex(s, key);
    if i < 0 then s
    else
      assert s == s[..i] + [s[i]] + s[i + 1..];
      RemoveAt(s, i)
  }

  /// No name occurs twice.
  predicate UniqueNames<T>(s: seq<(string, T)>)
  {
    forall i, j :: 0 <= i < j < |s| ==> s[i].0 != s[j].0
  }

  /// Upsert by name: replace the item of the first entry named `key` in
  /// place, or append a new entry at the end.
  function Upsert<T>(s: seq<(string, T)>, key: string, item: T): (r: seq<(string, T)>)
    ensures FindIndex(s, key) < 0 ==> r == s + [(key, item)]
    ensures FindIndex(s, key) >= 0 ==> r == s[FindIndex(s, key) := (key, item)]
  {
    var i := FindIndex(s, key);
    if i < 0 then s + [(key, item)] else s[i := (key, item)]
  }

  /// A search finds the same index in a list that agrees on every name of
  /// `s` and is no shorter, provided the name is in `s` or the lengths are
  /// equal.
  lemma FindIndexByNames<T>(s: seq<(string, T)>, r: seq<(string, T)>, x: string)
    requires |s| <= |r| && forall j :: 0 <= j < |s| ==> r[j].0 == s[j].0
    requires FindIndex(s, x) >= 0 || |r| == |s|
    ensures FindIndex(r, x) == FindIndex(s, x)
  {
    var k := FindIndex(s, x);
    if k >= 0 {
      assert r[k].0 == x;
      assert forall j :: 0 <= j < k ==> r[j].0 != x;
    } else {
      assert forall j :: 0 <= j < |r| ==> r[j].0 != x;
    }
  }

  /// Upserting keeps names unique: it renames nothing, and appends only a
  /// name that was missing.
  lemma UpsertKeepsUnique<T>(s: seq<(string, T)>, key: string, item: T)
    requires UniqueNames(s)
    ensures UniqueNames(Upsert(s, key, item))
  {
    var r := Upsert(s, key, item);
    assert forall j :: 0 <= j < |s| ==> r[j].0 == s[j].0;
    if FindIndex(s, key) < 0 {
      assert r[|s|].0 == key;
    }
  }

  /// After an upsert the name maps to the new item, every other name maps to
  /// what it mapped to before, names stay unique, and the list grows only
  /// when the name was new.
  lemma {:induction false} UpsertLookup<T>(s: seq<(string, T)>, key: string, item: T, other: string)
    requires other != key
    ensures Lookup(Upsert(s, key, item), key) == Some(item)
    ensures Lookup(Upsert(s, key, item), other) == Lookup(s, other)
    ensures |Upsert(s, key, item)| == |s| + (if Lookup(s, key).None? then 1 else 0)
    ensures UniqueNames(s) ==> UniqueNames(Upsert(s, key, item))
  {
    var r := Upsert(s, key, item);
    var i := FindIndex(s, key);
    if UniqueNames(s) {
      UpsertKeepsUnique(s, key, item);
    }
    if i < 0 {
      assert forall j :: 0 <= j < |s| ==> r[j].0 == s[j].0;
      assert r[|s|] == (key, item);
      assert FindIndex(r, key) == |s|;
      if FindIndex(s, other) >= 0 {
        FindIndexByNames(s, r, other);
      } else {
        assert forall j :: 0 <= j < |r| ==> r[j].0 != other;
      }
    } else {
      assert forall j :: 0 <= j < |s| ==> r[j].0 == s[j].0;
      FindIndexByNames(s, r, key);
      FindIndexByNames(s, r, other);
    }
  }
}
