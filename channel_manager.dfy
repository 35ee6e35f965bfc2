// The client's pool of gRPC channels: a table from server address to
// (channel, reference count), shared by every ChannelManager, and the
// managers that each hold one reference. The table is one object passed to
// every manager, where the source keeps it in a static field under a lock.
module ChannelManagers {
  import opened Wrappers
  import opened OrderedLists

  /// A gRPC channel to one address; disposal is the only state it has here.
  class Channel {
    const address: string
    var disposed: bool

    constructor(address: string)
      ensures this.address == address && !disposed
    {
      this.address := address;
      disposed := false;
    }
  }

  /// Table entries in enumeration order: address, channel, reference count.
  type Entries = seq<(string, (Channel, int))>

  /// The index of the first entry holding `channel`, or -1.
  function ChannelIndex(entries: Entries, channel: Channel): (i: int)
    ensures -1 <= i < |entries|
    ensures i >= 0 ==> entries[i].1.0 == channel && forall j :: 0 <= j < i ==> entries[j].1.0 != channel
    ensures i < 0 <==> forall j :: 0 <= j < |entries| ==> entries[j].1.0 != channel
  {
    if |entries| == 0 then -1
    else if entries[0].1.0 == channel then 0
    else
      var k := ChannelIndex(entries[1..], channel);
      if k < 0 then -1 else k + 1
  }

  /// The entry GetChannel(address) leaves for the address: the pooled
  /// channel with one more reference, or `created` with one.
  function AcquiredEntry(entries: Entries, address: string, created: Channel): (Channel, int)
  {
    var i := FindIndex(entries, address);
    if i >= 0 then (entries[i].1.0, entries[i].1.1 + 1) else (created, 1)
  }

  /// The table after GetChannel(address).
  function Acquired(entries: Entries, address: string, created: Channel): Entries
  {
    Upsert(entries, address, AcquiredEntry(entries, address, created))
  }

  /// The table after Dispose(channel): the first entry holding it loses one
  /// reference and goes when none is left; an unknown channel changes nothing.
  function Released(entries: Entries, channel: Channel): Entries
  {
    var i := ChannelIndex(entries, channel);
    if i < 0 then entries
    else if entries[i].1.1 - 1 > 0 then entries[i := (entries[i].0, (channel, entries[i].1.1 - 1))]
    else RemoveAt(entries, i)
  }

  /// Whether Dispose(channel) disposes the channel itself.
  predicate ReleasesLast(entries: Entries, channel: Channel)
  {
    var i := ChannelIndex(entries, channel);
    i >= 0 && entries[i].1.1 - 1 <= 0
  }

  predicate PositiveCounts(entries: Entries)
  {
    forall i :: 0 <= i < |entries| ==> entries[i].1.1 >= 1
  }

  predicate DistinctChannels(entries: Entries)
  {
    forall i, j :: 0 <= i < j < |entries| ==> entries[i].1.0 != entries[j].1.0
  }

  /// Addresses are unique, channels are distinct, every count is positive.
  predicate WellFormed(entries: Entries)
  {
    UniqueNames(entries) && PositiveCounts(entries) && DistinctChannels(entries)
  }

  /// Acquiring keeps the table well formed, as long as a newly created
  /// channel is not already in it.
  lemma {:induction false} AcquireWellFormed(entries: Entries, address: string, created: Channel)
    requires WellFormed(entries) && ChannelIndex(entries, created) < 0
    ensures WellFormed(Acquired(entries, address, created))
  {
    var i := FindIndex(entries, address);
    var a := Acquired(entries, address, created);
    if i >= 0 {
      assert forall j :: 0 <= j < |a| ==> a[j].0 == entries[j].0 && a[j].1.0 == entries[j].1.0 && a[j].1.1 >= entries[j].1.1;
    } else {
      assert forall j :: 0 <= j < |entries| ==> a[j] == entries[j];
      assert a[|entries|] == (address, (created, 1));
    }
  }

  /// Acquiring gives the address one more reference (one, if it is new)
  /// and leaves every other address as it was.
  lemma AcquireCounts(entries: Entries, address: string, created: Channel, other: string)
    requires other != address
    ensures Lookup(Acquired(entries, address, created), other) == Lookup(entries, other)
    ensures Lookup(Acquired(entries, address, created), address) ==
      Some(if Lookup(entries, address).Some? then (Lookup(entries, address).value.0, Lookup(entries, address).value.1 + 1) else (created, 1))
  {
    UpsertLookup(entries, address, AcquiredEntry(entries, address, created), other);
  }

  /// Releasing keeps the table well formed.
  lemma {:induction false} ReleaseWellFormed(entries: Entries, channel: Channel)
    requires WellFormed(entries)
    ensures WellFormed(Released(entries, channel))
  {
    var i := ChannelIndex(entries, channel);
    var r := Released(entries, channel);
    if i >= 0 && entries[i].1.1 - 1 > 0 {
      assert forall j :: 0 <= j < |r| ==> r[j].0 == entries[j].0 && r[j].1.0 == entries[j].1.0 && r[j].1.1 >= 1;
    } else if i >= 0 {
      assert forall j :: 0 <= j < |r| ==> r[j] == entries[if j < i then j else j + 1];
    }
  }

  /// Releasing a channel that keeps references decrements its count in
  /// place; releasing the last one removes it; no other entry changes.
  lemma {:induction false} ReleaseCounts(entries: Entries, channel: Channel)
    requires WellFormed(entries)
    ensures var i := ChannelIndex(entries, channel);
      i >= 0 && !ReleasesLast(entries, channel) ==>
        Released(entries, channel)[i] == (entries[i].0, (channel, entries[i].1.1 - 1))
    ensures ReleasesLast(entries, channel) ==> ChannelIndex(Released(entries, channel), channel) < 0
    ensures forall j :: 0 <= j < |entries| && entries[j].1.0 != channel ==> entries[j] in Released(entries, channel)
  {
    var i := ChannelIndex(entries, channel);
    var r := Released(entries, channel);
    if i >= 0 && entries[i].1.1 - 1 <= 0 {
      forall j | 0 <= j < |entries| && entries[j].1.0 != channel
        ensures entries[j] in r
      {
        if j < i { assert r[j] == entries[j]; } else { assert r[j - 1] == entries[j]; }
      }
      assert forall j :: 0 <= j < |r| ==> r[j] == entries[if j < i then j else j + 1];
    } else if i >= 0 {
      assert forall j :: 0 <= j < |entries| && j != i ==> r[j] == entries[j];
    }
  }

  /// A reference taken and handed back leaves the table as it was, whether
  /// the address was pooled already or not.
  lemma {:induction false} AcquireThenRelease(entries: Entries, address: string, created: Channel)
    requires WellFormed(entries) && ChannelIndex(entries, created) < 0
    ensures Released(Acquired(entries, address, created), AcquiredEntry(entries, address, created).0) == entries
  {
    var i := FindIndex(entries, address);
    var a := Acquired(entries, address, created);
    if i >= 0 {
      assert ChannelIndex(a, entries[i].1.0) == i by {
        assert a[i].1.0 == entries[i].1.0;
        assert forall j :: 0 <= j < i ==> a[j] == entries[j];
      }
      assert a[i := (a[i].0, (entries[i].1.0, a[i].1.1 - 1))] == entries;
    } else {
      assert ChannelIndex(a, created) == |entries| by {
        assert a[|entries|].1.0 == created;
        assert forall j :: 0 <= j < |entries| ==> a[j] == entries[j];
      }
      assert RemoveAt(a, |entries|) == entries;
    }
  }

  /// The shared table of pooled channels.
  class ChannelTable {
    var entries: Entries

    constructor()
      ensures entries == []
    {
      entries := [];
    }

    /// GetChannel: the pooled channel for the address, one more reference.
    method GetChannel(address: string) returns (channel: Channel)
      modifies this
      ensures FindIndex(old(entries), address) >= 0 ==> channel == old(entries)[FindIndex(old(entries), address)].1.0
      ensures FindIndex(old(entries), address) < 0 ==> fresh(channel) && channel.address == address && !channel.disposed
      ensures entries == Acquired(old(entries), address, channel)
    {
      var i := FindIndex(entries, address);
      if i >= 0 {
        channel := entries[i].1.0;
        entries := entries[i := (address, (channel, entries[i].1.1 + 1))];
        return;
      }
      channel := new Channel(address);
      entries := entries + [(address, (channel, 1))];
    }

    /// Dispose(channel): searches the table in order for the channel,
    /// decrements its count, and disposes and removes it at zero.
    method Dispose(channel: Channel)
      modifies this, channel
      ensures entries == Released(old(entries), channel)
      ensures channel.disposed == (old(channel.disposed) || ReleasesLast(old(entries), channel))
    {
      var i := 0;
      while i < |entries|
        invariant 0 <= i <= |entries|
        invariant forall j :: 0 <= j < i ==> entries[j].1.0 != channel
      {
        if entries[i].1.0 == channel {
          assert ChannelIndex(entries, channel) == i;
          var count := entries[i].1.1 - 1;
          if count > 0 {
            entries := entries[i := (entries[i].0, (channel, count))];
          } else {
            channel.disposed := true;
            entries := RemoveAt(entries, i);
          }
          return;
        }
        i := i + 1;
      }
    }
  }

  /// One reference to a pooled channel, handed back once on disposal.
  class ChannelManager {
    const table: ChannelTable
    const channel: Channel
    var disposedValue: bool

    constructor(table: ChannelTable, address: string)
      modifies table
      ensures this.table == table && !disposedValue
      ensures FindIndex(old(table.entries), address) >= 0 ==> channel == old(table.entries)[FindIndex(old(table.entries), address)].1.0
      ensures FindIndex(old(table.entries), address) < 0 ==> fresh(channel) && channel.address == address
      ensures table.entries == Acquired(old(table.entries), address, channel)
    {
      this.table := table;
      var ch := table.GetChannel(address);
      channel := ch;
      disposedValue := false;
    }

    /// Dispose: the first call releases the reference; later calls do
    /// nothing.
    method Dispose()
      modifies this, table, channel
      ensures disposedValue
      ensures old(disposedValue) ==> table.entries == old(table.entries) && channel.disposed == old(channel.disposed)
      ensures !old(disposedValue) ==> table.entries == Released(old(table.entries), channel)
      ensures !old(disposedValue) ==> channel.disposed == (old(channel.disposed) || ReleasesLast(old(table.entries), channel))
    {
      if disposedValue {
        return;
      }
      table.Dispose(channel);
      disposedValue := true;
    }
  }
}
