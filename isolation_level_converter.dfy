// The two conversions between the isolation levels of System.Data (the native
// driver's enumeration) and the isolation levels of the gateway's wire
// protocol. Both enumerations are open in C#: any integer may be cast to them,
// so the conversions are modelled on integers.
module IsolationLevelConverter {
  /// The seven isolation levels both enumerations name.
  datatype Level = Unspecified | Chaos | ReadUncommitted | ReadCommitted | RepeatableRead | Serializable | Snapshot

  /// The value System.Data.IsolationLevel gives each level.
  function NativeCode(l: Level): int
  {
    match l
    case Unspecified => -1
    case Chaos => 0x10
    case ReadUncommitted => 0x100
    case ReadCommitted => 0x1000
    case RepeatableRead => 0x10000
    case Serializable => 0x100000
    case Snapshot => 0x1000000
  }

  /// The value the wire protocol's IsolationLevel enumeration gives each level.
  function WireCode(l: Level): int
  {
    match l
    case Unspecified => 0
    case Chaos => 1
    case ReadUncommitted => 2
    case ReadCommitted => 3
    case RepeatableRead => 4
    case Serializable => 5
    case Snapshot => 6
  }

  /// The six levels the switch names explicitly; every other value falls
  /// into the default arm.
  predicate Named(l: Level) { l != Snapshot }

  /// Native level to wire level.
  function ToWire(native: int): (wire: int)
    ensures 0 <= wire <= 6
    ensures forall l: Level :: Named(l) && NativeCode(l) == native ==> wire == WireCode(l)
    ensures (forall l: Level :: Named(l) ==> NativeCode(l) != native) <==> wire == WireCode(Snapshot)
  {
    if native == NativeCode(Unspecified) then WireCode(Unspecified)
    else if native == NativeCode(Chaos) then WireCode(Chaos)
    else if native == NativeCode(ReadUncommitted) then WireCode(ReadUncommitted)
    else if native == NativeCode(ReadCommitted) then WireCode(ReadCommitted)
    else if native == NativeCode(RepeatableRead) then WireCode(RepeatableRead)
    else if native == NativeCode(Serializable) then WireCode(Serializable)
    else WireCode(Snapshot)
  }

  /// Wire level to native level.
  function ToNative(wire: int): (native: int)
    ensures exists l: Level :: NativeCode(l) == native
    ensures forall l: Level :: Named(l) && WireCode(l) == wire ==> native == NativeCode(l)
    ensures (forall l: Level :: Named(l) ==> WireCode(l) != wire) <==> native == NativeCode(Snapshot)
  {
    if wire == WireCode(Unspecified) then NativeCode(Unspecified)
    else if wire == WireCode(Chaos) then NativeCode(Chaos)
    else if wire == WireCode(ReadUncommitted) then NativeCode(ReadUncommitted)
    else if wire == WireCode(ReadCommitted) then NativeCode(ReadCommitted)
    else if wire == WireCode(RepeatableRead) then NativeCode(RepeatableRead)
    else if wire == WireCode(Serializable) then NativeCode(Serializable)
    else
      assert NativeCode(Snapshot) == 0x1000000;
      NativeCode(Snapshot)
  }

  /// Every level survives the trip native -> wire -> native, Snapshot
  /// included (it reaches the wire through the default arm).
  lemma NativeRoundTrip(l: Level)
    ensures ToNative(ToWire(NativeCode(l))) == NativeCode(l)
  {
  }

  /// Every level survives the trip wire -> native -> wire.
  lemma WireRoundTrip(l: Level)
    ensures ToWire(ToNative(WireCode(l))) == WireCode(l)
  {
  }

  /// A wire value outside the enumeration (say 99) comes back as Snapshot,
  /// and so does every native value the enumeration does not name.
  lemma UnknownValuesBecomeSnapshot(wire: int, native: int)
    requires wire < 0 || wire > 6
    requires forall l: Level :: NativeCode(l) != native
    ensures ToNative(wire) == NativeCode(Snapshot)
    ensures ToWire(native) == WireCode(Snapshot)
  {
  }

  /// Converting twice in either direction gives the same result as once:
  /// after one conversion the value is always one the other side names.
  lemma ConversionsStabilise(native: int, wire: int)
    ensures ToNative(ToWire(ToNative(ToWire(native)))) == ToNative(ToWire(native))
    ensures ToWire(ToNative(ToWire(ToNative(wire)))) == ToWire(ToNative(wire))
  {
  }
}
