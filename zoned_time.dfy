// ZonedTime: a C# struct holding the ticks elapsed since midnight and a time zone. As a value type
// it is a datatype here; its validating constructor and setter are functions
// that return the new value or the exception they throw.
module ZonedTimes {
  import opened Wrappers
  import opened TimeZoneRules

  datatype ZonedTime = ZonedTime(timeSpanInTicks: Long, timeZone: string)

  /// The parameterless constructor, which skips validation.
  function Default(): (z: ZonedTime)
    ensures z.timeSpanInTicks == 0 && z.timeZone == "" && IsNullOrWhiteSpace(Some(z.timeZone))
  {
    ZonedTime(0, "")
  }

  /// The two-argument constructor.
  function Create(ticks: Long, zone: Option<string>): (r: Result<ZonedTime, ArgumentError>)
    ensures zone.None? ==> r == Err(ArgumentNull("timeZone"))
    ensures zone.Some? && IsNullOrWhiteSpace(zone) ==> r == Err(Argument("timeZone", None))
    ensures !IsNullOrWhiteSpace(zone) ==> r == Ok(ZonedTime(ticks, zone.value))
  {
    match CheckZone(zone, "timeZone")
    case Ok(z) => Ok(ZonedTime(ticks, z))
    case Err(e) => Err(e)
  }

  /// The TimeSpanInTicks setter accepts any long.
  function WithTicks(z: ZonedTime, ticks: Long): (r: ZonedTime)
    ensures r.timeSpanInTicks == ticks && r.timeZone == z.timeZone
  {
    z.(timeSpanInTicks := ticks)
  }

  /// The TimeZone setter: the same checks as the constructor; on failure the
  /// value is left as it was.
  function WithTimeZone(z: ZonedTime, zone: Option<string>): (r: Result<ZonedTime, ArgumentError>)
    ensures zone.None? ==> r == Err(ArgumentNull("value"))
    ensures zone.Some? && IsNullOrWhiteSpace(zone) ==> r == Err(Argument("value", None))
    ensures !IsNullOrWhiteSpace(zone) ==> r == Ok(ZonedTime(z.timeSpanInTicks, zone.value))
  {
    match CheckZone(zone, "value")
    case Ok(v) => Ok(z.(timeZone := v))
    case Err(e) => Err(e)
  }

  /// Equals(ZonedTime): equal ticks and ordinally equal zones, which is
  /// exactly equality of the two values.
  function Equals(a: ZonedTime, b: ZonedTime): (r: bool)
    ensures r <==> a == b
  {
    a.timeSpanInTicks == b.timeSpanInTicks && a.timeZone == b.timeZone
  }

  /// The argument of Equals(object).
  datatype Obj = Boxed(zoned: ZonedTime) | OtherObject

  /// Equals(object): false for anything that is not a ZonedTime.
  function EqualsObject(a: ZonedTime, o: Obj): (r: bool)
    ensures o.OtherObject? ==> !r
    ensures o.Boxed? ==> (r <==> a == o.zoned)
  {
    o.Boxed? && Equals(a, o.zoned)
  }

  /// `operator ==`.
  function OpEquality(a: ZonedTime, b: ZonedTime): (r: bool)
    ensures r <==> a == b
  {
    Equals(a, b)
  }

  /// `operator !=` as written: it returns Equals, not its negation.
  function OpInequalityAsWritten(a: ZonedTime, b: ZonedTime): (r: bool)
    ensures r <==> a == b
  {
    Equals(a, b)
  }

  /// The operator as written is true for a value compared with itself.
  lemma InequalityAsWrittenHoldsOfEqualValues()
    ensures OpInequalityAsWritten(Default(), Default())
    ensures OpInequalityAsWritten(Default(), Default()) == OpEquality(Default(), Default())
  {
  }

  /// `operator !=` as intended: the negation of Equals.
  function OpInequality(a: ZonedTime, b: ZonedTime): (r: bool)
    ensures r <==> a != b
    ensures r == !OpEquality(a, b)
  {
    !Equals(a, b)
  }

  /// Equals is reflexive and symmetric, and Equals(object) agrees with it on
  /// boxed values.
  lemma EqualsIsEquivalence(a: ZonedTime, b: ZonedTime)
    ensures Equals(a, a)
    ensures Equals(a, b) == Equals(b, a)
    ensures EqualsObject(a, Boxed(b)) == Equals(a, b)
  {
  }
}
