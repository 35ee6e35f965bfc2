// ZonedDateTime: a C# struct holding ticks and a time zone. As a value type
// it is a datatype here; its validating constructor and setter are functions
// that return the new value or the exception they throw.
module ZonedDateTimes {
  import opened Wrappers
  import opened TimeZoneRules

  datatype ZonedDateTime = ZonedDateTime(dateTimeInTicks: Long, timeZone: string)

  /// The parameterless constructor, which skips validation.
  function Default(): (z: ZonedDateTime)
    ensures z.dateTimeInTicks == 0 && z.timeZone == "" && IsNullOrWhiteSpace(Some(z.timeZone))
  {
    ZonedDateTime(0, "")
  }

  /// The two-argument constructor.
  function Create(ticks: Long, zone: Option<string>): (r: Result<ZonedDateTime, ArgumentError>)
    ensures zone.None? ==> r == Err(ArgumentNull("timeZone"))
    ensures zone.Some? && IsNullOrWhiteSpace(zone) ==> r == Err(Argument("timeZone", None))
    ensures !IsNullOrWhiteSpace(zone) ==> r == Ok(ZonedDateTime(ticks, zone.value))
  {
    match CheckZone(zone, "timeZone")
    case Ok(z) => Ok(ZonedDateTime(ticks, z))
    case Err(e) => Err(e)
  }

  /// The DateTimeInTicks setter accepts any long.
  function WithTicks(z: ZonedDateTime, ticks: Long): (r: ZonedDateTime)
    ensures r.dateTimeInTicks == ticks && r.timeZone == z.timeZone
  {
    z.(dateTimeInTicks := ticks)
  }

  /// The TimeZone setter: the same checks as the constructor; on failure the
  /// value is left as it was.
  function WithTimeZone(z: ZonedDateTime, zone: Option<string>): (r: Result<ZonedDateTime, ArgumentError>)
    ensures zone.None? ==> r == Err(ArgumentNull("value"))
    ensures zone.Some? && IsNullOrWhiteSpace(zone) ==> r == Err(Argument("value", None))
    ensures !IsNullOrWhiteSpace(zone) ==> r == Ok(ZonedDateTime(z.dateTimeInTicks, zone.value))
  {
    match CheckZone(zone, "value")
    case Ok(v) => Ok(z.(timeZone := v))
    case Err(e) => Err(e)
  }

  /// Equals(ZonedDateTime): equal ticks and ordinally equal zones, which is
  /// exactly equality of the two values.
  function Equals(a: ZonedDateTime, b: ZonedDateTime): (r: bool)
    ensures r <==> a == b
  {
    a.dateTimeInTicks == b.dateTimeInTicks && a.timeZone == b.timeZone
  }

  /// The argument of Equals(object).
  datatype Obj = Boxed(zoned: ZonedDateTime) | OtherObject

  /// Equals(object): false for anything that is not a ZonedDateTime.
  function EqualsObject(a: ZonedDateTime, o: Obj): (r: bool)
    ensures o.OtherObject? ==> !r
    ensures o.Boxed? ==> (r <==> a == o.zoned)
  {
    o.Boxed? && Equals(a, o.zoned)
  }

  /// `operator ==`.
  function OpEquality(a: ZonedDateTime, b: ZonedDateTime): (r: bool)
    ensures r <==> a == b
  {
    Equals(a, b)
  }

  /// `operator !=` as written: it returns Equals, not its negation.
  function OpInequalityAsWritten(a: ZonedDateTime, b: ZonedDateTime): (r: bool)
    ensures r <==> a == b
  {
    Equals(a, b)
  }

  /// The operator as written is true for a value compared with itself.
  lemma InequalityAsWrittenHoldsOfEqualValues()
    ensures OpInequalityAsWritten(Default(), Default())
    ensures OpInequalityAsWritten(Default(), Default()) == OpEquality(Default(), Default())
  {
  }

  /// `operator !=` as intended: the negation of Equals.
  function OpInequality(a: ZonedDateTime, b: ZonedDateTime): (r: bool)
    ensures r <==> a != b
    ensures r == !OpEquality(a, b)
  {
    !Equals(a, b)
  }

  /// Equals is reflexive and symmetric, and Equals(object) agrees with it on
  /// boxed values.
  lemma EqualsIsEquivalence(a: ZonedDateTime, b: ZonedDateTime)
    ensures Equals(a, a)
    ensures Equals(a, b) == Equals(b, a)
    ensures EqualsObject(a, Boxed(b)) == Equals(a, b)
  {
  }
}
