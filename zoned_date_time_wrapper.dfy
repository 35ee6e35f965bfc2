// ZonedDateTimeWrapper: a C# struct holding a UTC DateTime, a time zone and
// an optional offset. A datatype here, with its validating constructors and
// setters as functions returning the new value or the exception.
module ZonedDateTimeWrappers {
  import opened Wrappers
  import opened TimeZoneRules

  datatype DateTimeKind = Unspecified | Utc | Local

  /// A System.DateTime: its ticks and its kind.
  datatype DateTime = DateTime(ticks: int, kind: DateTimeKind)

  /// `DateTime.Equals` compares ticks only; the kind is ignored.
  predicate SameInstant(a: DateTime, b: DateTime)
  {
    a.ticks == b.ticks
  }

  /// The wrapper; the offset is a TimeSpan in ticks, None standing for null.
  datatype ZonedDateTimeWrapper = ZonedDateTimeWrapper(dateTime: DateTime, timeZone: string, offset: Option<Long>)

  /// The parameterless constructor: `new DateTime()` (tick 0, unspecified
  /// kind), an empty zone and no offset, without validation.
  function Default(): (w: ZonedDateTimeWrapper)
    ensures w.timeZone == "" && w.offset.None? && w.dateTime.ticks == 0 && w.dateTime.kind != Utc
  {
    ZonedDateTimeWrapper(DateTime(0, Unspecified), "", None)
  }

  /// The three-argument constructor: the UTC check comes first, then the
  /// zone's null and white-space checks.
  function Create(dateTime: DateTime, zone: Option<string>, offset: Option<Long>): (r: Result<ZonedDateTimeWrapper, ArgumentError>)
    ensures dateTime.kind != Utc ==> r == Err(Argument("Value must be in UTC.", Some("dateTime")))
    ensures dateTime.kind == Utc && zone.None? ==> r == Err(ArgumentNull("timeZone"))
    ensures dateTime.kind == Utc && zone.Some? && IsNullOrWhiteSpace(zone) ==> r == Err(Argument("timeZone", None))
    ensures r.Ok? <==> dateTime.kind == Utc && !IsNullOrWhiteSpace(zone)
    ensures r.Ok? ==> r.value == ZonedDateTimeWrapper(dateTime, zone.value, offset)
  {
    if dateTime.kind != Utc then Err(Argument("Value must be in UTC.", Some("dateTime")))
    else match CheckZone(zone, "timeZone")
      case Ok(z) => Ok(ZonedDateTimeWrapper(dateTime, z, offset))
      case Err(e) => Err(e)
  }

  /// The two-argument constructor delegates with a null offset.
  function CreateWithoutOffset(dateTime: DateTime, zone: Option<string>): (r: Result<ZonedDateTimeWrapper, ArgumentError>)
    ensures r == Create(dateTime, zone, None)
    ensures r.Ok? ==> r.value.offset.None?
  {
    Create(dateTime, zone, None)
  }

  /// The DateTime setter rejects every kind but UTC.
  function WithDateTime(w: ZonedDateTimeWrapper, dateTime: DateTime): (r: Result<ZonedDateTimeWrapper, ArgumentError>)
    ensures dateTime.kind != Utc <==> r == Err(Argument("Value must be in UTC.", Some("value")))
    ensures dateTime.kind == Utc ==> r == Ok(ZonedDateTimeWrapper(dateTime, w.timeZone, w.offset))
  {
    if dateTime.kind != Utc then Err(Argument("Value must be in UTC.", Some("value"))) else Ok(w.(dateTime := dateTime))
  }

  /// The TimeZone setter rejects a null, empty or white-space zone.
  function WithTimeZone(w: ZonedDateTimeWrapper, zone: Option<string>): (r: Result<ZonedDateTimeWrapper, ArgumentError>)
    ensures zone.None? ==> r == Err(ArgumentNull("value"))
    ensures zone.Some? && IsNullOrWhiteSpace(zone) ==> r == Err(Argument("value", None))
    ensures !IsNullOrWhiteSpace(zone) ==> r == Ok(ZonedDateTimeWrapper(w.dateTime, zone.value, w.offset))
  {
    match CheckZone(zone, "value")
    case Ok(z) => Ok(w.(timeZone := z))
    case Err(e) => Err(e)
  }

  /// The Offset property has no check.
  function WithOffset(w: ZonedDateTimeWrapper, offset: Option<Long>): (r: ZonedDateTimeWrapper)
    ensures r.offset == offset && r.dateTime == w.dateTime && r.timeZone == w.timeZone
  {
    w.(offset := offset)
  }

  /// Equals(ZonedDateTimeWrapper): the same instant, ordinally equal zones,
  /// and offsets both absent or both present and equal.
  function Equals(a: ZonedDateTimeWrapper, b: ZonedDateTimeWrapper): (r: bool)
    ensures r <==> a.dateTime.ticks == b.dateTime.ticks && a.timeZone == b.timeZone && a.offset == b.offset
  {
    SameInstant(a.dateTime, b.dateTime) && a.timeZone == b.timeZone &&
    ((a.offset.None? && b.offset.None?) || (a.offset.Some? && b.offset.Some? && a.offset.value == b.offset.value))
  }

  /// Because DateTime.Equals ignores the kind, Equals is coarser than
  /// equality of values: the default wrapper equals one whose DateTime was
  /// reset to the same tick in UTC.
  lemma EqualsIgnoresKind()
    ensures WithDateTime(Default(), DateTime(0, Utc)).Ok?
    ensures Equals(Default(), WithDateTime(Default(), DateTime(0, Utc)).value)
    ensures Default() != WithDateTime(Default(), DateTime(0, Utc)).value
  {
  }

  /// Equals is reflexive and symmetric, and equal values are Equal.
  lemma EqualsIsEquivalence(a: ZonedDateTimeWrapper, b: ZonedDateTimeWrapper)
    ensures Equals(a, a)
    ensures Equals(a, b) == Equals(b, a)
    ensures a == b ==> Equals(a, b)
  {
  }

  datatype Obj = Boxed(wrapper: ZonedDateTimeWrapper) | OtherObject

  /// Equals(object): false for anything that is not a wrapper.
  function EqualsObject(a: ZonedDateTimeWrapper, o: Obj): (r: bool)
    ensures o.OtherObject? ==> !r
    ensures o.Boxed? ==> r == Equals(a, o.wrapper)
  {
    o.Boxed? && Equals(a, o.wrapper)
  }

  /// `operator ==`.
  function OpEquality(a: ZonedDateTimeWrapper, b: ZonedDateTimeWrapper): (r: bool)
    ensures r <==> a.dateTime.ticks == b.dateTime.ticks && a.timeZone == b.timeZone && a.offset == b.offset
  {
    Equals(a, b)
  }

  /// `operator !=` as written: it returns Equals.
  function OpInequalityAsWritten(a: ZonedDateTimeWrapper, b: ZonedDateTimeWrapper): (r: bool)
    ensures r <==> a.dateTime.ticks == b.dateTime.ticks && a.timeZone == b.timeZone && a.offset == b.offset
  {
    Equals(a, b)
  }

  /// The operator as written says a wrapper differs from itself.
  lemma InequalityAsWrittenHoldsOfEqualValues(a: ZonedDateTimeWrapper)
    ensures OpInequalityAsWritten(a, a) && OpEquality(a, a)
  {
  }

  /// `operator !=` as intended.
  function OpInequality(a: ZonedDateTimeWrapper, b: ZonedDateTimeWrapper): (r: bool)
    ensures r == !OpEquality(a, b)
    ensures a == b ==> !r
  {
    !Equals(a, b)
  }
}
