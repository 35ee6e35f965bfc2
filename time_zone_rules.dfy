// The argument checks the three zoned value types share: a time zone must be
// present and must not be empty or made only of white space.
module TimeZoneRules {
  import opened Wrappers

  /// C# `long`.
  type Long = x: int | -0x8000_0000_0000_0000 <= x < 0x8000_0000_0000_0000

  /// The exceptions the checks throw. ArgumentNullException(name) sets the
  /// parameter name; ArgumentException(text) sets only the message, and
  /// ArgumentException(text, name) both.
  datatype ArgumentError = ArgumentNull(paramName: string) | Argument(message: string, namedParam: Option<string>)

  /// `char.IsWhiteSpace`: the characters of the Unicode White_Space property.
  predicate IsWhiteSpace(c: char)
  {
    c == ' ' || ('\t' <= c <= '\r') || c == '\U{85}' || c == '\U{A0}' || c == '\U{1680}' ||
    ('\U{2000}' <= c <= '\U{200A}') || c == '\U{2028}' || c == '\U{2029}' || c == '\U{202F}' ||
    c == '\U{205F}' || c == '\U{3000}'
  }

  /// `string.IsNullOrWhiteSpace`, None standing for null.
  predicate IsNullOrWhiteSpace(s: Option<string>)
  {
    s.None? || forall i :: 0 <= i < |s.value| ==> IsWhiteSpace(s.value[i])
  }

  /// The null check, then the white-space check, in that order. Both pass
  /// the parameter's name, the second as the exception's message.
  function CheckZone(zone: Option<string>, name: string): (r: Result<string, ArgumentError>)
    ensures r.Ok? <==> !IsNullOrWhiteSpace(zone)
    ensures r.Ok? ==> zone == Some(r.value) && r.value != ""
    ensures zone.None? ==> r == Err(ArgumentNull(name))
    ensures zone.Some? && IsNullOrWhiteSpace(zone) ==> r == Err(Argument(name, None))
  {
    if zone.None? then Err(ArgumentNull(name))
    else if IsNullOrWhiteSpace(zone) then Err(Argument(name, None))
    else Ok(zone.value)
  }
}
