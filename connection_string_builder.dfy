// The client's connection-string builder: an ordered dictionary of options,
// parsed from a string by a key-pair pattern and printed back with quoting.
// The pattern's matches are computed by a scanner that follows the .NET
// regex engine on this one pattern: three alternatives (double-quoted,
// single-quoted, bare value) tried in that order at each position, scanning
// resumes after a match or one character on.
module ConnectionStrings {
  import opened Wrappers
  import opened OrderedLists
  import TimeZoneRules

  /// Options in enumeration order; keys are compared ordinally.
  type Options = seq<(string, string)>

  // ---------------------------------------------------------------- the key-pair pattern

  /// `\w` and `\d`, restricted to ASCII.
  predicate IsWordChar(c: char)
  {
    'a' <= c <= 'z' || 'A' <= c <= 'Z' || '0' <= c <= '9' || c == '_'
  }

  /// The key class `[\w\s\d]`.
  predicate IsKeyChar(c: char)
  {
    IsWordChar(c) || TimeZoneRules.IsWhiteSpace(c)
  }

  /// The length of the longest prefix of key characters.
  function KeyLength(s: string): (n: nat)
    ensures n <= |s|
    ensures forall i :: 0 <= i < n ==> IsKeyChar(s[i])
    ensures n < |s| ==> !IsKeyChar(s[n])
  {
    if s == [] || !IsKeyChar(s[0]) then 0 else 1 + KeyLength(s[1..])
  }

  /// The length of the longest prefix of white space.
  function WhiteSpaceLength(s: string): (n: nat)
    ensures n <= |s|
    ensures forall i :: 0 <= i < n ==> TimeZoneRules.IsWhiteSpace(s[i])
    ensures n < |s| ==> !TimeZoneRules.IsWhiteSpace(s[n])
  {
    if s == [] || !TimeZoneRules.IsWhiteSpace(s[0]) then 0 else 1 + WhiteSpaceLength(s[1..])
  }

  /// The index of the first `c` in `s`, or -1.
  function IndexOf(s: string, c: char): (i: int)
    ensures -1 <= i < |s|
    ensures i >= 0 ==> s[i] == c && forall j :: 0 <= j < i ==> s[j] != c
    ensures i < 0 <==> forall j :: 0 <= j < |s| ==> s[j] != c
  {
    if s == [] then -1
    else if s[0] == c then 0
    else
      var k := IndexOf(s[1..], c);
      if k < 0 then -1 else k + 1
  }

  /// The key and value groups of one match.
  datatype KeyPair = KeyPair(key: string, value: string)

  /// `\s*?Q([^Q]*)Q` after the equals sign: the value and the length consumed.
  function QuotedValue(rest: string, quote: char): (r: Option<(string, nat)>)
    ensures r.Some? ==> 0 < r.value.1 <= |rest|
  {
    var w := WhiteSpaceLength(rest);
    if w < |rest| && rest[w] == quote then
      var c := IndexOf(rest[w + 1..], quote);
      if c >= 0 then Some((rest[w + 1..w + 1 + c], w + 2 + c)) else None
    else None
  }

  /// `\s*?([^"';][^;]*)` after the equals sign: the value runs to the next
  /// semicolon, leading white space included.
  function BareValue(rest: string): (r: Option<(string, nat)>)
    ensures r.Some? ==> 0 < r.value.1 <= |rest|
  {
    if |rest| > 0 && rest[0] != '"' && rest[0] != '\'' && rest[0] != ';' then
      var e := IndexOf(rest, ';');
      var n := if e < 0 then |rest| else e;
      Some((rest[..n], n))
    else None
  }

  /// The three alternatives after the equals sign, in order.
  function ValueAt(rest: string): (r: Option<(string, nat)>)
    ensures r.Some? ==> 0 < r.value.1 <= |rest|
  {
    if QuotedValue(rest, '"').Some? then QuotedValue(rest, '"')
    else if QuotedValue(rest, '\'').Some? then QuotedValue(rest, '\'')
    else BareValue(rest)
  }

  /// The match starting at the first character of `s`, if any, and its
  /// length. The key runs to the equals sign; a shorter key never helps.
  function MatchAt(s: string): (r: Option<(KeyPair, nat)>)
    ensures r.Some? ==> 0 < r.value.1 <= |s|
  {
    var k := KeyLength(s);
    if k < |s| && s[k] == '=' then
      var v := ValueAt(s[k + 1..]);
      if v.Some? then Some((KeyPair(s[..k], v.value.0), k + 1 + v.value.1)) else None
    else None
  }

  /// `Regex.Matches`: every match, left to right, without overlap.
  function Matches(s: string): seq<KeyPair>
    decreases |s|
  {
    if s == [] then []
    else
      var m := MatchAt(s);
      if m.Some? then [m.value.0] + Matches(s[m.value.1..]) else Matches(s[1..])
  }

  // ---------------------------------------------------------------- loading

  /// `char.ToUpperInvariant` on ASCII letters.
  function Upper(c: char): char
  {
    if 'a' <= c <= 'z' then (c as int - 32) as char else c
  }

  /// `StringComparison.OrdinalIgnoreCase`.
  predicate EqualsIgnoreCase(a: string, b: string)
  {
    |a| == |b| && forall i :: 0 <= i < |a| ==> Upper(a[i]) == Upper(b[i])
  }

  predicate ContainsKeyIgnoreCase(options: Options, key: string)
  {
    exists i :: 0 <= i < |options| && EqualsIgnoreCase(options[i].0, key)
  }

  predicate IsProvider(key: string)
  {
    EqualsIgnoreCase(key, "provider")
  }

  /// One match applied to the options: skipped when its key or value is
  /// empty, or when it repeats the provider key; otherwise an upsert.
  function Step(options: Options, m: KeyPair): Options
  {
    if m.key == "" || m.value == "" then options
    else if ContainsKeyIgnoreCase(options, m.key) && IsProvider(m.key) then options
    else Upsert(options, m.key, m.value)
  }

  /// The matches applied in order to empty options.
  function Loaded(ms: seq<KeyPair>): Options
  {
    if ms == [] then [] else Step(Loaded(ms[..|ms| - 1]), ms[|ms| - 1])
  }

  /// The options a connection string yields.
  function Parse(connectionString: string): Options
  {
    if connectionString == "" then [] else Loaded(Matches(connectionString))
  }

  /// The last non-empty value matched under exactly this key.
  function LastValue(ms: seq<KeyPair>, key: string): Option<string>
  {
    if ms == [] then None
    else if ms[|ms| - 1].key == key && ms[|ms| - 1].value != "" then Some(ms[|ms| - 1].value)
    else LastValue(ms[..|ms| - 1], key)
  }

  /// The first usable match whose key is the provider key in any casing.
  function FirstProvider(ms: seq<KeyPair>): (r: Option<KeyPair>)
    ensures r.Some? ==> r.value.key != "" && r.value.value != "" && IsProvider(r.value.key) && r.value in ms
  {
    if ms == [] then None
    else if FirstProvider(ms[..|ms| - 1]).Some? then FirstProvider(ms[..|ms| - 1])
    else
      var m := ms[|ms| - 1];
      if m.key != "" && m.value != "" && IsProvider(m.key) then Some(m) else None
  }

  /// Loaded options never repeat a key.
  lemma {:induction false} LoadedUnique(ms: seq<KeyPair>)
    ensures UniqueNames(Loaded(ms))
  {
    if ms != [] {
      var init := ms[..|ms| - 1];
      var m := ms[|ms| - 1];
      LoadedUnique(init);
      if m.key != "" && m.value != "" {
        UpsertLookup(Loaded(init), m.key, m.value, m.key + "=");
      }
    }
  }

  /// A key other than the provider key takes the last non-empty value
  /// matched under it.
  lemma {:induction false} LoadedLookup(ms: seq<KeyPair>, key: string)
    requires key != "" && !IsProvider(key)
    ensures Lookup(Loaded(ms), key) == LastValue(ms, key)
  {
    if ms != [] {
      var init := ms[..|ms| - 1];
      var m := ms[|ms| - 1];
      LoadedLookup(init, key);
      if m.key != "" && m.value != "" && !(ContainsKeyIgnoreCase(Loaded(init), m.key) && IsProvider(m.key)) {
        if m.key == key {
          UpsertLookup(Loaded(init), key, m.value, key + "=");
        } else {
          UpsertLookup(Loaded(init), m.key, m.value, key);
        }
      }
    }
  }

  /// The provider key keeps the first value: the options hold at most one
  /// key that is the provider key in some casing, and it is the first
  /// usable provider match, with that match's value.
  lemma {:induction false} ProviderKeepsFirst(ms: seq<KeyPair>)
    ensures forall i :: 0 <= i < |Loaded(ms)| && IsProvider(Loaded(ms)[i].0) ==>
      FirstProvider(ms) == Some(KeyPair(Loaded(ms)[i].0, Loaded(ms)[i].1))
    ensures FirstProvider(ms).Some? ==> (FirstProvider(ms).value.key, FirstProvider(ms).value.value) in Loaded(ms)
  {
    if ms != [] {
      var init := ms[..|ms| - 1];
      var m := ms[|ms| - 1];
      var prev := Loaded(init);
      ProviderKeepsFirst(init);
      var r := Loaded(ms);
      if m.key != "" && m.value != "" && !(ContainsKeyIgnoreCase(prev, m.key) && IsProvider(m.key)) {
        var i := FindIndex(prev, m.key);
        if IsProvider(m.key) {
          assert !ContainsKeyIgnoreCase(prev, m.key);
          assert forall j :: 0 <= j < |prev| ==> !IsProvider(prev[j].0) by {
            forall j | 0 <= j < |prev| ensures !IsProvider(prev[j].0) {
              if IsProvider(prev[j].0) {
                assert EqualsIgnoreCase(prev[j].0, m.key);
              }
            }
          }
          assert i < 0 by {
            forall j | 0 <= j < |prev| ensures prev[j].0 != m.key {
              assert !EqualsIgnoreCase(prev[j].0, m.key);
            }
          }
          assert r == prev + [(m.key, m.value)];
          assert r[|prev|] == (m.key, m.value);
        } else if i >= 0 {
          assert r == prev[i := (m.key, m.value)];
          assert forall j :: 0 <= j < |r| && j != i ==> r[j] == prev[j];
          if FirstProvider(init).Some? {
            var p := FirstProvider(init).value;
            var j :| 0 <= j < |prev| && prev[j] == (p.key, p.value);
            assert IsProvider(p.key);
            assert j != i;
            assert r[j] == prev[j];
          }
        } else {
          assert r == prev + [(m.key, m.value)];
          assert forall j :: 0 <= j < |prev| ==> r[j] == prev[j];
          if FirstProvider(init).Some? {
            var p := FirstProvider(init).value;
            var j :| 0 <= j < |prev| && prev[j] == (p.key, p.value);
            assert r[j] == prev[j];
          }
        }
      } else {
        assert r == prev;
        if m.key != "" && m.value != "" && IsProvider(m.key) {
          var j :| 0 <= j < |prev| && EqualsIgnoreCase(prev[j].0, m.key);
          assert IsProvider(prev[j].0);
          assert FirstProvider(init).Some?;
        }
      }
    }
  }

  // ---------------------------------------------------------------- printing

  /// WrapValue: quoting that lets the value be read back.
  function WrapValue(value: string): string
  {
    if |value| > 0 && value[0] == '\'' then "\"" + value + "\""
    else if |value| > 0 && value[0] == '"' then "'" + value + "'"
    else if ';' in value || (|value| > 0 && value[0] == ' ') || (|value| > 0 && value[|value| - 1] == ' ') then "'" + value + "'"
    else value
  }

  function PairText(key: string, value: string): string
  {
    key + "=" + WrapValue(value)
  }

  /// ToString: `key=value` entries joined with ";".
  function Joined(options: Options): string
  {
    if options == [] then ""
    else if |options| == 1 then PairText(options[0].0, options[0].1)
    else PairText(options[0].0, options[0].1) + (";" + Joined(options[1..]))
  }

  /// A key printed as is and read back whole.
  predicate PlainKey(key: string)
  {
    key != "" && forall i :: 0 <= i < |key| ==> IsKeyChar(key[i])
  }

  /// A value that WrapValue quotes, or leaves bare, so that it reads back:
  /// the quote it is wrapped in does not occur inside it.
  predicate ReadableValue(value: string)
  {
    value != "" &&
    ((forall i :: 0 <= i < |value| ==> value[i] != '"' && value[i] != '\'') ||
     (value[0] == '\'' && forall i :: 0 <= i < |value| ==> value[i] != '"') ||
     (value[0] == '"' && forall i :: 0 <= i < |value| ==> value[i] != '\''))
  }

  lemma {:induction false} KeyLengthAppend(a: string, b: string)
    requires forall i :: 0 <= i < |a| ==> IsKeyChar(a[i])
    ensures KeyLength(a + b) == |a| + KeyLength(b)
  {
    if a != [] {
      assert (a + b)[0] == a[0];
      assert (a + b)[1..] == a[1..] + b;
      assert forall i :: 0 <= i < |a[1..]| ==> IsKeyChar(a[1..][i]) by {
        forall i | 0 <= i < |a[1..]| ensures IsKeyChar(a[1..][i]) {
          assert a[1..][i] == a[i + 1];
        }
      }
      KeyLengthAppend(a[1..], b);
    } else {
      assert a + b == b;
    }
  }

  lemma {:induction false} IndexOfAppend(a: string, c: char, b: string)
    requires forall i :: 0 <= i < |a| ==> a[i] != c
    ensures IndexOf(a + [c] + b, c) == |a|
  {
    var s := a + [c] + b;
    assert s[|a|] == c;
    assert forall j :: 0 <= j < |a| ==> s[j] == a[j];
  }

  /// A wrapped value: the opening quote, then the value up to the closing one.
  lemma {:induction false} QuotedReadsBack(value: string, q: char, tail: string)
    requires q == '"' || q == '\''
    requires forall i :: 0 <= i < |value| ==> value[i] != q
    ensures QuotedValue([q] + value + [q] + tail, q) == Some((value, |value| + 2))
  {
    var rest := [q] + value + [q] + tail;
    assert WhiteSpaceLength(rest) == 0;
    assert rest[1..] == value + [q] + tail;
    IndexOfAppend(value, q, tail);
    assert rest[1..1 + |value|] == value;
  }

  /// A value that starts with something other than white space or the
  /// quote does not match the quoted alternative.
  lemma {:induction false} OtherQuoteFails(rest: string, q: char)
    requires |rest| > 0 && rest[0] != q && !TimeZoneRules.IsWhiteSpace(rest[0])
    ensures QuotedValue(rest, q).None?
  {
    assert WhiteSpaceLength(rest) == 0;
  }

  /// A bare value without quotes matches neither quoted alternative, and
  /// the bare one reads it to the semicolon.
  lemma {:induction false} BareReadsBack(value: string, tail: string)
    requires value != "" && value[0] != ';'
    requires forall i :: 0 <= i < |value| ==> value[i] != '"' && value[i] != '\'' && value[i] != ';'
    requires tail == [] || tail[0] == ';'
    ensures ValueAt(value + tail) == Some((value, |value|))
  {
    var rest := value + tail;
    var w := WhiteSpaceLength(rest);
    assert w <= |value| by {
      assert |rest| == |value| || rest[|value|] == ';';
    }
    assert !(w < |rest| && (rest[w] == '"' || rest[w] == '\'')) by {
      if w < |value| {
        assert rest[w] == value[w];
      } else if w < |rest| {
        assert rest[w] == tail[0];
      }
    }
    assert QuotedValue(rest, '"').None?;
    assert QuotedValue(rest, '\'').None?;
    assert rest[0] == value[0];
    if tail == [] {
      assert rest == value;
      assert IndexOf(rest, ';') < 0;
      assert rest[..|value|] == value;
    } else {
      assert tail == [';'] + tail[1..];
      assert rest == value + [';'] + tail[1..];
      IndexOfAppend(value, ';', tail[1..]);
      assert rest[..|value|] == value;
    }
  }

  /// The value part of a printed pair reads back as the value.
  lemma {:induction false} WrappedReadsBack(value: string, tail: string)
    requires ReadableValue(value)
    requires tail == [] || tail[0] == ';'
    ensures ValueAt(WrapValue(value) + tail) == Some((value, |WrapValue(value)|))
  {
    var w := WrapValue(value);
    if value[0] == '\'' {
      assert w + tail == ['"'] + value + ['"'] + tail;
      QuotedReadsBack(value, '"', tail);
    } else if value[0] == '"' {
      assert w + tail == ['\''] + value + ['\''] + tail;
      OtherQuoteFails(w + tail, '"');
      QuotedReadsBack(value, '\'', tail);
    } else if w != value {
      assert w + tail == ['\''] + value + ['\''] + tail;
      OtherQuoteFails(w + tail, '"');
      QuotedReadsBack(value, '\'', tail);
    } else {
      BareReadsBack(value, tail);
    }
  }

  /// A printed pair, followed by nothing or by a semicolon, is one match
  /// that gives back its key and value and ends where the pair ends.
  lemma {:induction false} PairMatches(key: string, value: string, tail: string)
    requires PlainKey(key) && ReadableValue(value)
    requires tail == [] || tail[0] == ';'
    ensures MatchAt(PairText(key, value) + tail) == Some((KeyPair(key, value), |PairText(key, value)|))
  {
    var w := WrapValue(value);
    var s := PairText(key, value) + tail;
    var rest := w + tail;
    assert s == key + "=" + rest;
    assert |PairText(key, value)| == |key| + 1 + |w|;
    KeyStopsAtEquals(key, rest);
    assert s[|key|] == '=';
    assert s[|key| + 1..] == rest;
    assert s[..|key|] == key;
    MatchAfterKey(s, key, rest);
    WrappedReadsBack(value, tail);
    var m := MatchAt(s);
    assert m.Some? && m.value.0 == KeyPair(key, value) && m.value.1 == |PairText(key, value)|;
  }

  /// A plain key stops at the equals sign.
  lemma {:induction false} KeyStopsAtEquals(key: string, rest: string)
    requires PlainKey(key)
    ensures KeyLength(key + "=" + rest) == |key|
  {
    assert key + "=" + rest == key + ("=" + rest);
    KeyLengthAppend(key, "=" + rest);
    assert KeyLength("=" + rest) == 0 by {
      assert ("=" + rest)[0] == '=';
      assert !IsKeyChar('=');
    }
  }

  /// A string whose key runs to an equals sign matches exactly when what
  /// follows the sign holds a value; the match is that key and value, and
  /// its length counts the key, the sign and the value's text.
  lemma {:induction false} MatchAfterKey(s: string, key: string, rest: string)
    requires KeyLength(s) == |key| < |s| && s[|key|] == '='
    requires s[..|key|] == key && s[|key| + 1..] == rest
    ensures MatchAt(s).Some? == ValueAt(rest).Some?
    ensures MatchAt(s).Some? ==> MatchAt(s).value.0 == KeyPair(key, ValueAt(rest).value.0)
    ensures MatchAt(s).Some? ==> MatchAt(s).value.1 == |key| + 1 + ValueAt(rest).value.1
  {
  }

  /// The pairs of a list of options, as matches.
  function PairsOf(options: Options): seq<KeyPair>
  {
    seq(|options|, i requires 0 <= i < |options| => KeyPair(options[i].0, options[i].1))
  }

  /// Options that print and read back: plain keys, distinct even ignoring
  /// case, and readable values.
  predicate Printable(options: Options)
  {
    (forall i :: 0 <= i < |options| ==> PlainKey(options[i].0) && ReadableValue(options[i].1)) &&
    (forall i, j :: 0 <= i < j < |options| ==> !EqualsIgnoreCase(options[i].0, options[j].0))
  }

  /// A semicolon starts no match.
  lemma {:induction false} SemicolonSkipped(tail: string)
    requires |tail| > 0 && tail[0] == ';'
    ensures Matches(tail) == Matches(tail[1..])
  {
    assert KeyLength(tail) == 0;
  }

  /// Scanning a printed pair and what follows it: the pair's match, then
  /// the matches of the rest.
  lemma {:induction false} PairThenTail(key: string, value: string, tail: string)
    requires PlainKey(key) && ReadableValue(value)
    requires tail == [] || tail[0] == ';'
    ensures Matches(PairText(key, value) + tail) == [KeyPair(key, value)] + Matches(tail)
  {
    var s := PairText(key, value) + tail;
    PairMatches(key, value, tail);
    assert s[|PairText(key, value)|..] == tail;
  }

  /// Scanning printed options finds exactly their pairs, in order.
  lemma {:induction false} MatchesOfJoined(options: Options)
    requires forall i :: 0 <= i < |options| ==> PlainKey(options[i].0) && ReadableValue(options[i].1)
    ensures Matches(Joined(options)) == PairsOf(options)
  {
    if |options| == 1 {
      PairThenTail(options[0].0, options[0].1, []);
      assert Joined(options) == PairText(options[0].0, options[0].1) + [];
    } else if |options| > 1 {
      var tail := ";" + Joined(options[1..]);
      PairThenTail(options[0].0, options[0].1, tail);
      SemicolonSkipped(tail);
      assert tail[1..] == Joined(options[1..]);
      MatchesOfJoined(options[1..]);
      assert PairsOf(options) == [KeyPair(options[0].0, options[0].1)] + PairsOf(options[1..]);
    }
  }

  /// Loading the pairs of printable options gives the options back.
  lemma {:induction false} LoadedPairs(options: Options)
    requires Printable(options)
    ensures Loaded(PairsOf(options)) == options
    decreases |options|
  {
    if options != [] {
      var init := options[..|options| - 1];
      var last := options[|options| - 1];
      assert PairsOf(options)[..|options| - 1] == PairsOf(init);
      LoadedPairs(init);
      assert forall j :: 0 <= j < |init| ==> !EqualsIgnoreCase(init[j].0, last.0) by {
        forall j | 0 <= j < |init| ensures !EqualsIgnoreCase(init[j].0, last.0) {
          assert options[j] == init[j];
        }
      }
      assert forall j :: 0 <= j < |init| ==> init[j].0 != last.0 by {
        forall j | 0 <= j < |init| ensures init[j].0 != last.0 {
          assert !EqualsIgnoreCase(init[j].0, last.0);
        }
      }
      assert init + [(last.0, last.1)] == options;
    }
  }

  /// Printing and parsing again gives the same options, as for
  /// "key1=value1;key2=value2".
  lemma PrintedOptionsParseBack(options: Options)
    requires Printable(options)
    ensures Parse(Joined(options)) == options
  {
    MatchesOfJoined(options);
    LoadedPairs(options);
    if options != [] {
      assert |Joined(options)| > 0;
    }
  }

  /// One wrapped value reads back as itself.
  lemma WrappedValueParsesBack(key: string, value: string)
    requires PlainKey(key) && ReadableValue(value) && !IsProvider(key)
    ensures Parse(PairText(key, value)) == [(key, value)]
  {
    PrintedOptionsParseBack([(key, value)]);
  }

  /// "key1=value1;key2=value2" reads as two options and prints back as
  /// itself.
  lemma TwoPairsRoundTrip()
    ensures Parse("key1=value1;key2=value2") == [("key1", "value1"), ("key2", "value2")]
    ensures Joined(Parse("key1=value1;key2=value2")) == "key1=value1;key2=value2"
  {
    var options := [("key1", "value1"), ("key2", "value2")];
    assert !EqualsIgnoreCase("key1", "key2") by {
      assert Upper("key1"[3]) != Upper("key2"[3]);
    }
    assert PlainKey("key1") && PlainKey("key2");
    assert ReadableValue("value1") && ReadableValue("value2");
    assert Printable(options);
    assert WrapValue("value1") == "value1" && WrapValue("value2") == "value2";
    assert Joined(options[1..]) == "key2=value2";
    assert Joined(options) == "key1=value1;key2=value2";
    PrintedOptionsParseBack(options);
  }

  /// The builder itself.
  class ConnectionStringBuilder {
    var options: Options

    /// Keys are unique, as in a dictionary.
    predicate Valid()
      reads this
    {
      UniqueNames(options)
    }

    constructor()
      ensures options == [] && Valid()
    {
      options := [];
    }

    constructor FromConnectionString(connectionString: string)
      ensures options == Parse(connectionString) && Valid()
    {
      options := [];
      new;
      SetConnectionString(connectionString);
    }

    /// ConnectionString's getter, ToString.
    function ConnectionString(): string
      reads this
    {
      Joined(options)
    }

    /// ConnectionString's setter, FromString: the options are cleared, then
    /// each match is applied in order.
    method SetConnectionString(connectionString: string)
      modifies this
      ensures options == Parse(connectionString)
      ensures Valid()
    {
      options := [];
      if connectionString == "" {
        return;
      }
      var matches := Matches(connectionString);
      var i := 0;
      while i < |matches|
        invariant 0 <= i <= |matches|
        invariant options == Loaded(matches[..i])
      {
        var key, value := matches[i].key, matches[i].value;
        if key == "" || value == "" {
        } else if ContainsKeyIgnoreCase(options, key) && EqualsIgnoreCase(key, "provider") {
        } else {
          options := Upsert(options, key, value);
        }
        assert matches[..i + 1][..i] == matches[..i];
        i := i + 1;
      }
      assert matches[..i] == matches;
      LoadedUnique(matches);
    }

    /// The indexer's getter: the value of the first key equal ignoring
    /// case, or "".
    function Get(key: string): (r: string)
      reads this
      ensures IndexIgnoringCase(options, key) < 0 ==> r == ""
      ensures IndexIgnoringCase(options, key) >= 0 ==> r == options[IndexIgnoringCase(options, key)].1
    {
      var i := IndexIgnoringCase(options, key);
      if i >= 0 then options[i].1 else ""
    }

    /// The indexer's setter: an exact-key upsert.
    method Set(key: string, value: string)
      modifies this
      ensures options == Upsert(old(options), key, value)
      ensures old(Valid()) ==> Valid()
    {
      UpsertLookup(options, key, value, key + "=");
      options := Upsert(options, key, value);
    }

    function ContainsKey(key: string): (r: bool)
      reads this
      ensures r <==> exists i :: 0 <= i < |options| && options[i].0 == key
    {
      FindIndex(options, key) >= 0
    }

    function Count(): (r: nat)
      reads this
      ensures r == |options|
    {
      |options|
    }

    function TryGetValue(key: string): (r: Option<string>)
      reads this
      ensures r.Some? <==> ContainsKey(key)
      ensures r.Some? ==> (key, r.value) in options
    {
      Lookup(options, key)
    }

    /// Add: a duplicate key is an error and changes nothing.
    method Add(key: string, value: string) returns (r: Result<(), AddError>)
      modifies this
      ensures old(ContainsKey(key)) ==> r == Err(DuplicateKey) && options == old(options)
      ensures !old(ContainsKey(key)) ==> r == Ok(()) && options == old(options) + [(key, value)]
      ensures old(Valid()) ==> Valid()
    {
      if FindIndex(options, key) >= 0 {
        return Err(DuplicateKey);
      }
      options := options + [(key, value)];
      return Ok(());
    }

    /// Remove: true exactly when the key was present; the key is gone after.
    method Remove(key: string) returns (removed: bool)
      modifies this
      ensures removed == old(ContainsKey(key))
      ensures options == RemoveFirst(old(options), key)
      ensures old(Valid()) ==> Valid() && !ContainsKey(key)
    {
      removed := FindIndex(options, key) >= 0;
      if removed && UniqueNames(options) {
        RemovedKeyIsGone(options, key);
      }
      options := RemoveFirst(options, key);
    }

    method Clear()
      modifies this
      ensures options == [] && Valid()
    {
      options := [];
    }
  }

  datatype AddError = DuplicateKey

  /// The index of the first key equal ignoring case, or -1.
  function IndexIgnoringCase(options: Options, key: string): (i: int)
    ensures -1 <= i < |options|
    ensures i >= 0 ==> EqualsIgnoreCase(options[i].0, key) && forall j :: 0 <= j < i ==> !EqualsIgnoreCase(options[j].0, key)
    ensures i < 0 <==> !ContainsKeyIgnoreCase(options, key)
  {
    if options == [] then -1
    else if EqualsIgnoreCase(options[0].0, key) then 0
    else
      var k := IndexIgnoringCase(options[1..], key);
      assert forall j :: 1 <= j < |options| ==> options[j] == options[1..][j - 1];
      if k < 0 then -1 else k + 1
  }

  /// Removing a present key of a dictionary: one fewer entry, the key gone,
  /// the keys still unique.
  lemma RemovedKeyIsGone(options: Options, key: string)
    requires UniqueNames(options) && FindIndex(options, key) >= 0
    ensures |RemoveFirst(options, key)| == |options| - 1
    ensures UniqueNames(RemoveFirst(options, key))
    ensures FindIndex(RemoveFirst(options, key), key) < 0
  {
    var i := FindIndex(options, key);
    var r := RemoveFirst(options, key);
    assert forall j :: 0 <= j < |r| ==> r[j] == options[if j < i then j else j + 1];
  }
}
