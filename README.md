# GrpcDataProvider in Dafny

A model of the core of GrpcDataProvider, an ADO.NET-style data provider whose
clients reach a database through a gRPC server. It covers three parts.

- **The server, `DatabaseService`.** It keeps one `DatabaseConnection` session per opened
  connection, holding that connection's commands and transactions by identifier.
  It answers the remote calls by driving the native database driver.
- **The two generations of the client:**
  - the newer `Grpc/` connection and data reader;
  - the older `GrpcClient/` connection, command, transaction, parameter
    collection, data reader and exception.

  They share the pooled, reference-counted `ChannelManager`, the
  `ConnectionStringBuilder` and `RemoteDataException`.
- **The envelope types that cross the wire.** These are `DataField`, `DataParameter`,
  `Property` and the older `Field`: a protocol-buffers record around a
  serialized value. Alongside them come the zoned date/time value types and the
  isolation-level converter.

Modules follow the source files one to one:

- An object whose fields change is a `class` whose methods state the whole new
  state.
- Value types and pure helpers are datatypes and functions.
- Loops in the source are `while` loops with invariants:
  - `CreateException`;
  - the server's row building;
  - `ThrowDataException`;
  - `FromString`;
  - `GetValues`;
  - `BuildQuery`;
  - `Dispose`.

Two things the core depends on but does not define are parameters of the model:

- **`Codec.Serializer`.** The binary serializer is a datatype of total functions:
  - encode a value, or reject it;
  - resolve a type tag;
  - decode bytes.

  Lemmas that need it to round-trip take `Sound(c)` as a hypothesis.
- **Outside services.** The native driver (`NativeDriver.Driver`) and the remote
  server as a client sees it (`RemoteEndpoints.Endpoint`) are datatypes of
  functions from request to reply. Client methods return the request they sent
  (`sent`), so a contract can say what went over the wire.

`EndToEnd` connects the two sides:

- a fault captured by the server and thrown by a client is the failure the
  client would throw for the same exception raised locally;
- a column written by the server reads back, value for value, through
  either query mode and either read call;
- command parameters reach the server's native command in order, with their
  names and values.

## Model

| member | source | states |
|---|---|---|
| OrderedLists.FindIndex | JamesBrighton.Data.GrpcServer/Helpers/DatabaseConnection.cs:26-31 | the index of the first entry with the ordinal name, -1 exactly when none has it (List.FindIndex) |
| OrderedLists.Lookup | JamesBrighton.Data.GrpcServer/Helpers/DatabaseConnection.cs:26-31 | the item of the first entry with the name, None exactly when the name is absent |
| OrderedLists.RemoveAt | JamesBrighton.Data.GrpcServer/Helpers/DatabaseConnection.cs:71 | List.RemoveAt: one entry fewer, those before the index kept, those after shifted down by one |
| OrderedLists.RemoveFirst | JamesBrighton.Data.GrpcServer/Helpers/DatabaseConnection.cs:65-72 | removes the first entry with the name and keeps the order of the rest; an absent name leaves the list as it was |
| OrderedLists.Upsert | JamesBrighton.Data.GrpcClient/Common/RemoteDataException.cs:44-59 | a present name has its item replaced in place; an absent one is appended at the end |
| OrderedLists.UpsertLookup | JamesBrighton.Data.GrpcClient/Common/RemoteDataException.cs:44-59 | after an upsert the name finds the new item, every other name finds what it found before, names stay unique, and the list grows only for a new name |
| ZonedDateTimes.Default | JamesBrighton.Data.Common/Services/ZonedDateTime.cs:20-24 | the parameterless constructor: zero ticks and an empty time zone |
| ZonedDateTimes.Create | JamesBrighton.Data.Common/Services/ZonedDateTime.cs:32-42 | a null zone throws ArgumentNullException for `timeZone`, a blank one ArgumentException with message `timeZone`, in that order; otherwise the value holds exactly the ticks and the zone |
| ZonedDateTimes.WithTicks | JamesBrighton.Data.Common/Services/ZonedDateTime.cs:47 | the DateTimeInTicks setter changes the ticks and nothing else |
| ZonedDateTimes.WithTimeZone | JamesBrighton.Data.Common/Services/ZonedDateTime.cs:52-63 | the TimeZone setter: a null zone throws ArgumentNullException for `value`, a blank one ArgumentException with message `value`; otherwise only the zone changes |
| ZonedDateTimes.Equals | JamesBrighton.Data.Common/Services/ZonedDateTime.cs:113 | Equals(other) holds exactly when ticks and zone (ordinal) are equal |
| ZonedDateTimes.EqualsObject | JamesBrighton.Data.Common/Services/ZonedDateTime.cs:84-87 | Equals(object) is false for any other type and agrees with Equals for a boxed value |
| ZonedDateTimes.EqualsIsEquivalence | JamesBrighton.Data.Common/Services/ZonedDateTime.cs:84-113 | Equals is reflexive and symmetric, and boxing does not change it |
| ZonedDateTimes.OpEquality | JamesBrighton.Data.Common/Services/ZonedDateTime.cs:123 | `==` holds exactly when the values are equal |
| ZonedDateTimes.OpInequalityAsWritten | JamesBrighton.Data.Common/Services/ZonedDateTime.cs:133 | `!=` as written holds exactly when the values are EQUAL |
| ZonedDateTimes.InequalityAsWrittenHoldsOfEqualValues | JamesBrighton.Data.Common/Services/ZonedDateTime.cs:123-133 | as written, `!=` is true of a value and itself, and agrees with `==` |
| ZonedDateTimes.OpInequality | JamesBrighton.Data.Common/Services/ZonedDateTime.cs:133 | the intended `!=`: true exactly when the values differ, the negation of `==` |
| ZonedTimes.Default | JamesBrighton.Data.Common/Services/ZonedTime.cs:20-24 | the parameterless constructor: zero ticks and an empty time zone |
| ZonedTimes.Create | JamesBrighton.Data.Common/Services/ZonedTime.cs:32-42 | a null zone throws ArgumentNullException for `timeZone`, a blank one ArgumentException with message `timeZone`, in that order; otherwise the value holds exactly the ticks and the zone |
| ZonedTimes.WithTicks | JamesBrighton.Data.Common/Services/ZonedTime.cs:47 | the TimeSpanInTicks setter changes the ticks and nothing else |
| ZonedTimes.WithTimeZone | JamesBrighton.Data.Common/Services/ZonedTime.cs:52-63 | the TimeZone setter: a null zone throws ArgumentNullException for `value`, a blank one ArgumentException with message `value`; otherwise only the zone changes |
| ZonedTimes.Equals | JamesBrighton.Data.Common/Services/ZonedTime.cs:113 | Equals(other) holds exactly when ticks and zone (ordinal) are equal |
| ZonedTimes.EqualsObject | JamesBrighton.Data.Common/Services/ZonedTime.cs:84-87 | Equals(object) is false for any other type and agrees with Equals for a boxed value |
| ZonedTimes.EqualsIsEquivalence | JamesBrighton.Data.Common/Services/ZonedTime.cs:84-113 | Equals is reflexive and symmetric, and boxing does not change it |
| ZonedTimes.OpEquality | JamesBrighton.Data.Common/Services/ZonedTime.cs:123 | `==` holds exactly when the values are equal |
| ZonedTimes.OpInequalityAsWritten | JamesBrighton.Data.Common/Services/ZonedTime.cs:133 | `!=` as written holds exactly when the values are EQUAL |
| ZonedTimes.InequalityAsWrittenHoldsOfEqualValues | JamesBrighton.Data.Common/Services/ZonedTime.cs:123-133 | as written, `!=` is true of a value and itself, and agrees with `==` |
| ZonedTimes.OpInequality | JamesBrighton.Data.Common/Services/ZonedTime.cs:133 | the intended `!=`: true exactly when the values differ, the negation of `==` |
| TimeZoneRules.CheckZone | JamesBrighton.Data.Common/Services/ZonedDateTime.cs:35-38 | the zone checks shared by the constructors and setters: null first (ArgumentNullException naming the parameter), then blank (ArgumentException whose message is the parameter's name), else the zone itself |
| ZonedDateTimeWrappers.Default | JamesBrighton.Data.Common/Wrappers/ZonedDateTimeWrapper.cs:21-26 | the parameterless constructor: an unspecified-kind zero DateTime, empty zone, no offset |
| ZonedDateTimeWrappers.Create | JamesBrighton.Data.Common/Wrappers/ZonedDateTimeWrapper.cs:35-48 | a non-UTC DateTime throws first (ArgumentException "Value must be in UTC." for `dateTime`), then a null zone, then a blank zone (message `timeZone`); success exactly when UTC and a non-blank zone, holding the three arguments |
| ZonedDateTimeWrappers.CreateWithoutOffset | JamesBrighton.Data.Common/Wrappers/ZonedDateTimeWrapper.cs:55 | the two-argument constructor is the three-argument one with a null offset |
| ZonedDateTimeWrappers.WithDateTime | JamesBrighton.Data.Common/Wrappers/ZonedDateTimeWrapper.cs:61-70 | the DateTime setter throws ArgumentException "Value must be in UTC." for `value` exactly for a non-UTC value and otherwise changes only the DateTime |
| ZonedDateTimeWrappers.WithTimeZone | JamesBrighton.Data.Common/Wrappers/ZonedDateTimeWrapper.cs:75-86 | the TimeZone setter: null and blank throw; otherwise only the zone changes |
| ZonedDateTimeWrappers.WithOffset | JamesBrighton.Data.Common/Wrappers/ZonedDateTimeWrapper.cs:91 | the Offset setter changes the offset and nothing else |
| ZonedDateTimeWrappers.Equals | JamesBrighton.Data.Common/Wrappers/ZonedDateTimeWrapper.cs:144-147 | Equals(other) compares the DateTime ticks, the zone ordinally and the offsets (both null or equal) |
| ZonedDateTimeWrappers.EqualsIgnoresKind | JamesBrighton.Data.Common/Wrappers/ZonedDateTimeWrapper.cs:144-147 | DateTime.Equals ignores the kind: the default wrapper equals its UTC copy though the two values differ |
| ZonedDateTimeWrappers.EqualsIsEquivalence | JamesBrighton.Data.Common/Wrappers/ZonedDateTimeWrapper.cs:113-147 | Equals is reflexive and symmetric and holds of identical values |
| ZonedDateTimeWrappers.EqualsObject | JamesBrighton.Data.Common/Wrappers/ZonedDateTimeWrapper.cs:113-116 | Equals(object) is false for other types and agrees with Equals for a boxed wrapper |
| ZonedDateTimeWrappers.OpEquality | JamesBrighton.Data.Common/Wrappers/ZonedDateTimeWrapper.cs:157 | `==` is Equals |
| ZonedDateTimeWrappers.OpInequalityAsWritten | JamesBrighton.Data.Common/Wrappers/ZonedDateTimeWrapper.cs:167 | `!=` as written is Equals too |
| ZonedDateTimeWrappers.InequalityAsWrittenHoldsOfEqualValues | JamesBrighton.Data.Common/Wrappers/ZonedDateTimeWrapper.cs:157-167 | as written, `!=` and `==` are both true of a value and itself |
| ZonedDateTimeWrappers.OpInequality | JamesBrighton.Data.Common/Wrappers/ZonedDateTimeWrapper.cs:167 | the intended `!=`: the negation of `==`, false for identical values |
| IsolationLevelConverter.ToWire | JamesBrighton.Data.Common/Helpers/IsolationLevelConverter.cs:13-25 | each named System.Data level maps to its wire namesake; every other value to Snapshot |
| IsolationLevelConverter.ToNative | JamesBrighton.Data.Common/Helpers/IsolationLevelConverter.cs:31-43 | each named wire level maps to its System.Data namesake; every other value to Snapshot |
| IsolationLevelConverter.NativeRoundTrip | JamesBrighton.Data.Common/Helpers/IsolationLevelConverter.cs:13-43 | native to wire to native gives back every one of the seven levels |
| IsolationLevelConverter.WireRoundTrip | JamesBrighton.Data.Common/Helpers/IsolationLevelConverter.cs:13-43 | wire to native to wire gives back every one of the seven levels |
| IsolationLevelConverter.UnknownValuesBecomeSnapshot | JamesBrighton.Data.Common/Helpers/IsolationLevelConverter.cs:23 | a value outside either enumeration converts to Snapshot |
| IsolationLevelConverter.ConversionsStabilise | JamesBrighton.Data.Common/Helpers/IsolationLevelConverter.cs:13-43 | converting twice in a row gives the same as converting once, in both directions |
| LegacyGrpcTransactions.ToIsolationLevel | JamesBrighton.Data.GrpcClient/GrpcClient/GrpcTransaction.cs:184-196 | the transaction's private switch agrees with the shared converter on every input |
| DataFields.Merge | JamesBrighton.Data.Common/Services/DataField.cs:90 | the protocol-buffers merge: every field the incoming record sets overwrites, the others are kept |
| DataFields.WithValue | JamesBrighton.Data.Common/Services/DataField.cs:49-70 | the Value setter: a value the serializer writes is stored with its content and type tag, the name kept; a rejected one resets to a nameless null |
| DataFields.MergedFrom | JamesBrighton.Data.Common/Services/DataField.cs:90-112 | MergeFrom: merge the record, then resolve its tag and decode its content, with each failure path the source takes |
| DataFields.RoundTrip | JamesBrighton.Data.Common/Services/DataField.cs:49-70 | a value the serializer writes as is survives being packed and unpacked, with its name |
| DataFields.DataField.constructor | JamesBrighton.Data.Common/Services/DataField.cs:32-36 | an empty record holding the null sentinel |
| DataFields.DataField.SetName | JamesBrighton.Data.Common/Services/DataField.cs:39-43 | changes the record's name and nothing else |
| DataFields.DataField.SetValue | JamesBrighton.Data.Common/Services/DataField.cs:49-70 | the new state is WithValue of the old one |
| DataFields.DataField.MergeFrom | JamesBrighton.Data.Common/Services/DataField.cs:90-112 | the new state is MergedFrom of the old one |
| DataParameters.Merge | JamesBrighton.Data.Common/Services/Parameter.cs:82 | the protocol-buffers merge: every field the incoming record sets overwrites, the others are kept |
| DataParameters.WithValue | JamesBrighton.Data.Common/Services/Parameter.cs:49-70 | the Value setter: a value the serializer writes is stored with its content and type tag, the name kept; a rejected one resets to a nameless null |
| DataParameters.MergedFrom | JamesBrighton.Data.Common/Services/Parameter.cs:82-104 | MergeFrom: merge the record, then resolve its tag and decode its content, with each failure path the source takes |
| DataParameters.RoundTrip | JamesBrighton.Data.Common/Services/Parameter.cs:49-70 | a value the serializer writes as is survives being packed and unpacked, with its name |
| DataParameters.DataParameter.constructor | JamesBrighton.Data.Common/Services/Parameter.cs:32-36 | an empty record holding the null sentinel |
| DataParameters.DataParameter.SetName | JamesBrighton.Data.Common/Services/Parameter.cs:39-43 | changes the record's name and nothing else |
| DataParameters.DataParameter.SetValue | JamesBrighton.Data.Common/Services/Parameter.cs:49-70 | the new state is WithValue of the old one |
| DataParameters.DataParameter.MergeFrom | JamesBrighton.Data.Common/Services/Parameter.cs:82-104 | the new state is MergedFrom of the old one |
| DataParameters.FromAny | JamesBrighton.Data.Common/Services/Parameter.cs:117 | the conversion gives a fresh parameter whose state is the wire record unpacked into a fresh one |
| Properties.Merge | JamesBrighton.Data.Common/Services/Property.cs:42 | the protocol-buffers merge: every field the incoming record sets overwrites, the others are kept |
| Properties.WithValue | JamesBrighton.Data.Common/Services/Property.cs:78-98 | the Value setter: a value the serializer writes is stored with its content and type tag, the name kept; a rejected one resets to a nameless null |
| Properties.MergedFrom | JamesBrighton.Data.Common/Services/Property.cs:42-59 | MergeFrom: merge the record, then resolve its tag and decode its content, with each failure path the source takes |
| Properties.RoundTrip | JamesBrighton.Data.Common/Services/Property.cs:78-98 | a value the serializer writes as is survives being packed and unpacked, with its name |
| Properties.Property.constructor | JamesBrighton.Data.Common/Services/Property.cs:32-36 | an empty record holding the null sentinel |
| Properties.Property.SetName | JamesBrighton.Data.Common/Services/Property.cs:68-72 | changes the record's name and nothing else |
| Properties.Property.SetValue | JamesBrighton.Data.Common/Services/Property.cs:78-98 | the new state is WithValue of the old one |
| Properties.Property.MergeFrom | JamesBrighton.Data.Common/Services/Property.cs:42-59 | the new state is MergedFrom of the old one |
| DataFields.MergeIntoEmpty | JamesBrighton.Data.Common/Services/DataField.cs:92 | merging into an empty record yields the incoming record |
| DataFields.RejectedValueLosesName | JamesBrighton.Data.Common/Services/DataField.cs:49-70 | an object initializer assigning Name, then a rejected Value, then DataTypeName keeps only the data type name |
| DataFields.UnresolvedTagCollapses | JamesBrighton.Data.Common/Services/DataField.cs:93-98 | an unresolvable type tag resets the field to the fresh state |
| DataFields.DataField.SetDataTypeName | JamesBrighton.Data.Common/Services/DataField.cs:80-84 | changes the data type name and nothing else |
| Properties.TypeOf | JamesBrighton.Data.Common/Services/Property.cs:104 | Type is the stored value's runtime type, a plain object for the sentinel |
| Properties.UnresolvedTagKeepsValue | JamesBrighton.Data.Common/Services/Property.cs:45-46 | an unresolvable tag returns early: the stored value, or its absence, is kept |
| Properties.FromAny | JamesBrighton.Data.Common/Services/Property.cs:111 | the conversion gives a fresh property whose state is the wire record unpacked into a fresh one |
| LegacyFields.WithValue | JamesBrighton.Data.Common/Services/Field.cs:49-71 | the legacy Value setter: the tag is the input's own type; a throwing serializer resets the record |
| LegacyFields.MergedFrom | JamesBrighton.Data.Common/Services/Field.cs:90-107 | legacy MergeFrom: an unresolvable tag returns without resetting, a null result stores the sentinel, a throwing deserializer resets |
| LegacyFields.UnresolvedTagDiffersFromNewer | JamesBrighton.Data.Common/Services/Field.cs:94 | on an unresolvable tag the newer DataField becomes null while the legacy one keeps its value |
| LegacyFields.RoundTrip | JamesBrighton.Data.Common/Services/Field.cs:49-107 | a value written as is survives packing and unpacking with its name and data type name |
| LegacyFields.DataField.constructor | JamesBrighton.Data.Common/Services/Field.cs:32-36 | an empty record holding the null sentinel |
| LegacyFields.DataField.SetName | JamesBrighton.Data.Common/Services/Field.cs:39-43 | changes the name and nothing else |
| LegacyFields.DataField.SetDataTypeName | JamesBrighton.Data.Common/Services/Field.cs:80-84 | changes the data type name and nothing else |
| LegacyFields.DataField.SetValue | JamesBrighton.Data.Common/Services/Field.cs:49-71 | the new state is WithValue of the old one |
| LegacyFields.DataField.MergeFrom | JamesBrighton.Data.Common/Services/Field.cs:90-107 | the new state is MergedFrom of the old one |
| ConnectionStrings.QuotedValue | JamesBrighton.Data.GrpcClient/Common/ConnectionStringBuilder.cs:103 | the double- and single-quoted alternatives: the value is everything up to the closing quote, with the length consumed |
| ConnectionStrings.BareValue | JamesBrighton.Data.GrpcClient/Common/ConnectionStringBuilder.cs:103 | the bare alternative: a first character other than a quote or `;`, then everything up to the next `;` |
| ConnectionStrings.ValueAt | JamesBrighton.Data.GrpcClient/Common/ConnectionStringBuilder.cs:103 | the three alternatives tried in order; the first that matches decides |
| ConnectionStrings.MatchAt | JamesBrighton.Data.GrpcClient/Common/ConnectionStringBuilder.cs:103 | the match at the start of the text: a key of word, digit and space characters, `=`, then a value |
| ConnectionStrings.FirstProvider | JamesBrighton.Data.GrpcClient/Common/ConnectionStringBuilder.cs:112-113 | the first usable match whose key is `provider` in any casing |
| ConnectionStrings.LoadedUnique | JamesBrighton.Data.GrpcClient/Common/ConnectionStringBuilder.cs:99-116 | the loaded options never repeat a key |
| ConnectionStrings.LoadedLookup | JamesBrighton.Data.GrpcClient/Common/ConnectionStringBuilder.cs:110-115 | a key other than the provider key holds the last non-empty value matched under it; empty keys and values are skipped |
| ConnectionStrings.ProviderKeepsFirst | JamesBrighton.Data.GrpcClient/Common/ConnectionStringBuilder.cs:112-113 | the provider key is kept from its first usable match: at most one key is `provider` in any casing, holding that match's value |
| ConnectionStrings.QuotedReadsBack | JamesBrighton.Data.GrpcClient/Common/ConnectionStringBuilder.cs:132-137 | a value wrapped in a quote it does not contain reads back as itself |
| ConnectionStrings.OtherQuoteFails | JamesBrighton.Data.GrpcClient/Common/ConnectionStringBuilder.cs:103 | a value not starting with white space or the quote does not match that quoted alternative |
| ConnectionStrings.BareReadsBack | JamesBrighton.Data.GrpcClient/Common/ConnectionStringBuilder.cs:138-141 | a value left bare reads back as itself up to the next `;` |
| ConnectionStrings.WrappedReadsBack | JamesBrighton.Data.GrpcClient/Common/ConnectionStringBuilder.cs:132-142 | whatever WrapValue does to a readable value, the value reads back |
| ConnectionStrings.PairMatches | JamesBrighton.Data.GrpcClient/Common/ConnectionStringBuilder.cs:51 | a printed `key=value` pair is one match giving back its key and value and ending with the pair |
| ConnectionStrings.KeyStopsAtEquals | JamesBrighton.Data.GrpcClient/Common/ConnectionStringBuilder.cs:103 | a plain key is matched whole, stopping at `=` |
| ConnectionStrings.MatchAfterKey | JamesBrighton.Data.GrpcClient/Common/ConnectionStringBuilder.cs:103 | when the key runs to `=`, the text after it matches exactly when it holds a value, giving that key and value and a length counting key, `=` and value |
| ConnectionStrings.SemicolonSkipped | JamesBrighton.Data.GrpcClient/Common/ConnectionStringBuilder.cs:103 | a `;` starts no match |
| ConnectionStrings.PairThenTail | JamesBrighton.Data.GrpcClient/Common/ConnectionStringBuilder.cs:51-103 | scanning a printed pair and what follows finds the pair, then the matches of the rest |
| ConnectionStrings.MatchesOfJoined | JamesBrighton.Data.GrpcClient/Common/ConnectionStringBuilder.cs:51 | scanning ToString's output finds exactly the printed pairs, in order |
| ConnectionStrings.LoadedPairs | JamesBrighton.Data.GrpcClient/Common/ConnectionStringBuilder.cs:99-116 | loading the pairs of printable options gives the options back |
| ConnectionStrings.PrintedOptionsParseBack | JamesBrighton.Data.GrpcClient/Common/ConnectionStringBuilder.cs:28-31 | setting ConnectionString to its own value leaves printable options unchanged |
| ConnectionStrings.WrappedValueParsesBack | JamesBrighton.Data.GrpcClient/Common/ConnectionStringBuilder.cs:132-142 | one printed pair reads back as its value |
| ConnectionStrings.TwoPairsRoundTrip | JamesBrighton.Data.GrpcClient/Common/ConnectionStringBuilder.cs:28-31 | "key1=value1;key2=value2" reads as two options and prints back as itself |
| ConnectionStrings.IndexIgnoringCase | JamesBrighton.Data.GrpcClient/Common/ConnectionStringBuilder.cs:46 | the index of the first key equal ignoring case, -1 exactly when there is none |
| ConnectionStrings.RemovedKeyIsGone | JamesBrighton.Data.GrpcClient/Common/ConnectionStringBuilder.cs:60 | removing a present key leaves one entry fewer, without the key, keys still unique |
| ConnectionStrings.ConnectionStringBuilder.constructor | JamesBrighton.Data.GrpcClient/Common/ConnectionStringBuilder.cs:17 | the parameterless constructor: no options |
| ConnectionStrings.ConnectionStringBuilder.FromConnectionString | JamesBrighton.Data.GrpcClient/Common/ConnectionStringBuilder.cs:23 | the options the connection string yields |
| ConnectionStrings.ConnectionStringBuilder.SetConnectionString | JamesBrighton.Data.GrpcClient/Common/ConnectionStringBuilder.cs:97-117 | the options are cleared and each match applied in order: the result is the parsed options |
| ConnectionStrings.ConnectionStringBuilder.Get | JamesBrighton.Data.GrpcClient/Common/ConnectionStringBuilder.cs:46 | the value of the first key equal ignoring case, or "" when there is none |
| ConnectionStrings.ConnectionStringBuilder.Set | JamesBrighton.Data.GrpcClient/Common/ConnectionStringBuilder.cs:47 | an exact-key upsert: the key maps to the value, other keys unchanged |
| ConnectionStrings.ConnectionStringBuilder.ContainsKey | JamesBrighton.Data.GrpcClient/Common/ConnectionStringBuilder.cs:57 | true exactly when the key is present, compared exactly |
| ConnectionStrings.ConnectionStringBuilder.Count | JamesBrighton.Data.GrpcClient/Common/ConnectionStringBuilder.cs:39 | the number of options |
| ConnectionStrings.ConnectionStringBuilder.TryGetValue | JamesBrighton.Data.GrpcClient/Common/ConnectionStringBuilder.cs:63 | the value under the exact key, None when absent |
| ConnectionStrings.ConnectionStringBuilder.Add | JamesBrighton.Data.GrpcClient/Common/ConnectionStringBuilder.cs:54 | a present key is an error that changes nothing; otherwise the pair is appended |
| ConnectionStrings.ConnectionStringBuilder.Remove | JamesBrighton.Data.GrpcClient/Common/ConnectionStringBuilder.cs:60 | true exactly when the key was present; the key is gone afterwards |
| ConnectionStrings.ConnectionStringBuilder.Clear | JamesBrighton.Data.GrpcClient/Common/ConnectionStringBuilder.cs:69 | no options remain |
| ChannelManagers.AcquireWellFormed | JamesBrighton.Data.GrpcClient/Common/ChannelManager.cs:40-58 | GetChannel keeps the table well formed: unique addresses, distinct channels, positive counts |
| ChannelManagers.AcquireCounts | JamesBrighton.Data.GrpcClient/Common/ChannelManager.cs:44-56 | GetChannel gives the address one more reference, or one if it is new, and leaves every other address alone |
| ChannelManagers.ReleaseWellFormed | JamesBrighton.Data.GrpcClient/Common/ChannelManager.cs:65-86 | Dispose(channel) keeps the table well formed |
| ChannelManagers.ReleaseCounts | JamesBrighton.Data.GrpcClient/Common/ChannelManager.cs:69-83 | releasing decrements the channel's count in place, removes it at zero, and keeps every other entry |
| ChannelManagers.AcquireThenRelease | JamesBrighton.Data.GrpcClient/Common/ChannelManager.cs:40-86 | a reference taken and handed back leaves the table as it was |
| ChannelManagers.ChannelTable.constructor | JamesBrighton.Data.GrpcClient/Common/ChannelManager.cs:110 | the static table starts empty |
| ChannelManagers.ChannelTable.GetChannel | JamesBrighton.Data.GrpcClient/Common/ChannelManager.cs:40-58 | the pooled channel for a known address, or a new one; the table becomes Acquired(old table) |
| ChannelManagers.ChannelTable.Dispose | JamesBrighton.Data.GrpcClient/Common/ChannelManager.cs:65-86 | the table becomes Released(old table); the channel is disposed exactly when its last reference goes |
| ChannelManagers.ChannelManager.constructor | JamesBrighton.Data.GrpcClient/Common/ChannelManager.cs:16-19 | holds the channel GetChannel returns for the address, one reference taken |
| ChannelManagers.ChannelManager.Dispose | JamesBrighton.Data.GrpcClient/Common/ChannelManager.cs:24-28 | the first call hands the reference back; later calls change nothing (Dispose(bool), lines 92-101) |
| RemoteDataExceptions.ThrownLookup | JamesBrighton.Data.GrpcClient/Common/RemoteDataException.cs:89-100 | the thrown properties have unique names; each name holds the last non-null wire value under it |
| RemoteDataExceptions.ThrowDataException | JamesBrighton.Data.GrpcClient/Common/RemoteDataException.cs:89-100 | always throws Raised(fault): message, class name and the non-null unpacked properties set by name in order |
| RemoteDataExceptions.ThrowLocalException | JamesBrighton.Data.GrpcClient/Common/RemoteDataException.cs:106-118 | always throws RaisedLocally(exception): its non-null properties set by name in order |
| RemoteDataExceptions.RemoteDataException.constructor | JamesBrighton.Data.GrpcClient/Common/RemoteDataException.cs:19-21 | the message, an empty class name, no properties |
| RemoteDataExceptions.RemoteDataException.SetClassName | JamesBrighton.Data.GrpcClient/Common/RemoteDataException.cs:26 | changes the class name and nothing else |
| RemoteDataExceptions.RemoteDataException.GetAt | JamesBrighton.Data.GrpcClient/Common/RemoteDataException.cs:33-37 | the value at the position; outside the list ArgumentOutOfRangeException |
| RemoteDataExceptions.RemoteDataException.SetAt | JamesBrighton.Data.GrpcClient/Common/RemoteDataException.cs:33-37 | replaces the value at the position, keeping its name and the class name; outside the list it throws and changes nothing |
| RemoteDataExceptions.RemoteDataException.GetByName | JamesBrighton.Data.GrpcClient/Common/RemoteDataException.cs:44-59 | the value of the first ordinal match; an absent name throws |
| RemoteDataExceptions.RemoteDataException.SetByName | JamesBrighton.Data.GrpcClient/Common/RemoteDataException.cs:44-59 | an upsert by name: replaced in place, or appended |
| RemoteDataExceptions.RemoteDataException.GetPropertyCount | JamesBrighton.Data.GrpcClient/Common/RemoteDataException.cs:124 | the number of properties |
| RemoteDataExceptions.RemoteDataException.GetPropertyIndex | JamesBrighton.Data.GrpcClient/Common/RemoteDataException.cs:131-132 | the first index with the name, -1 exactly when absent |
| RemoteDataExceptions.RemoteDataException.GetPropertyName | JamesBrighton.Data.GrpcClient/Common/RemoteDataException.cs:139 | the name at the position; outside the list ArgumentOutOfRangeException, as the List indexer throws |
| GrpcDataExceptions.GrpcDataException.constructor | JamesBrighton.Data.GrpcClient/GrpcClient/GrpcDataException.cs:17-19 | the message, an empty class name, no properties |
| GrpcDataExceptions.GrpcDataException.SetClassName | JamesBrighton.Data.GrpcClient/GrpcClient/GrpcDataException.cs:24 | changes the class name and nothing else |
| GrpcDataExceptions.GrpcDataException.GetAt | JamesBrighton.Data.GrpcClient/GrpcClient/GrpcDataException.cs:31-35 | the value at the position; outside the list ArgumentOutOfRangeException |
| GrpcDataExceptions.GrpcDataException.SetAt | JamesBrighton.Data.GrpcClient/GrpcClient/GrpcDataException.cs:31-35 | replaces the value at the position, keeping its name and the class name; outside the list it throws and changes nothing |
| GrpcDataExceptions.GrpcDataException.GetByName | JamesBrighton.Data.GrpcClient/GrpcClient/GrpcDataException.cs:42-57 | the value of the first ordinal match; an absent name throws |
| GrpcDataExceptions.GrpcDataException.SetByName | JamesBrighton.Data.GrpcClient/GrpcClient/GrpcDataException.cs:42-57 | an upsert by name: replaced in place, or appended |
| GrpcDataExceptions.GrpcDataException.GetPropertyCount | JamesBrighton.Data.GrpcClient/GrpcClient/GrpcDataException.cs:80 | the number of properties |
| GrpcDataExceptions.GrpcDataException.GetPropertyIndex | JamesBrighton.Data.GrpcClient/GrpcClient/GrpcDataException.cs:87-88 | the first index with the name, -1 exactly when absent |
| GrpcDataExceptions.GrpcDataException.GetPropertyName | JamesBrighton.Data.GrpcClient/GrpcClient/GrpcDataException.cs:95 | the name at the position; outside the list ArgumentOutOfRangeException, as the List indexer throws |
| RemoteDataExceptions.RemoteDataException.TryGetPropertyValue | JamesBrighton.Data.GrpcClient/Common/RemoteDataException.cs:72-83 | the first value under the name, None exactly when absent |
| GrpcDataExceptions.ThrowDataException | JamesBrighton.Data.GrpcClient/GrpcClient/GrpcDataException.cs:63-74 | always throws a GrpcDataException with the fault's message, class name and non-null unpacked properties set by name in order (the same fields RemoteDataException.ThrowDataException carries) |
| DatabaseServices.CapturedPropertyShape | JamesBrighton.Data.GrpcServer/Services/DatabaseService.cs:410-413 | a reflected property is recorded exactly when its value is non-null and serializable, with its name and its value's type |
| DatabaseServices.CapturedConcat | JamesBrighton.Data.GrpcServer/Services/DatabaseService.cs:408-414 | capturing distributes over concatenation, so recorded properties keep their order |
| DatabaseServices.CapturedAreKept | JamesBrighton.Data.GrpcServer/Services/DatabaseService.cs:408-414 | every recorded property comes from a kept one; never more than the exception has; none when none is kept |
| DatabaseServices.CreateException | JamesBrighton.Data.GrpcServer/Services/DatabaseService.cs:399-417 | class name and message copied, then one Property per reflected property, kept unless null |
| DatabaseServices.GetField | JamesBrighton.Data.GrpcServer/Services/DatabaseService.cs:434-439 | a DBNull column carries only its name and data type name; a written value carries content and tag; a rejected one only its data type name |
| DatabaseServices.BuildRow | JamesBrighton.Data.GrpcServer/Services/DatabaseService.cs:247-251 | one field per column, in ordinal order, each GetField of its column |
| DatabaseServices.StreamMatchesBuffered | JamesBrighton.Data.GrpcServer/Services/DatabaseService.cs:236-296 | without a fault the stream is the buffered rows one per message; with one, the buffered reply holds only the fault and the stream ends with it |
| DatabaseServices.StreamFrom | JamesBrighton.Data.GrpcServer/Services/DatabaseService.cs:244-259 | the stream is its row messages followed by the fault message, if any |
| DatabaseServices.CancelledQueryDeliversNoRows | JamesBrighton.Data.GrpcServer/Services/DatabaseService.cs:278 | ReadAsync runs before the cancellation check: a cancelled query delivers no row, only the fault of a first read that throws |
| DatabaseServices.RebuiltConcat | JamesBrighton.Data.GrpcServer/Services/DatabaseService.cs:335-340 | rebuilding the parameters distributes over concatenation: request order is kept |
| DatabaseServices.RebuiltOnePerWire | JamesBrighton.Data.GrpcServer/Services/DatabaseService.cs:334-339 | when each request parameter yields exactly one native parameter, the rebuilt list has one entry per request parameter, in request order |
| DatabaseServices.RebuiltAreNamed | JamesBrighton.Data.GrpcServer/Services/DatabaseService.cs:384-392 | no rebuilt parameter has an empty name, there are never more than requested, and each carries its envelope's value |
| DatabaseServices.NonQueryResponseOf | JamesBrighton.Data.GrpcServer/Services/DatabaseService.cs:310-318 | the rows affected without a fault; otherwise zero rows and the captured fault |
| DatabaseServices.DatabaseService.constructor | JamesBrighton.Data.GrpcServer/Services/DatabaseService.cs:26 | no sessions |
| DatabaseServices.DatabaseService.OpenConnection | JamesBrighton.Data.GrpcServer/Services/DatabaseService.cs:47-67 | a missing factory or connection, or a failed open, reports the fault with no id; otherwise a new open session under a fresh id, with the peer echoed |
| DatabaseServices.DatabaseService.CloseConnection | JamesBrighton.Data.GrpcServer/Services/DatabaseService.cs:75-80 | the session is removed and its connection closed; an unknown id changes nothing |
| DatabaseServices.DatabaseService.CreateCommand | JamesBrighton.Data.GrpcServer/Services/DatabaseService.cs:88-99 | an unknown connection gets an empty id; otherwise a new command is registered under a fresh id |
| DatabaseServices.DatabaseService.DestroyCommand | JamesBrighton.Data.GrpcServer/Services/DatabaseService.cs:107-114 | the command is removed from a known session; nothing else changes |
| DatabaseServices.DatabaseService.BeginTransaction | JamesBrighton.Data.GrpcServer/Services/DatabaseService.cs:122-155 | an unknown connection gets an empty id; otherwise a transaction at the converted level is appended under a fresh id; a driver fault fails the call |
| DatabaseServices.DatabaseService.CommitTransaction | JamesBrighton.Data.GrpcServer/Services/DatabaseService.cs:189-204 | the transaction is removed whether or not the commit throws; a thrown fault is returned as data |
| DatabaseServices.DatabaseService.RollbackTransaction | JamesBrighton.Data.GrpcServer/Services/DatabaseService.cs:212-227 | as CommitTransaction, with the rollback |
| DatabaseServices.DatabaseService.ResolveCommand | JamesBrighton.Data.GrpcServer/Services/DatabaseService.cs:326-373 | null exactly when connection, transaction or command does not resolve; otherwise the command is bound, its text set, its parameters rebuilt in order |
| DatabaseServices.AddParameters | JamesBrighton.Data.GrpcServer/Services/DatabaseService.cs:334-339 | the command's parameters become the old ones followed by the request's parameters rebuilt in order, empty names skipped; connection, transaction and text unchanged |
| DatabaseServices.DatabaseService.ExecuteQuery | JamesBrighton.Data.GrpcServer/Services/DatabaseService.cs:236-261 | nothing is written for an unresolved command; otherwise the rows one per message, then the fault, if any |
| DatabaseServices.DatabaseService.ExecuteQuerySync | JamesBrighton.Data.GrpcServer/Services/DatabaseService.cs:269-296 | an empty reply for an unresolved command; otherwise every row, or only the fault |
| DatabaseServices.StreamRows | JamesBrighton.Data.GrpcServer/Services/DatabaseService.cs:243-259 | the messages written are exactly StreamOf the reader run: each row read before cancellation, then the fault if a read throws |
| DatabaseServices.BufferRows | JamesBrighton.Data.GrpcServer/Services/DatabaseService.cs:275-294 | the reply is exactly SyncResponseOf the reader run: all rows read before cancellation, or only the fault |
| DatabaseServices.DatabaseService.ExecuteNonQuery | JamesBrighton.Data.GrpcServer/Services/DatabaseService.cs:305-319 | an empty reply for an unresolved command; otherwise the rows affected, or the fault |
| DatabaseConnections.DatabaseConnection.constructor | JamesBrighton.Data.GrpcServer/Helpers/DatabaseConnection.cs:14 | the connection, no commands, no transactions |
| DatabaseConnections.DatabaseConnection.GetCommand | JamesBrighton.Data.GrpcServer/Helpers/DatabaseConnection.cs:26-31 | the command of the first entry with the id; null exactly when none has it |
| DatabaseConnections.DatabaseConnection.GetTransaction | JamesBrighton.Data.GrpcServer/Helpers/DatabaseConnection.cs:39-44 | the transaction of the first entry with the id; null exactly when none has it |
| DatabaseConnections.DatabaseConnection.AddCommand | JamesBrighton.Data.GrpcServer/Helpers/DatabaseConnection.cs:51 | appends the pair; a new id then finds the command, and unique ids stay unique |
| DatabaseConnections.DatabaseConnection.AddTransaction | JamesBrighton.Data.GrpcServer/Helpers/DatabaseConnection.cs:58 | appends the pair; a new id then finds the transaction, and unique ids stay unique |
| DatabaseConnections.DatabaseConnection.DestroyCommand | JamesBrighton.Data.GrpcServer/Helpers/DatabaseConnection.cs:65-72 | removes the first command with the id; an unknown id changes nothing |
| DatabaseConnections.DatabaseConnection.CommitAndDestroy | JamesBrighton.Data.GrpcServer/Helpers/DatabaseConnection.cs:79-87 | commits and removes the first transaction with the id; a commit that throws returns its fault and leaves the entry |
| DatabaseConnections.DatabaseConnection.RollbackAndDestroy | JamesBrighton.Data.GrpcServer/Helpers/DatabaseConnection.cs:94-102 | as CommitAndDestroy, with the rollback |
| DatabaseConnections.DatabaseConnection.Destroy | JamesBrighton.Data.GrpcServer/Helpers/DatabaseConnection.cs:109-116 | removes the first transaction with the id without committing |
| DatabaseConnections.RemovedNameIsGone | JamesBrighton.Data.GrpcServer/Helpers/DatabaseConnection.cs:71 | removing from a list with unique ids keeps them unique and leaves no entry with the removed id |
| GrpcDataReaders.Unpacked | JamesBrighton.Data.GrpcClient/Grpc/GrpcDataReader.cs:200-204 | one unpacked field per wire field, in order |
| GrpcDataReaders.ReadStep | JamesBrighton.Data.GrpcClient/Grpc/GrpcDataReader.cs:188-207 | a streaming reader returns false; a faulted reply throws; otherwise the next row and true, then false |
| GrpcDataReaders.ReadAsyncStep | JamesBrighton.Data.GrpcClient/Grpc/GrpcDataReader.cs:213-230 | a buffered reader returns false; a closed streaming reader's call is disposed, so it raises CallDisposed and takes nothing; otherwise the next message is taken, thrown if it carries a fault, else its row and true |
| GrpcDataReaders.ClosedStreamDeliversNothing | JamesBrighton.Data.GrpcClient/Grpc/GrpcDataReader.cs:73-77 | after Close, however many ReadAsync calls follow, none takes a message and each raises CallDisposed |
| GrpcDataReaders.BufferedRowsInOrder | JamesBrighton.Data.GrpcClient/Grpc/GrpcDataReader.cs:188-207 | the (n+1)-th Read on a fault-free reply returns row n while rows remain, then false |
| GrpcDataReaders.FaultedBufferAlwaysThrows | JamesBrighton.Data.GrpcClient/Grpc/GrpcDataReader.cs:194-195 | a faulted reply throws its fault on every Read |
| GrpcDataReaders.StreamedMessagesInOrder | JamesBrighton.Data.GrpcClient/Grpc/GrpcDataReader.cs:213-230 | the (n+1)-th ReadAsync takes message n while no earlier one carried a fault |
| GrpcDataReaders.ListItem | JamesBrighton.Data.GrpcClient/Grpc/GrpcDataReader.cs:166 | List indexing: ArgumentOutOfRangeException outside the list |
| GrpcDataReaders.Cast | JamesBrighton.Data.Common/Services/DataField.cs:120 | GetValue<T>: the sentinel or a value of another type throws InvalidCastException |
| GrpcDataReaders.Int32Of | JamesBrighton.Data.GrpcClient/Grpc/GrpcDataReader.cs:254 | the `(int)` cast of the field offset wraps modulo 2^32 |
| GrpcDataReaders.BlockCopy | JamesBrighton.Data.GrpcClient/Grpc/GrpcDataReader.cs:254 | Buffer.BlockCopy: a negative argument or a range past either array throws; otherwise the bytes are copied over the destination |
| GrpcDataReaders.CopyCountAsWritten | JamesBrighton.Data.GrpcClient/Grpc/GrpcDataReader.cs:252 | as written: the least of the buffer room, the length and the whole value's length |
| GrpcDataReaders.AsWrittenCountOverrunsValue | JamesBrighton.Data.GrpcClient/Grpc/GrpcDataReader.cs:252-254 | reading the last two bytes of a four-byte value asks BlockCopy for four and throws |
| GrpcDataReaders.CopyCount | JamesBrighton.Data.GrpcClient/Grpc/GrpcDataReader.cs:252 | corrected: the bytes left after the field offset bound the count |
| GrpcDataReaders.GetBytesFromOffsetThrows | JamesBrighton.Data.GrpcClient/Grpc/GrpcDataReader.cs:248-254 | as written, GetBytes throws ArgumentException whenever the field offset is positive and the count is the whole value |
| GrpcDataReaders.CorrectedCountNeverOverruns | JamesBrighton.Data.GrpcClient/Grpc/GrpcDataReader.cs:252-254 | with the corrected count every in-range request copies without throwing, as much as the bounds allow |
| GrpcDataReaders.Ordinal | JamesBrighton.Data.GrpcClient/Grpc/GrpcDataReader.cs:158 | the first field with exactly the name, -1 exactly when none |
| GrpcDataReaders.GrpcDataReader.constructor | JamesBrighton.Data.GrpcClient/Grpc/GrpcDataReader.cs:38-52 | either constructor: open, no row, nothing read |
| GrpcDataReaders.GrpcDataReader.LoadRow | JamesBrighton.Data.GrpcClient/Grpc/GrpcDataReader.cs:200-204 | the current row becomes the unpacked fields |
| GrpcDataReaders.GrpcDataReader.Read | JamesBrighton.Data.GrpcClient/Grpc/GrpcDataReader.cs:188-207 | the new state and result are ReadStep of the old state |
| GrpcDataReaders.GrpcDataReader.ReadAsync | JamesBrighton.Data.GrpcClient/Grpc/GrpcDataReader.cs:213-230 | the new state and result are ReadAsyncStep of the old state |
| GrpcDataReaders.GrpcDataReader.FieldCount | JamesBrighton.Data.GrpcClient/Grpc/GrpcDataReader.cs:70 | the number of fields of the current row |
| GrpcDataReaders.GrpcDataReader.Close | JamesBrighton.Data.GrpcClient/Grpc/GrpcDataReader.cs:73-77 | disposes the streaming call and reports itself closed, so ReadAsync on a streaming reader raises from then on; row and positions stay |
| GrpcDataReaders.GrpcDataReader.GetValue | JamesBrighton.Data.GrpcClient/Grpc/GrpcDataReader.cs:171 | the stored value, None for the sentinel; IndexOutOfRangeException outside [0, FieldCount) |
| GrpcDataReaders.GrpcDataReader.GetAs | JamesBrighton.Data.GrpcClient/Grpc/GrpcDataReader.cs:107-152 | the typed getters: IndexOutOfRangeException outside [0, FieldCount), then the cast to the getter's type |
| GrpcDataReaders.GrpcDataReader.GetName | JamesBrighton.Data.GrpcClient/Grpc/GrpcDataReader.cs:155 | the field's name; IndexOutOfRangeException outside [0, FieldCount) |
| GrpcDataReaders.GrpcDataReader.GetDataTypeName | JamesBrighton.Data.GrpcClient/Grpc/GrpcDataReader.cs:125 | the field's data type name; IndexOutOfRangeException outside [0, FieldCount) |
| GrpcDataReaders.GrpcDataReader.GetFieldType | JamesBrighton.Data.GrpcClient/Grpc/GrpcDataReader.cs:137 | the stored value's runtime type, System.Object for the sentinel; IndexOutOfRangeException outside [0, FieldCount) |
| GrpcDataReaders.GrpcDataReader.IsDBNull | JamesBrighton.Data.GrpcClient/Grpc/GrpcDataReader.cs:182 | whether the field holds the sentinel; IndexOutOfRangeException outside [0, FieldCount) |
| GrpcDataReaders.GrpcDataReader.GetOrdinal | JamesBrighton.Data.GrpcClient/Grpc/GrpcDataReader.cs:158 | the first field with exactly the name, -1 exactly when none |
| GrpcDataReaders.GrpcDataReader.GetValueByName | JamesBrighton.Data.GrpcClient/Grpc/GrpcDataReader.cs:58 | the first match's value; a missing name gives the null sentinel |
| GrpcDataReaders.GrpcDataReader.GetString | JamesBrighton.Data.GrpcClient/Grpc/GrpcDataReader.cs:164-168 | a bad index throws ArgumentOutOfRangeException, a null field reads as "", otherwise the string cast |
| GrpcDataReaders.GrpcDataReader.GetValues | JamesBrighton.Data.GrpcClient/Grpc/GrpcDataReader.cs:174-179 | copies the first min(array length, FieldCount) values and returns that count; the rest of the array is untouched |
| GrpcDataReaders.GrpcDataReader.GetBytes | JamesBrighton.Data.GrpcClient/Grpc/GrpcDataReader.cs:242-256 | a bad ordinal throws; 0 for a null buffer or no room; then the field must hold bytes, the count is min(room, length, value length) as written, and that many bytes are copied from the field offset or BlockCopy's exception is thrown |
| LegacyGrpcDataReaders.GrpcDataReader.constructor | JamesBrighton.Data.GrpcClient/GrpcClient/GrpcDataReader.cs:37-51 | either constructor: open, no row, nothing read |
| LegacyGrpcDataReaders.GrpcDataReader.LoadRow | JamesBrighton.Data.GrpcClient/GrpcClient/GrpcDataReader.cs:201-205 | the current row becomes the unpacked fields |
| LegacyGrpcDataReaders.GrpcDataReader.Read | JamesBrighton.Data.GrpcClient/GrpcClient/GrpcDataReader.cs:189-208 | the new state and result are ReadStep of the old state |
| LegacyGrpcDataReaders.GrpcDataReader.ReadAsync | JamesBrighton.Data.GrpcClient/GrpcClient/GrpcDataReader.cs:214-231 | the new state and result are ReadAsyncStep of the old state |
| LegacyGrpcDataReaders.GrpcDataReader.FieldCount | JamesBrighton.Data.GrpcClient/GrpcClient/GrpcDataReader.cs:69 | the number of fields of the current row |
| LegacyGrpcDataReaders.GrpcDataReader.Close | JamesBrighton.Data.GrpcClient/GrpcClient/GrpcDataReader.cs:72-76 | disposes the streaming call and reports itself closed, so ReadAsync on a streaming reader raises from then on; row and positions stay |
| LegacyGrpcDataReaders.GrpcDataReader.GetValue | JamesBrighton.Data.GrpcClient/GrpcClient/GrpcDataReader.cs:172 | the stored value, None for the sentinel; the List's own bounds check |
| LegacyGrpcDataReaders.GrpcDataReader.GetAs | JamesBrighton.Data.GrpcClient/GrpcClient/GrpcDataReader.cs:106-151 | the typed getters: the List's own bounds check, then the cast to the getter's type |
| LegacyGrpcDataReaders.GrpcDataReader.GetName | JamesBrighton.Data.GrpcClient/GrpcClient/GrpcDataReader.cs:154 | the field's name; the List's own bounds check |
| LegacyGrpcDataReaders.GrpcDataReader.GetDataTypeName | JamesBrighton.Data.GrpcClient/GrpcClient/GrpcDataReader.cs:124 | the field's data type name; the List's own bounds check |
| LegacyGrpcDataReaders.GrpcDataReader.GetFieldType | JamesBrighton.Data.GrpcClient/GrpcClient/GrpcDataReader.cs:136 | the stored value's runtime type, System.Object for the sentinel; the List's own bounds check |
| LegacyGrpcDataReaders.GrpcDataReader.IsDBNull | JamesBrighton.Data.GrpcClient/GrpcClient/GrpcDataReader.cs:183 | whether the field holds the sentinel; the List's own bounds check |
| LegacyGrpcDataReaders.GrpcDataReader.GetOrdinal | JamesBrighton.Data.GrpcClient/GrpcClient/GrpcDataReader.cs:157 | the first field with exactly the name, -1 exactly when none |
| LegacyGrpcDataReaders.GrpcDataReader.GetValueByName | JamesBrighton.Data.GrpcClient/GrpcClient/GrpcDataReader.cs:57 | the first match's value; a missing name gives the null sentinel |
| LegacyGrpcDataReaders.GrpcDataReader.GetString | JamesBrighton.Data.GrpcClient/GrpcClient/GrpcDataReader.cs:163-169 | a bad index throws ArgumentOutOfRangeException, a null field reads as "", otherwise the string cast |
| LegacyGrpcDataReaders.GrpcDataReader.GetValues | JamesBrighton.Data.GrpcClient/GrpcClient/GrpcDataReader.cs:175-180 | copies the first min(array length, FieldCount) values and returns that count; the rest of the array is untouched |
| LegacyGrpcDataReaders.GrpcDataReader.GetBytes | JamesBrighton.Data.GrpcClient/GrpcClient/GrpcDataReader.cs:243-254 | 0 for a null buffer, no room, or a bad ordinal; then the field must hold bytes, the count is min(room, length, value length) as written, and that many bytes are copied from the field offset or BlockCopy's exception is thrown |
| LegacyGrpcParameterCollections.IndexOfName | JamesBrighton.Data.GrpcClient/GrpcClient/GrpcParameterCollection.cs:26-27 | the first parameter with the ordinal name, -1 exactly when none |
| LegacyGrpcParameterCollections.RemoveFirstFindsNext | JamesBrighton.Data.GrpcClient/GrpcClient/GrpcParameterCollection.cs:30-36 | removing by name takes out one occurrence only: a name present twice is still found |
| LegacyGrpcParameterCollections.RemoveFirstKeepsOthers | JamesBrighton.Data.GrpcClient/GrpcClient/GrpcParameterCollection.cs:30-36 | removing by name leaves every other name finding the same parameter |
| LegacyGrpcParameterCollections.GrpcParameterCollection.constructor | JamesBrighton.Data.GrpcClient/GrpcClient/GrpcParameterCollection.cs:9 | an empty list |
| LegacyGrpcParameterCollections.GrpcParameterCollection.Add | JamesBrighton.Data.GrpcClient/GrpcClient/GrpcParameterCollection.cs:9 | List.Add appends the parameter |
| LegacyGrpcParameterCollections.GrpcParameterCollection.IndexOf | JamesBrighton.Data.GrpcClient/GrpcClient/GrpcParameterCollection.cs:26-27 | the first index with the name, -1 exactly when none |
| LegacyGrpcParameterCollections.GrpcParameterCollection.Contains | JamesBrighton.Data.GrpcClient/GrpcClient/GrpcParameterCollection.cs:23 | true exactly when a parameter has the name |
| LegacyGrpcParameterCollections.GrpcParameterCollection.Get | JamesBrighton.Data.GrpcClient/GrpcClient/GrpcParameterCollection.cs:14 | the first match; an absent name throws |
| LegacyGrpcParameterCollections.GrpcParameterCollection.Set | JamesBrighton.Data.GrpcClient/GrpcClient/GrpcParameterCollection.cs:15-19 | a non-parameter is ignored; otherwise the first match is replaced, and an absent name throws and changes nothing |
| LegacyGrpcParameterCollections.GrpcParameterCollection.RemoveAtName | JamesBrighton.Data.GrpcClient/GrpcClient/GrpcParameterCollection.cs:30-36 | removes the first match only, keeping the order of the rest; an absent name changes nothing |
| LegacyGrpcTransactions.Settled | JamesBrighton.Data.GrpcClient/GrpcClient/GrpcTransaction.cs:61-62 | a reply with a fault throws it, otherwise success |
| LegacyGrpcTransactions.GrpcTransaction.constructor | JamesBrighton.Data.GrpcClient/GrpcClient/GrpcTransaction.cs:31-38 | the channel, connection id and isolation level, no transaction id yet |
| LegacyGrpcTransactions.GrpcTransaction.Commit | JamesBrighton.Data.GrpcClient/GrpcClient/GrpcTransaction.cs:52-63 | no channel or no connection id throws before sending; otherwise the two ids are sent and the reply's fault thrown, if any (CommitAsync, 98-111) |
| LegacyGrpcTransactions.GrpcTransaction.Rollback | JamesBrighton.Data.GrpcClient/GrpcClient/GrpcTransaction.cs:78-89 | as Commit, with the rollback call (RollbackAsync, 120-133) |
| LegacyGrpcTransactions.BeginTransaction | JamesBrighton.Data.GrpcClient/GrpcClient/GrpcTransaction.cs:143-155 | no channel or no connection id throws; otherwise the converted level is sent and the reply's transaction id kept as given |
| LegacyGrpcCommands.ValueOrPlaceholder | JamesBrighton.Data.GrpcClient/GrpcClient/GrpcCommand.cs:119 | `p.Value ?? new object()`: a null value becomes a bare object |
| LegacyGrpcCommands.WireParameters | JamesBrighton.Data.GrpcClient/GrpcClient/GrpcCommand.cs:118-119 | one wire parameter per collection entry, in order, each a DataParameter given its name and value |
| LegacyGrpcCommands.ScalarOf | JamesBrighton.Data.GrpcClient/GrpcClient/GrpcCommand.cs:190-191 | the first read's fault, null without a row or with an empty row, else the first field's value |
| LegacyGrpcCommands.SyncScalarIsAlwaysNull | JamesBrighton.Data.GrpcClient/GrpcClient/GrpcCommand.cs:195-200 | the synchronous ExecuteScalar calls Read on a streaming reader: null, whatever the server sends |
| LegacyGrpcCommands.AsyncScalarIsFirstField | JamesBrighton.Data.GrpcClient/GrpcClient/GrpcCommand.cs:187-192 | ExecuteScalarAsync returns the first field of the first streamed row |
| LegacyGrpcCommands.ScalarsDisagree | JamesBrighton.Data.GrpcClient/GrpcClient/GrpcCommand.cs:187-200 | for a one-row, one-value reply the asynchronous scalar is the value and the synchronous one null |
| LegacyGrpcCommands.GrpcCommand.constructor | JamesBrighton.Data.GrpcClient/GrpcClient/GrpcCommand.cs:33-37 | the channel and connection id, no command id, no readers, an empty parameter collection |
| LegacyGrpcCommands.GrpcCommand.Guard | JamesBrighton.Data.GrpcClient/GrpcClient/GrpcCommand.cs:102-110 | the guards in order: channel and ids first, then the transaction |
| LegacyGrpcCommands.GrpcCommand.BuildQuery | JamesBrighton.Data.GrpcClient/GrpcClient/GrpcCommand.cs:111-119 | the request: text, the three ids, and WireParameters of the collection |
| LegacyGrpcCommands.GrpcCommand.ExecuteNonQuery | JamesBrighton.Data.GrpcClient/GrpcClient/GrpcCommand.cs:100-126 | after the guards, the rows affected or the reply's fault thrown (ExecuteNonQueryAsync, 251-277) |
| LegacyGrpcCommands.GrpcCommand.ExecuteReader | JamesBrighton.Data.GrpcClient/GrpcClient/GrpcCommand.cs:132-157 | after the guards, a new reader over the streamed reply, appended to the command's readers (ExecuteReaderAsync, 164-171) |
| LegacyGrpcCommands.GrpcCommand.ExecuteScalar | JamesBrighton.Data.GrpcClient/GrpcClient/GrpcCommand.cs:195-200 | as written: ScalarOf the first Read on the streaming reader, which is always null; the reader is appended to the command's readers in the state that Read leaves, and the other fields are unchanged |
| LegacyGrpcCommands.GrpcCommand.ExecuteScalarAsync | JamesBrighton.Data.GrpcClient/GrpcClient/GrpcCommand.cs:187-192 | ScalarOf the first ReadAsync on the streaming reader; the reader is appended to the command's readers in the state that ReadAsync leaves, and the other fields are unchanged |
| LegacyGrpcCommands.GrpcCommand.Dispose | JamesBrighton.Data.GrpcClient/GrpcClient/GrpcCommand.cs:79-83 | every reader the command created is closed |
| LegacyGrpcCommands.GrpcCommand.DisposeAsync | JamesBrighton.Data.GrpcClient/GrpcClient/GrpcCommand.cs:86-97 | without all three ids it throws and sends nothing; otherwise DestroyCommand is sent and every reader closed |
| LegacyGrpcCommands.CreateCommand | JamesBrighton.Data.GrpcClient/GrpcClient/GrpcCommand.cs:215-226 | no channel or no connection id throws; otherwise the new command takes its id from the reply (CreateCommandAsync, 236-248) |
| GrpcConnections.Setting | JamesBrighton.Data.GrpcClient/Grpc/GrpcConnection.cs:123-125 | the connection-string builder's indexer: the value under the first key equal ignoring case, or "" |
| GrpcConnections.SettingOfPrintedPair | JamesBrighton.Data.GrpcClient/Grpc/GrpcConnection.cs:123-125 | a printed `key=value` pair gives back the value for the key in any casing |
| GrpcConnections.OpenGuard | JamesBrighton.Data.GrpcClient/Grpc/GrpcConnection.cs:117-122 | the three settings checked in order; the first empty one is reported, none when all are set |
| GrpcConnections.GrpcConnection.constructor | JamesBrighton.Data.GrpcClient/Grpc/GrpcConnection.cs:17-35 | closed, with empty settings and id |
| GrpcConnections.GrpcConnection.State | JamesBrighton.Data.GrpcClient/Grpc/GrpcConnection.cs:44 | Open exactly when a channel manager is held |
| GrpcConnections.GrpcConnection.Open | JamesBrighton.Data.GrpcClient/Grpc/GrpcConnection.cs:115-133 | an empty setting throws before anything changes; otherwise a pooled channel for GrpcServer is taken and OpenConnection sent with ClientIdentifier; a fault is thrown with the id kept, else the id is set (OpenAsync, 139-158) |
| GrpcConnections.GrpcConnection.DisposeChannel | JamesBrighton.Data.GrpcClient/Grpc/GrpcConnection.cs:175-182 | the held reference is handed back once and the manager forgotten |
| GrpcConnections.GrpcConnection.Close | JamesBrighton.Data.GrpcClient/Grpc/GrpcConnection.cs:74-80 | nothing without a manager or an id; otherwise CloseConnection is sent and the channel released, the id kept (CloseAsync, 164-170) |
| GrpcConnections.GrpcConnection.Dispose | JamesBrighton.Data.GrpcClient/Grpc/GrpcConnection.cs:99-104 | Close, then DisposeChannel: closed afterwards, the reference released once |
| GrpcConnections.GrpcConnection.BeginTransaction | JamesBrighton.Data.GrpcClient/Grpc/GrpcConnection.cs:50-55 | no manager throws; otherwise the transaction class's BeginTransaction on the held channel (BeginTransactionAsync, 61-66) |
| GrpcConnections.GrpcConnection.BeginDefaultTransaction | JamesBrighton.Data.GrpcClient/Grpc/GrpcConnection.cs:47 | the parameterless BeginTransaction uses Unspecified |
| GrpcConnections.GrpcConnection.BeginDefaultTransactionAsync | JamesBrighton.Data.GrpcClient/Grpc/GrpcConnection.cs:58 | the parameterless BeginTransactionAsync uses ReadCommitted |
| GrpcConnections.GrpcConnection.CreateCommand | JamesBrighton.Data.GrpcClient/Grpc/GrpcConnection.cs:83-88 | no manager throws; otherwise the command class's CreateCommand on the held channel (CreateCommandAsync, 91-96) |
| LegacyGrpcConnections.GrpcConnection.constructor | JamesBrighton.Data.GrpcClient/GrpcClient/GrpcConnection.cs:16-34 | closed, with empty settings and id |
| LegacyGrpcConnections.GrpcConnection.State | JamesBrighton.Data.GrpcClient/GrpcClient/GrpcConnection.cs:43 | Open exactly when a channel manager is held |
| LegacyGrpcConnections.GrpcConnection.Open | JamesBrighton.Data.GrpcClient/GrpcClient/GrpcConnection.cs:94-105 | nothing is checked; a pooled channel for GrpcServer is taken, OpenConnection sent without a client id; a fault is thrown with the channel held, else the id is set (OpenAsync, 111-122) |
| LegacyGrpcConnections.GrpcConnection.DisposeChannel | JamesBrighton.Data.GrpcClient/GrpcClient/GrpcConnection.cs:139-146 | the held reference is handed back once and the manager forgotten |
| LegacyGrpcConnections.GrpcConnection.Close | JamesBrighton.Data.GrpcClient/GrpcClient/GrpcConnection.cs:63-69 | nothing without a manager or an id; otherwise CloseConnection is sent and the channel released (CloseAsync, 128-134) |
| LegacyGrpcConnections.GrpcConnection.Dispose | JamesBrighton.Data.GrpcClient/GrpcClient/GrpcConnection.cs:78-83 | Close, then DisposeChannel |
| LegacyGrpcConnections.GrpcConnection.BeginTransaction | JamesBrighton.Data.GrpcClient/GrpcClient/GrpcConnection.cs:49 | a closed connection throws NullReferenceException; otherwise the transaction class's BeginTransaction (async, 55) |
| LegacyGrpcConnections.GrpcConnection.BeginDefaultTransaction | JamesBrighton.Data.GrpcClient/GrpcClient/GrpcConnection.cs:46 | the parameterless BeginTransaction uses Unspecified |
| LegacyGrpcConnections.GrpcConnection.BeginDefaultTransactionAsync | JamesBrighton.Data.GrpcClient/GrpcClient/GrpcConnection.cs:52 | the parameterless BeginTransactionAsync uses ReadCommitted |
| LegacyGrpcConnections.GrpcConnection.CreateCommand | JamesBrighton.Data.GrpcClient/GrpcClient/GrpcConnection.cs:72 | a closed connection throws NullReferenceException; otherwise the command class's CreateCommand (async, 75) |
| EndToEnd.CapturedThenThrown | JamesBrighton.Data.GrpcClient/Common/RemoteDataException.cs:89-118 | the properties the server records and the client throws are those a local exception would carry: nulls dropped, later duplicates winning |
| EndToEnd.ServerFaultRaisedAsLocal | JamesBrighton.Data.GrpcServer/Services/DatabaseService.cs:399-417 | a server fault is thrown by the client exactly as the client throws the same exception raised locally |
| EndToEnd.ThrownPropertyByName | JamesBrighton.Data.GrpcClient/Common/RemoteDataException.cs:44-59 | reading a thrown fault's property by name gives the last non-null value the exception had under it |
| EndToEnd.ColumnReadBack | JamesBrighton.Data.GrpcServer/Services/DatabaseService.cs:434-439 | a written column value reads back with its name, data type name and value; a DBNull column reads back as a fresh field |
| EndToEnd.RowReadBack | JamesBrighton.Data.GrpcServer/Services/DatabaseService.cs:247-251 | every column of a row with written values reads back in place |
| EndToEnd.BufferedQueryReadBack | JamesBrighton.Data.GrpcServer/Services/DatabaseService.cs:269-296 | through ExecuteQuerySync, the (n+1)-th Read returns row n of the native reader, value for value |
| EndToEnd.StreamedQueryReadBack | JamesBrighton.Data.GrpcServer/Services/DatabaseService.cs:236-261 | through ExecuteQuery, the (n+1)-th ReadAsync returns row n of the native reader, value for value |
| EndToEnd.ParameterArrives | JamesBrighton.Data.GrpcServer/Services/DatabaseService.cs:336-340 | a named parameter with a written value arrives as itself, a null value as a bare object |
| EndToEnd.ParametersReachServer | JamesBrighton.Data.GrpcServer/Services/DatabaseService.cs:335-340 | named parameters reach the server's command in order, each with its name and value |

## Left out

- **The binary serializer, protocol buffers and .NET reflection.** These are not
  part of this model. The serializer is the `Codec.Serializer` parameter; a
  protocol-buffers merge is a field-by-field overwrite. `CreateException` reads
  an exception's public properties from a list of name/value pairs.
- **The server's `REMOTE_TRANSACTIONS` insert in `BeginTransaction`.** It is not
  modelled: it depends on a `HasRemoteTransactionTable` flag that `DatabaseConnection.cs` does not declare,
  and its failure is swallowed.
- **The server's `…Async` session calls.** `DatabaseService.cs` calls `DestroyCommandAsync`, `CommitAndDestroyAsync`, `RollbackAndDestroyAsync` and `DestroyAsync` (lines 112, 196, 201, 219 and 224). `DatabaseConnection.cs` declares only `DestroyCommand`, `CommitAndDestroy`, `RollbackAndDestroy` and `Destroy`, without the suffix. Each call is modelled by the declared method of the same name without `Async`.
- ChannelManagers.ChannelTable.GetChannel, GrpcConnections.GrpcConnection.Open, LegacyGrpcConnections.GrpcConnection.Open: address validation by `GrpcChannel.ForAddress` is not modelled. In .NET an address that is not an absolute URI throws `UriFormatException` before the table changes, before anything is sent, and while the connection is still closed. Examples are "" (the older `Open` with no `GrpcServer` key) and "localhost" (the newer `Open` rejects only empty settings). The model treats every address as valid: it pools a channel for it, takes a reference and sends `OpenConnection`.
- **Identifiers.** `GenerateIdentifier` (a new GUID) is a `freshIdentifier`
  parameter that is required to be unused. The peer address is a parameter.
- **Asynchronous calls and cancellation.** Each `…Async` variant is modelled by
  the same member as its synchronous twin, because the bodies do the same thing.
  Cancellation tokens are ignored. The one exception is the server's read loop,
  where the cancellation flag is a parameter.
- **Concurrency.** The lock in `ChannelManager` and the concurrent dictionary of
  sessions are not modelled; calls are taken one at a time.
- **The channel table's dictionary.** It is a list in enumeration order. The
  order in which a .NET dictionary reuses freed slots is not modelled, so
  "first entry holding this channel" is taken in insertion order.
- **ConnectionStrings.** The .NET regular expression is modelled by hand:
  - `\w` and `\d` cover ASCII letters, digits and `_`;
  - `char.ToUpperInvariant` covers ASCII letters only;
  - lazy `\s*?` is resolved as the engine does, with the key running to the
    equals sign.

  A key or value outside that alphabet may match differently in .NET.
- **GrpcConnectionStringBuilder.** `GrpcClient/GrpcConnectionStringBuilder.cs`
  differs from `Common/ConnectionStringBuilder.cs` only in layout, so both are
  modelled by `ConnectionStrings`.
- **The `Grpc/` transaction and command.** `Grpc/GrpcTransaction.cs` and
  `Grpc/GrpcCommand.cs` are not part of this model. The newer connection's
  `GrpcTransaction` and `GrpcCommand` are taken to be the `GrpcClient/` classes.
- **Untyped members.**
  - The float, double, decimal, DateTime, Guid and char getters are one `GetAs`
    with a type name.
  - `GetChars` shares `GetBytes`'s code path but is not modelled separately.
  - `GetSchemaTable`, `GetData`, `NextResult`, `Depth`, `RecordsAffected`,
    `Prepare`, `Cancel`, `CommandTimeout`, `CommandType` and
    `UpdatedRowSource` return constants and are left out.
  - So are `ConnectionTimeout`, `Database`, `ChangeDatabase`, `ToString`,
    `GetHashCode` and the `Keys`/`Values`/`CopyTo`/enumerator members of the
    builder.
- **Parameters.** `GrpcParameter` is a value (name and value), not an object
  with identity, because the collection only replaces whole parameters. Its
  other properties (direction, size, …) are not read by the core.
- **Dispose.** `GrpcTransaction.Dispose` and `DisposeAsync` do nothing and are
  left out. `GrpcCommand.Dispose` closes readers last first; the order is not
  observable in the model, which states only that every reader is closed.
- **The legacy `GrpcDataException`.** It has no `ThrowDataException(Exception)`
  overload; only the one it has is modelled.
- **A second `Open`.** A second `Open` on an already open connection replaces
  the held `ChannelManager` without disposing it. The model does the same, so
  that channel reference is never released.
- ConnectionStrings.ConnectionStringBuilder.Set: a new key is appended to the option list. A .NET `Dictionary` puts it in the slot a `Remove` freed last, so after `Remove("a")` on "a=1;b=2", `Set("c", "3")` prints "c=3;b=2" in .NET and "b=2;c=3" here. Free-slot reuse is not modelled; the keys and values are the same, only the printed order differs.
- ConnectionStrings.ConnectionStringBuilder.Add: the same free-slot order gap as `Set`.
- ConnectionStrings.ConnectionStringBuilder.Remove: the freed slot is not remembered for reuse (see `Set`); the remaining options keep their order.
- **The default struct values.** `default(ZonedDateTime)`, `default(ZonedTime)` and `default(ZonedDateTimeWrapper)` hold a null time zone, and their `Equals` then throws NullReferenceException. ZonedDateTimes, ZonedTimes and ZonedDateTimeWrappers model only values with a zone string. `Default` is the parameterless constructor, which stores "".
- GrpcDataExceptions.ThrowDataException: the older client throws `GrpcDataException`, a type distinct from `RemoteDataException`, so a handler catching one does not catch the other. Both are the one `Failure.Remote` value here (class name, message, properties); the exception type is merged.
- **Reading a disposed call.** What `MoveNext` on a disposed gRPC call raises is decided by the gRPC library. Both readers model it as the one failure `CallDisposed`.
- **DatabaseServices.DatabaseService.BeginTransaction.** A driver that throws
  while beginning a transaction makes the call fail (`Err`); the gRPC status the
  framework would then send is not modelled.
- **DatabaseServices.DatabaseService.OpenConnection.** It does not model the
  native connection object created before a failed open and then dropped.

## Findings

| source | as written | input that shows it | evidently intended | confidence | as-written member | corrected member |
|---|---|---|---|---|---|---|
| JamesBrighton.Data.Common/Services/ZonedDateTime.cs:133 (likewise ZonedTime.cs:133, Wrappers/ZonedDateTimeWrapper.cs:167) | `operator !=` returns `lhs.Equals(rhs)` | `new ZonedDateTime() != new ZonedDateTime()` is true (both hold zero ticks and the zone "") | `!lhs.Equals(rhs)` | not executed | ZonedDateTimes.OpInequalityAsWritten, ZonedDateTimes.InequalityAsWrittenHoldsOfEqualValues | ZonedDateTimes.OpInequality |
| JamesBrighton.Data.GrpcClient/GrpcClient/GrpcCommand.cs:195-200 | `ExecuteScalar` calls `Read()` on the streaming reader `ExecuteReader` builds (lines 152-154), and `Read` returns false when there is no buffered reply | a query whose single row holds one text value: `ExecuteScalar` returns null | the first field of the first row, as `ExecuteScalarAsync` returns | not executed | LegacyGrpcCommands.GrpcCommand.ExecuteScalar, LegacyGrpcCommands.SyncScalarIsAlwaysNull | LegacyGrpcCommands.GrpcCommand.ExecuteScalarAsync, LegacyGrpcCommands.ScalarsDisagree |
| JamesBrighton.Data.GrpcClient/Grpc/GrpcDataReader.cs:252 (likewise GrpcClient/GrpcDataReader.cs:250) | the copy count is `min(room, length, value.Length)`, without subtracting `fieldOffset` | a four-byte value, `fieldOffset` 2, a ten-byte buffer, `length` 10: the count is 4 and `Buffer.BlockCopy` throws | `min(room, length, value.Length - fieldOffset)` | not executed | GrpcDataReaders.CopyCountAsWritten, GrpcDataReaders.AsWrittenCountOverrunsValue, GrpcDataReaders.GetBytesFromOffsetThrows, GrpcDataReaders.GrpcDataReader.GetBytes | GrpcDataReaders.CopyCount, GrpcDataReaders.CorrectedCountNeverOverruns |
