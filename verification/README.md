# PostgreSQL log sink: field catalog and value converters

This project models the options object of a PostgreSQL log sink. The sink writes Serilog log
events into a database table. In its constructor, the options object declares four tables:

- the ordered list of log-event properties that take part;
- the PostgreSQL storage type of each property;
- the column that five of them are renamed to;
- the converter that three of them pass through before they are written.

The converters are:

- **Level**: unboxes the level to `int`.
- **Properties**: serialises the structured-property dictionary to a compact JSON object.
  It writes an opening brace, then each entry preceded by a pending delimiter (empty before
  the first entry, a comma after it), then a closing brace.
- **Exception**: renders an exception to its full trace text.

Modules:

- `Catalog` (catalog.dfy): the property, storage-type and converter enumerations, the four
  tables, and the `WellFormed` consistency predicate they satisfy.
- `Converters` (converters.dfy): the boxed `RawValue` a converter receives and the three
  converters. It has a functional specification of the JSON object text and a method that
  follows the sink's writer loop step by step.
- `Joining` (joining.dfy): joining strings with a delimiter, and the facts the serialiser
  relies on.
- `Wrappers` (wrappers.dfy): `Option` (standing for C# `null`) and `Result` (standing for a
  thrown cast exception).

Calls into code outside this model are parameters:

- Serilog's JSON string quoting of a key and its JSON value formatter (`JsonWriter.quote`,
  `JsonWriter.format`);
- the exception trace renderer (`Renderers.toStringTrace`);
- the text of the sink's own "is database log" marker key (`isDbLogName`).

Every property about the JSON text and the exception text is proved for all renderers. The
properties about name strings (`SourceNameInjective`, `SourceNamesDistinct`) hold only when
the marker key differs from the other nine names.

Notes on the code:

- The constructor does no explicit validation. A repeated key in one of the three
  dictionaries would make its initializer throw, because the initializer calls `Add`. The
  proviso of `SourceNameInjective` rules that out. The model proves that the declared tables
  are consistent.
- The level converter is a plain unboxing cast. It accepts a boxed `int` or a boxed
  `int`-backed enumeration: the Serilog level (`BoxedLevel`) or any other such enumeration
  (`BoxedIntEnum`). For `null` it throws a null-reference error, and for anything else an
  invalid-cast error. `ConvertLevel` returns these two failures as `Result` errors rather
  than hiding them behind a precondition.

## Model

| member | source | states |
|---|---|---|
| Catalog.SourceName | src/Envelope.Logging.PostgreSql/DBLogSinkOptions_TIdentity.cs:21-30 | each of the nine fixed names (the `nameof` results and Serilog's source-context key) reads back to its own property; the marker's name is the externally defined key |
| Catalog.DefaultPropertyNames | src/Envelope.Logging.PostgreSql/DBLogSinkOptions_TIdentity.cs:19-31 | exactly ten participating properties, pairwise distinct, in the declared order: the five standard log fields, then method-call id, source context, correlation id, runtime key and the marker |
| Catalog.EveryPropertySelected | src/Envelope.Logging.PostgreSql/DBLogSinkOptions_TIdentity.cs:19-31 | every property the sink knows, including the trace ids, source context and marker, is in the list |
| Catalog.SourceNameInjective | src/Envelope.Logging.PostgreSql/DBLogSinkOptions_TIdentity.cs:19-31 | two properties never share a name string, provided the marker key differs from the other nine names |
| Catalog.SourceNamesDistinct | src/Envelope.Logging.PostgreSql/DBLogSinkOptions_TIdentity.cs:19-31 | the ten names in the list are pairwise distinct as strings, under the same proviso |
| Catalog.DefaultTypeMapping | src/Envelope.Logging.PostgreSql/DBLogSinkOptions_TIdentity.cs:33-45 | the keys are all ten properties; Level is Integer, Timestamp is TimestampTz, the marker is Boolean; a property is Uuid exactly when it is one of the three trace ids, Varchar exactly when it is message template, properties, exception or source context |
| Catalog.TypeMappingTotal | src/Envelope.Logging.PostgreSql/DBLogSinkOptions_TIdentity.cs:33-45 | every property has a storage type |
| Catalog.TypeMappingCoversNames | src/Envelope.Logging.PostgreSql/DBLogSinkOptions_TIdentity.cs:19-45 | the keys of the type table are exactly the participating properties |
| Catalog.DefaultColumnMapping | src/Envelope.Logging.PostgreSql/DBLogSinkOptions_TIdentity.cs:47-54 | exactly five renamed properties, to IdLogLevel, CreatedUtc, InternalMessage, Detail and StackTrace respectively, and no two renamed to the same column |
| Catalog.DefaultValueConverter | src/Envelope.Logging.PostgreSql/DBLogSinkOptions_TIdentity.cs:56-88 | converters exist exactly for level, properties and exception; level gets the level converter, properties the properties converter, exception the exception converter |
| Catalog.DefaultCatalog | src/Envelope.Logging.PostgreSql/DBLogSinkOptions_TIdentity.cs:17-88 | the four tables together are well formed: distinct names, type keys equal to the names, renames and converters only for participating properties, renamed columns distinct |
| Converters.ConvertLevel | src/Envelope.Logging.PostgreSql/DBLogSinkOptions_TIdentity.cs:58-60 | succeeds exactly for a boxed int, level or other int-backed enumeration; a boxed int or enumeration value comes back as its integer unchanged, a level as the code that reads back to it; null fails with a null-unboxing error, any other object with an invalid cast |
| Converters.LevelCodeRoundTrip | src/Envelope.Logging.PostgreSql/DBLogSinkOptions_TIdentity.cs:59 | the level codes are 0 to 5 and decode back to the level, so the stored integer determines the level |
| Converters.LevelCodeMonotonic | src/Envelope.Logging.PostgreSql/DBLogSinkOptions_TIdentity.cs:59 | the codes strictly increase with severity from Verbose through Debug, Information, Warning and Error to Fatal, so distinct levels get distinct codes |
| Converters.PropertiesJson | src/Envelope.Logging.PostgreSql/DBLogSinkOptions_TIdentity.cs:70-84 | the text starts with an opening brace and ends with a closing one, and is exactly `{}` if and only if the dictionary is empty |
| Converters.ConvertProperties | src/Envelope.Logging.PostgreSql/DBLogSinkOptions_TIdentity.cs:63-85 | returns null if and only if the input is not a property dictionary; otherwise the dictionary's JSON object text |
| Converters.WriteProperties | src/Envelope.Logging.PostgreSql/DBLogSinkOptions_TIdentity.cs:65-84 | the writer loop with its pending delimiter computes the same text as the functional join, for every input |
| Converters.PropertiesJsonMemberAt | src/Envelope.Logging.PostgreSql/DBLogSinkOptions_TIdentity.cs:72-82 | each entry's quoted key, colon and value occur in enumeration order, the first right after the brace and every later one right after a single comma |
| Converters.PropertiesJsonLength | src/Envelope.Logging.PostgreSql/DBLogSinkOptions_TIdentity.cs:72-82 | the text is the members plus two braces plus exactly n-1 commas for n entries |
| Converters.PropertiesJsonAppend | src/Envelope.Logging.PostgreSql/DBLogSinkOptions_TIdentity.cs:72-82 | serialising two runs of entries one after the other equals the two objects glued with exactly one comma at the seam |
| Converters.ConvertException | src/Envelope.Logging.PostgreSql/DBLogSinkOptions_TIdentity.cs:87 | returns null if and only if the input is null or not an exception; otherwise the exception's trace text |
| Converters.Convert | src/Envelope.Logging.PostgreSql/DBLogSinkOptions_TIdentity.cs:56-88 | only the level converter can fail, exactly on input that cannot be unboxed to int and with the same error as the cast (null-unboxing for null, invalid-cast otherwise), and otherwise yields the unboxed integer; the properties converter yields null exactly for a non-dictionary and otherwise the dictionary's JSON text; the exception converter yields null exactly for a non-exception and otherwise its trace text |
| Converters.ConvertedFitsStorageType | src/Envelope.Logging.PostgreSql/DBLogSinkOptions_TIdentity.cs:33-88 | every converter's successful output fits the storage type declared for the property it converts |
| Joining.JoinSnoc | src/Envelope.Logging.PostgreSql/DBLogSinkOptions_TIdentity.cs:72-80 | appending an entry after at least one other adds exactly one delimiter and then the entry, the step of the writer loop |
| Joining.JoinAppend | src/Envelope.Logging.PostgreSql/DBLogSinkOptions_TIdentity.cs:72-80 | joining two non-empty runs puts exactly one delimiter at the seam |
| Joining.JoinLength | src/Envelope.Logging.PostgreSql/DBLogSinkOptions_TIdentity.cs:72-80 | the join is as long as its items plus one delimiter per gap, and empty for no items |
| Joining.JoinItemAt | src/Envelope.Logging.PostgreSql/DBLogSinkOptions_TIdentity.cs:72-80 | every item occurs unchanged at its offset, in order, and every item but the first is preceded by exactly the delimiter |

## Left out

- The base class `DbBatchWriterOptions` and the batch writer that consumes these options:
  buffering, flush triggers, bulk insert, retry and backoff. They are not part of this model.
- The row projection that looks properties up in an event and applies the catalog. It lives
  in the writer, outside this model. So does the default column name of a property without
  a rename entry, which the model does not assert.
- Serilog's JSON string quoting and value formatting, and the exception trace renderer.
  These are library code outside this model, so they are parameters. As a result, the model
  cannot show that the output is valid JSON with exactly one key per entry: that depends on
  how keys are escaped. The trace renderer is assumed to return non-null text. Its
  definition is outside this model, so "null exactly for a non-exception input" in
  `ConvertException` rests on that assumption.
- Npgsql's type system beyond the five storage types the catalog uses.
- The generic identity parameter and the `nameof` expressions. Properties are enumeration
  constructors, and `SourceName` gives their names as strings.
- The literal text of the "is database log" marker key. It is defined outside this model,
  so it is a parameter.
- Catalog.SourceNamesDistinct: holds only when the marker key differs from the other nine
  names. A colliding key would make the constructor's type-table initializer throw on a
  repeated key, so the constructor never produces a catalog where the proviso fails.
