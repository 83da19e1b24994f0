/** The field catalog of the PostgreSQL log sink: which log-event properties
    are written, the database type of each, the column a property is renamed
    to, and the properties whose value runs through a converter first. */
module Catalog {
  import opened Wrappers

  /** The log-event properties the sink knows, named after the member they
      come from. */
  datatype Property =
    | Level | Timestamp | MessageTemplate | Properties | Exception
    | MethodCallId | SourceContext | CorrelationId | RuntimeUniqueKey | IsDbLog

  /** The PostgreSQL column types the catalog uses. */
  datatype StorageType = Integer | TimestampTz | Varchar | Uuid | Boolean

  /** The value converters the catalog installs, one per converting property. */
  datatype ConverterKind = LevelConverter | PropertiesConverter | ExceptionConverter

  /** The four tables of the sink options. */
  datatype SinkTables = SinkTables(
    propertyNames: seq<Property>,
    typeMapping: map<Property, StorageType>,
    columnMapping: map<Property, string>,
    valueConverter: map<Property, ConverterKind>)

  /** The property whose name is one of the nine fixed names, if any; the
      marker key is not among them. */
  function PropertyOfFixedName(s: string): Option<Property>
  {
    if s == "Level" then Some(Level)
    else if s == "Timestamp" then Some(Timestamp)
    else if s == "MessageTemplate" then Some(MessageTemplate)
    else if s == "Properties" then Some(Properties)
    else if s == "Exception" then Some(Exception)
    else if s == "MethodCallId" then Some(MethodCallId)
    else if s == "SourceContext" then Some(SourceContext)
    else if s == "CorrelationId" then Some(CorrelationId)
    else if s == "RuntimeUniqueKey" then Some(RuntimeUniqueKey)
    else None
  }

  /** The property name as the sink sees it: the `nameof` of the log member,
      Serilog's source-context key, or the sink's own marker key, whose text
      is defined outside this model and is passed in. Each fixed name reads
      back to its own property. */
  function SourceName(p: Property, isDbLogName: string): (r: string)
    ensures p != IsDbLog ==> PropertyOfFixedName(r) == Some(p)
    ensures p == IsDbLog ==> r == isDbLogName
  {
    match p
    case Level => "Level"
    case Timestamp => "Timestamp"
    case MessageTemplate => "MessageTemplate"
    case Properties => "Properties"
    case Exception => "Exception"
    case MethodCallId => "MethodCallId"
    case SourceContext => "SourceContext"
    case CorrelationId => "CorrelationId"
    case RuntimeUniqueKey => "RuntimeUniqueKey"
    case IsDbLog => isDbLogName
  }

  predicate Distinct<T(==)>(xs: seq<T>)
  {
    forall i, j :: 0 <= i < j < |xs| ==> xs[i] != xs[j]
  }

  /** No two keys of `m` share a value. */
  predicate InjectiveOn<K, V(==)>(m: map<K, V>)
  {
    forall a, b :: a in m && b in m && a != b ==> m[a] != m[b]
  }

  function Elements<T>(xs: seq<T>): set<T>
  {
    set x | x in xs
  }

  /** Consistency of the four tables: every selected property appears once and
      has a storage type and nothing else does, renames and converters only
      concern selected properties, and no two properties are renamed to the
      same column. */
  predicate WellFormed(c: SinkTables)
  {
    && Distinct(c.propertyNames)
    && c.typeMapping.Keys == Elements(c.propertyNames)
    && c.columnMapping.Keys <= c.typeMapping.Keys
    && InjectiveOn(c.columnMapping)
    && c.valueConverter.Keys <= c.typeMapping.Keys
  }

  /** The ordered list of participating properties. */
  function DefaultPropertyNames(): (names: seq<Property>)
    ensures |names| == 10
    ensures Distinct(names)
    ensures names[..5] == [Level, Timestamp, MessageTemplate, Properties, Exception]
    ensures names[5..] == [MethodCallId, SourceContext, CorrelationId, RuntimeUniqueKey, IsDbLog]
  {
    [Level, Timestamp, MessageTemplate, Properties, Exception,
     MethodCallId, SourceContext, CorrelationId, RuntimeUniqueKey, IsDbLog]
  }

  /** Every property the sink knows takes part in the default catalog. */
  lemma EveryPropertySelected(p: Property)
    ensures p in DefaultPropertyNames()
  {
  }

  /** The storage type of every participating property. */
  function DefaultTypeMapping(): (m: map<Property, StorageType>)
    ensures m.Keys == {Level, Timestamp, MessageTemplate, Properties, Exception,
                       MethodCallId, SourceContext, CorrelationId, RuntimeUniqueKey, IsDbLog}
    ensures m[Level] == Integer && m[Timestamp] == TimestampTz && m[IsDbLog] == Boolean
    ensures forall p :: p in m ==> (m[p] == Uuid <==> p in {MethodCallId, CorrelationId, RuntimeUniqueKey})
    ensures forall p :: p in m ==> (m[p] == Varchar <==> p in {MessageTemplate, Properties, Exception, SourceContext})
  {
    map[
      Level := Integer,
      Timestamp := TimestampTz,
      MessageTemplate := Varchar,
      Properties := Varchar,
      Exception := Varchar,
      MethodCallId := Uuid,
      SourceContext := Varchar,
      CorrelationId := Uuid,
      RuntimeUniqueKey := Uuid,
      IsDbLog := Boolean
    ]
  }

  /** Every property has a storage type ... */
  lemma TypeMappingTotal(p: Property)
    ensures p in DefaultTypeMapping()
  {
  }

  /** ... so the properties with a storage type are exactly the selected ones. */
  lemma TypeMappingCoversNames()
    ensures DefaultTypeMapping().Keys == Elements(DefaultPropertyNames())
  {
    forall p ensures p in DefaultTypeMapping() && p in Elements(DefaultPropertyNames()) {
      TypeMappingTotal(p);
      EveryPropertySelected(p);
    }
  }

  /** The column renames: the five standard log fields get the names of the
      log-message record; the other properties keep their default column. */
  function DefaultColumnMapping(): (m: map<Property, string>)
    ensures m.Keys == {Level, Timestamp, MessageTemplate, Properties, Exception}
    ensures |m| == 5
    ensures InjectiveOn(m)
    ensures m[Level] == "IdLogLevel" && m[Timestamp] == "CreatedUtc"
    ensures m[MessageTemplate] == "InternalMessage" && m[Properties] == "Detail"
    ensures m[Exception] == "StackTrace"
  {
    map[
      Level := "IdLogLevel",
      Timestamp := "CreatedUtc",
      MessageTemplate := "InternalMessage",
      Properties := "Detail",
      Exception := "StackTrace"
    ]
  }

  /** The converters, keyed by the property whose value they transform. */
  function DefaultValueConverter(): (m: map<Property, ConverterKind>)
    ensures m.Keys == {Level, Properties, Exception}
    ensures InjectiveOn(m)
    ensures forall p :: p in m ==> (m[p] == LevelConverter <==> p == Level)
    ensures m[Properties] == PropertiesConverter && m[Exception] == ExceptionConverter
  {
    map[
      Level := LevelConverter,
      Properties := PropertiesConverter,
      Exception := ExceptionConverter
    ]
  }

  /** The catalog the sink options build in their constructor. */
  function DefaultCatalog(): (c: SinkTables)
    ensures WellFormed(c)
    ensures |c.propertyNames| == 10
  {
    var names := DefaultPropertyNames();
    TypeMappingCoversNames();
    TypeMappingTotal(MessageTemplate);
    TypeMappingTotal(Properties);
    TypeMappingTotal(Exception);
    SinkTables(names, DefaultTypeMapping(), DefaultColumnMapping(), DefaultValueConverter())
  }

  /** Two properties never share a name, provided the sink's marker key is
      not one of the other nine names. */
  lemma SourceNameInjective(p: Property, q: Property, isDbLogName: string)
    requires forall r :: r != IsDbLog ==> SourceName(r, "") != isDbLogName
    ensures SourceName(p, isDbLogName) == SourceName(q, isDbLogName) ==> p == q
  {
    if p != IsDbLog && q != IsDbLog {
      assert SourceName(p, isDbLogName) == SourceName(p, "");
      assert SourceName(q, isDbLogName) == SourceName(q, "");
    } else if p != IsDbLog {
      assert SourceName(p, isDbLogName) == SourceName(p, "");
    } else if q != IsDbLog {
      assert SourceName(q, isDbLogName) == SourceName(q, "");
    }
  }

  /** The ten selected property names are distinct as strings. */
  lemma SourceNamesDistinct(isDbLogName: string)
    requires forall p :: p != IsDbLog ==> SourceName(p, "") != isDbLogName
    ensures Distinct(seq(10, i requires 0 <= i < 10 => SourceName(DefaultPropertyNames()[i], isDbLogName)))
  {
    var names := DefaultPropertyNames();
    var strs := seq(10, i requires 0 <= i < 10 => SourceName(names[i], isDbLogName));
    forall i, j | 0 <= i < j < 10 ensures strs[i] != strs[j] {
      SourceNameInjective(names[i], names[j], isDbLogName);
    }
  }
}
