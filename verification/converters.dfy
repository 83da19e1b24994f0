/** The three value converters of the log sink options: the level is unboxed
    to its integer code, the property dictionary is serialised to a compact
    JSON object, and an exception is rendered to its full trace text. */
module Converters {
  import opened Wrappers
  import opened Joining
  import opened Catalog

  /** A 32-bit signed integer, the result type of the level unboxing. */
  newtype int32 = x: int | -0x8000_0000 <= x < 0x8000_0000

  /** Serilog's severity levels, in declaration order. */
  datatype LogEventLevel = Verbose | Debug | Information | Warning | Error | Fatal

  /** A scalar carried by a Serilog property value. The converters never look
      inside property values or exceptions: they only hand them to the
      renderers, so these shapes just record what those renderers receive. */
  datatype Scalar = NullScalar | IntScalar(i: int) | StringScalar(s: string) | BoolScalar(b: bool)

  /** Serilog's four kinds of property value. Their JSON rendering is supplied
      from outside the model, through `JsonWriter.format`. */
  datatype PropertyValue =
    | ScalarValue(scalar: Scalar)
    | SequenceValue(elements: seq<PropertyValue>)
    | StructureValue(typeTag: Option<string>, fields: seq<(string, PropertyValue)>)
    | DictionaryValue(pairs: seq<(Scalar, PropertyValue)>)

  /** What a converter needs to know of an exception object. Its text
      rendering is supplied from outside the model. */
  datatype ExceptionInfo = ExceptionInfo(typeName: string, message: string, frames: seq<string>)

  /** The boxed value a converter receives. A property dictionary lists its
      entries in enumeration order. `BoxedLevel` carries one of the six named
      Serilog levels; `BoxedIntEnum` is any other boxed value of an enumeration
      whose underlying type is `int`, including a Serilog level outside the
      named six, such as `(LogEventLevel)42`. */
  datatype RawValue =
    | Null
    | BoxedLevel(level: LogEventLevel)
    | BoxedIntEnum(code: int32)
    | BoxedInt(n: int32)
    | BoxedLong(l: int)
    | BoxedText(s: string)
    | PropertyDictionary(entries: seq<(string, PropertyValue)>)
    | BoxedException(e: ExceptionInfo)
    | OtherObject

  /** The value a converter hands to the database writer; `DbNull` is `null`. */
  datatype Converted = DbNull | DbInt(n: int32) | DbText(s: string)

  /** Why unboxing the level to `int` throws. */
  datatype ConversionError = NullUnboxing | InvalidCast

  /** The renderers the properties converter writes with: the JSON string
      quoting of a key, and the JSON rendering of a property value. */
  datatype JsonWriter = JsonWriter(quote: string -> string, format: PropertyValue -> string)

  /** Everything the converters call but this model does not define. */
  datatype Renderers = Renderers(json: JsonWriter, toStringTrace: ExceptionInfo -> string)

  // ----- Level converter -----

  /** The integer value underlying each level. */
  function LevelCode(l: LogEventLevel): int32
  {
    match l
    case Verbose => 0
    case Debug => 1
    case Information => 2
    case Warning => 3
    case Error => 4
    case Fatal => 5
  }

  /** The level whose underlying value is `n`, if any. */
  function LevelOfCode(n: int32): Option<LogEventLevel>
  {
    if n == 0 then Some(Verbose)
    else if n == 1 then Some(Debug)
    else if n == 2 then Some(Information)
    else if n == 3 then Some(Warning)
    else if n == 4 then Some(Error)
    else if n == 5 then Some(Fatal)
    else None
  }

  /** The level codes are exactly 0 to 5 and can be read back, so the level
      column determines the level. */
  lemma LevelCodeRoundTrip(l: LogEventLevel, n: int32)
    ensures 0 <= LevelCode(l) <= 5
    ensures LevelOfCode(LevelCode(l)) == Some(l)
    ensures LevelOfCode(n) == Some(l) ==> LevelCode(l) == n
    ensures LevelOfCode(n).Some? <==> 0 <= n <= 5
  {
  }

  /** A more severe level has a larger code. */
  lemma LevelCodeMonotonic(a: LogEventLevel, b: LogEventLevel)
    ensures LevelCode(Verbose) < LevelCode(Debug) < LevelCode(Information)
    ensures LevelCode(Information) < LevelCode(Warning) < LevelCode(Error) < LevelCode(Fatal)
    ensures a.Verbose? && !b.Verbose? ==> LevelCode(a) < LevelCode(b)
    ensures b.Fatal? && !a.Fatal? ==> LevelCode(a) < LevelCode(b)
    ensures LevelCode(a) == LevelCode(b) <==> a == b
  {
  }

  /** Whether unboxing `v` to `int` succeeds: only a boxed `int` and a boxed
      enumeration whose underlying type is `int` (the Serilog level or any
      other such enumeration) can be unboxed that way. */
  predicate IntCompatible(v: RawValue)
  {
    v.BoxedInt? || v.BoxedLevel? || v.BoxedIntEnum?
  }

  /** The level converter: an unboxing cast to `int`, which throws for `null`
      and for any other boxed type. */
  function ConvertLevel(v: RawValue): (r: Result<int32, ConversionError>)
    ensures r.Success? <==> IntCompatible(v)
    ensures v.Null? ==> r == Failure(NullUnboxing)
    ensures !v.Null? && !IntCompatible(v) ==> r == Failure(InvalidCast)
    ensures v.BoxedInt? ==> r == Success(v.n)
    ensures v.BoxedIntEnum? ==> r == Success(v.code)
    ensures v.BoxedLevel? ==> r.Success? && LevelOfCode(r.value) == Some(v.level)
  {
    match v
    case Null => Failure(NullUnboxing)
    case BoxedInt(n) => Success(n)
    case BoxedIntEnum(code) => Success(code)
    case BoxedLevel(l) => Success(LevelCode(l))
    case _ => Failure(InvalidCast)
  }

  // ----- Properties converter -----

  /** One serialised entry: the quoted key, a colon, the rendered value. */
  function Member(w: JsonWriter, entry: (string, PropertyValue)): string
  {
    w.quote(entry.0) + ":" + w.format(entry.1)
  }

  /** The serialised entries, in enumeration order. */
  function Members(w: JsonWriter, entries: seq<(string, PropertyValue)>): seq<string>
  {
    seq(|entries|, i requires 0 <= i < |entries| => Member(w, entries[i]))
  }

  /** The JSON object text of a property dictionary: the members joined by
      single commas, between braces. */
  function PropertiesJson(w: JsonWriter, entries: seq<(string, PropertyValue)>): (r: string)
    ensures |r| >= 2 && r[0] == '{' && r[|r| - 1] == '}'
    ensures entries == [] <==> r == "{}"
  {
    var inner := Join(CommaDelimiter, Members(w, entries));
    assert entries != [] ==> |inner| > 0 by {
      if entries != [] {
        JoinItemAt(CommaDelimiter, Members(w, entries), 0);
      }
    }
    "{" + inner + "}"
  }

  /** The properties converter: `null` unless the value is a property
      dictionary, otherwise the dictionary's JSON object text. */
  function ConvertProperties(w: JsonWriter, v: RawValue): (r: Option<string>)
    ensures r.Some? <==> v.PropertyDictionary?
    ensures v.PropertyDictionary? ==> r == Some(PropertiesJson(w, v.entries))
  {
    if v.PropertyDictionary? then Some(PropertiesJson(w, v.entries)) else None
  }

  /** The converter as the sink writes it: open a brace, then for each entry
      the pending delimiter (empty before the first entry, a comma afterwards),
      the quoted key, a colon and the rendered value, then close the brace. */
  method WriteProperties(w: JsonWriter, v: RawValue) returns (r: Option<string>)
    ensures r == ConvertProperties(w, v)
  {
    if !v.PropertyDictionary? {
      return None;
    }
    var entries := v.entries;
    var output := "{";
    var precedingDelimiter := "";
    var i := 0;
    while i < |entries|
      invariant 0 <= i <= |entries|
      invariant precedingDelimiter == if i == 0 then "" else CommaDelimiter
      invariant output == "{" + Join(CommaDelimiter, Members(w, entries)[..i])
    {
      ghost var written := Members(w, entries)[..i];
      output := output + precedingDelimiter;
      precedingDelimiter := CommaDelimiter;
      output := output + w.quote(entries[i].0);
      output := output + ":";
      output := output + w.format(entries[i].1);
      assert Members(w, entries)[..i + 1] == written + [Member(w, entries[i])];
      if i > 0 {
        JoinSnoc(CommaDelimiter, written, Member(w, entries[i]));
      }
      i := i + 1;
    }
    assert Members(w, entries)[..i] == Members(w, entries);
    output := output + "}";
    r := Some(output);
  }

  /** Where the member of entry `i` starts in the serialised dictionary. */
  function MemberOffset(w: JsonWriter, entries: seq<(string, PropertyValue)>, i: nat): nat
    requires i < |entries|
  {
    1 + ItemOffset(CommaDelimiter, Members(w, entries), i)
  }

  /** Every entry appears, serialised and in enumeration order, in the JSON
      object: the first right after the opening brace, each later one right
      after a single comma. */
  lemma PropertiesJsonMemberAt(w: JsonWriter, entries: seq<(string, PropertyValue)>, i: nat)
    requires i < |entries|
    ensures MemberOffset(w, entries, i) + |Member(w, entries[i])| < |PropertiesJson(w, entries)|
    ensures PropertiesJson(w, entries)[MemberOffset(w, entries, i) .. MemberOffset(w, entries, i) + |Member(w, entries[i])|]
            == Member(w, entries[i])
    ensures PropertiesJson(w, entries)[MemberOffset(w, entries, i) - 1] == (if i == 0 then '{' else ',')
  {
    var ms := Members(w, entries);
    var inner := Join(CommaDelimiter, ms);
    var off := ItemOffset(CommaDelimiter, ms, i);
    JoinItemAt(CommaDelimiter, ms, i);
    var r := PropertiesJson(w, entries);
    assert r == "{" + inner + "}";
    assert r[1..|inner| + 1] == inner;
    assert r[1 + off .. 1 + off + |ms[i]|] == r[1..|inner| + 1][off .. off + |ms[i]|];
    if i > 0 {
      assert r[off] == inner[off - 1] == inner[off - 1 .. off][0];
    }
  }

  /** The JSON object is as long as its members plus the two braces and one
      comma between each two consecutive members. */
  lemma PropertiesJsonLength(w: JsonWriter, entries: seq<(string, PropertyValue)>)
    ensures entries != [] ==>
      |PropertiesJson(w, entries)| == 2 + TotalLength(Members(w, entries)) + |entries| - 1
  {
    JoinLength(CommaDelimiter, Members(w, entries));
  }

  /** Serialising two dictionaries' entries one after the other puts exactly
      one comma between the last member of the first and the first member of
      the second. */
  lemma PropertiesJsonAppend(w: JsonWriter, xs: seq<(string, PropertyValue)>, ys: seq<(string, PropertyValue)>)
    requires xs != [] && ys != []
    ensures PropertiesJson(w, xs + ys)
         == PropertiesJson(w, xs)[..|PropertiesJson(w, xs)| - 1] + "," + PropertiesJson(w, ys)[1..]
  {
    assert Members(w, xs + ys) == Members(w, xs) + Members(w, ys);
    JoinAppend(CommaDelimiter, Members(w, xs), Members(w, ys));
    var a := Join(CommaDelimiter, Members(w, xs));
    assert ("{" + a + "}")[..|a| + 1] == "{" + a;
  }

  // ----- Exception converter -----

  /** The exception converter: `null` for `null` and for anything that is not
      an exception, otherwise the exception's full trace text. */
  function ConvertException(toStringTrace: ExceptionInfo -> string, v: RawValue): (r: Option<string>)
    ensures r.Some? <==> v.BoxedException?
    ensures v.BoxedException? ==> r == Some(toStringTrace(v.e))
  {
    if v.Null? then None
    else if v.BoxedException? then Some(toStringTrace(v.e))
    else None
  }

  // ----- The converter table -----

  function OptionalText(o: Option<string>): Converted
  {
    match o
    case None => DbNull
    case Some(s) => DbText(s)
  }

  /** Runs the converter of the given kind. Only the level converter can
      fail; the other two return `null` for input they do not handle. */
  function Convert(env: Renderers, kind: ConverterKind, v: RawValue): (r: Result<Converted, ConversionError>)
    ensures r.Failure? <==> kind == LevelConverter && !IntCompatible(v)
    ensures kind == LevelConverter && r.Success? ==> r.value.DbInt?
    ensures kind != LevelConverter && r.Success? ==> !r.value.DbInt?
    ensures v.Null? && kind != LevelConverter ==> r == Success(DbNull)
    ensures kind == LevelConverter && r.Success? ==> r.value == DbInt(ConvertLevel(v).value)
    ensures kind == LevelConverter && r.Failure? ==> r.error == ConvertLevel(v).error
    ensures kind == PropertiesConverter ==> (r == Success(DbNull) <==> !v.PropertyDictionary?)
    ensures kind == PropertiesConverter && v.PropertyDictionary? ==>
      r == Success(DbText(PropertiesJson(env.json, v.entries)))
    ensures kind == ExceptionConverter ==> (r == Success(DbNull) <==> !v.BoxedException?)
    ensures kind == ExceptionConverter && v.BoxedException? ==> r == Success(DbText(env.toStringTrace(v.e)))
  {
    match kind
    case LevelConverter =>
      (match ConvertLevel(v)
       case Success(n) => Success(DbInt(n))
       case Failure(e) => Failure(e))
    case PropertiesConverter => Success(OptionalText(ConvertProperties(env.json, v)))
    case ExceptionConverter => Success(OptionalText(ConvertException(env.toStringTrace, v)))
  }

  /** Whether a converted value can be stored in a column of the given type. */
  predicate Fits(c: Converted, t: StorageType)
  {
    match c
    case DbNull => true
    case DbInt(_) => t == Integer
    case DbText(_) => t == Varchar
  }

  /** Each converter's output fits the storage type the catalog declares for
      the property it converts. */
  lemma ConvertedFitsStorageType(env: Renderers, p: Property, v: RawValue)
    requires p in DefaultValueConverter()
    ensures Convert(env, DefaultValueConverter()[p], v).Success? ==>
      Fits(Convert(env, DefaultValueConverter()[p], v).value, DefaultTypeMapping()[p])
  {
    TypeMappingTotal(p);
  }
}
