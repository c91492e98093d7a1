/**
 * JsonConverter: JSON text to and from values and maps.
 *
 * The JSON library, TypeConverter and MapConverter are not part of this model.
 * They enter as function parameters:
 *   parse:  json.loads, `None` when it raises
 *   dumps:  json.dumps, `None` when it raises
 *   toType: TypeConverter.to_type
 *   toMap:  MapConverter.to_nullable_map, `None` when it returns None or raises
 * so every property below holds whatever those collaborators do.
 */
module JsonConverter {
  import opened Wrappers
  import opened TypeCodes
  import opened PyText

  /** The exception that escapes a conversion: the JSON library's decode error
      (from `json.loads`), its encode error (from `json.dumps`), or whatever the
      type converter raises (from `TypeConverter.to_type`). */
  datatype JsonError = DecodeError | EncodeError | ConversionError

  /** What `to_json` may be handed: Python's None, a datetime (given by the text
      `strftime("%Y-%m-%dT%H:%M:%S.%f%z")` produces for it), or any other value. */
  datatype JsonInput<J> = NoneValue | DateTimeValue(formatted: string) | OtherValue(value: J)

  /** `from_json(typ, value)`: None stays None; otherwise the text is parsed and
      the parsed value converted to `typ`. Neither call is guarded, so a failure
      of either propagates. */
  function FromJson<J, T>(typ: TypeCode, value: Option<string>,
                          parse: string -> Option<J>,
                          toType: (TypeCode, J) -> Result<Option<T>, ()>): (r: Result<Option<T>, JsonError>)
    ensures value.None? ==> r == Success(None)
    ensures r == Failure(DecodeError) <==> value.Some? && parse(value.value).None?
    ensures r == Failure(ConversionError) <==>
      value.Some? && parse(value.value).Some? && toType(typ, parse(value.value).value).Failure?
    ensures r != Failure(EncodeError)
    ensures r.Success? && value.Some? ==>
      && parse(value.value).Some?
      && toType(typ, parse(value.value).value) == Success(r.value)
  {
    match value
    case None => Success(None)
    case Some(text) =>
      match parse(text)
      case None => Failure(DecodeError)
      case Some(j) =>
        match toType(typ, j)
        case Failure(_) => Failure(ConversionError)
        case Success(v) => Success(v)
  }

  /** The date branch of `to_json`: cut the formatted text so that only three
      fraction digits remain, drop a `+HHMM` offset, and append `Z`. */
  function TrimDate(formatted: string): (r: string)
    ensures |r| >= 1 && r[|r| - 1] == 'Z'
    ensures '+' !in r
    ensures var u, h := SliceTo(formatted, -8) + SliceFrom(formatted, -5), r[..|r| - 1];
      h <= u && (h == u || u[|h|] == '+')
  {
    SplitFirst(SliceTo(formatted, -8) + SliceFrom(formatted, -5), '+') + "Z"
  }

  /** `to_json(value)` */
  function ToJson<J>(value: JsonInput<J>, dumps: J -> Option<string>): (r: Result<Option<string>, JsonError>)
    ensures value.NoneValue? ==> r == Success(None)
    ensures value.DateTimeValue? ==> r == Success(Some(TrimDate(value.formatted)))
    ensures value.OtherValue? && dumps(value.value).Some? ==> r == Success(dumps(value.value))
    ensures r.Failure? <==> value.OtherValue? && dumps(value.value).None?
    ensures r.Failure? ==> r.error == EncodeError
  {
    match value
    case NoneValue => Success(None)
    case DateTimeValue(formatted) => Success(Some(TrimDate(formatted)))
    case OtherValue(v) =>
      match dumps(v)
      case None => Failure(EncodeError)
      case Some(text) => Success(Some(text))
  }

  /** `to_nullable_map(value)`: parse and coerce; every failure is swallowed into None. */
  function ToNullableMap<J, V>(value: Option<string>,
                               parse: string -> Option<J>,
                               toMap: J -> Option<map<string, V>>): (r: Option<map<string, V>>)
    ensures r.None? <==>
      value.None? || parse(value.value).None? || toMap(parse(value.value).value).None?
    ensures r.Some? ==> value.Some? && r == toMap(parse(value.value).value)
  {
    match value
    case None => None
    case Some(text) =>
      match parse(text)
      case None => None
      case Some(j) => toMap(j)
  }

  /** `to_map(value)`: as `to_nullable_map`, with `{}` in place of None. */
  function ToMap<J, V>(value: Option<string>,
                       parse: string -> Option<J>,
                       toMap: J -> Option<map<string, V>>): (r: map<string, V>)
    ensures ToNullableMap(value, parse, toMap).Some? ==> r == ToNullableMap(value, parse, toMap).value
    ensures ToNullableMap(value, parse, toMap).None? ==> r == map[]
  {
    var result := ToNullableMap(value, parse, toMap);
    if result.Some? then result.value else map[]
  }

  /** `to_map_with_default(value, default)`: as `to_nullable_map`, with the
      caller's default in place of None. */
  function ToMapWithDefault<J, V>(value: Option<string>, default: map<string, V>,
                                  parse: string -> Option<J>,
                                  toMap: J -> Option<map<string, V>>): (r: map<string, V>)
    ensures ToNullableMap(value, parse, toMap).Some? ==> r == ToNullableMap(value, parse, toMap).value
    ensures ToNullableMap(value, parse, toMap).None? ==> r == default
  {
    var result := ToNullableMap(value, parse, toMap);
    if result.Some? then result.value else default
  }

  // ---------------------------------------------------------------------------
  // Properties

  /** `from_json(t, None)` is None whatever the parser and converter are. */
  lemma FromJsonOfNone<J, T>(typ: TypeCode, parse: string -> Option<J>, toType: (TypeCode, J) -> Result<Option<T>, ()>,
                             otherParse: string -> Option<J>, otherToType: (TypeCode, J) -> Result<Option<T>, ()>)
    ensures FromJson(typ, None, parse, toType) == FromJson(typ, None, otherParse, otherToType) == Success(None)
  {
  }

  /** On text the parser rejects, `from_json` fails, while the map conversions
      return their sentinels: None, `{}` and the caller's default. */
  lemma InvalidTextRaisesOnlyInFromJson<J, T, V>(typ: TypeCode, text: string, default: map<string, V>,
                                                 parse: string -> Option<J>,
                                                 toType: (TypeCode, J) -> Result<Option<T>, ()>,
                                                 toMap: J -> Option<map<string, V>>)
    requires parse(text).None?
    ensures FromJson(typ, Some(text), parse, toType) == Failure(DecodeError)
    ensures ToNullableMap(Some(text), parse, toMap) == None
    ensures ToMap(Some(text), parse, toMap) == map[]
    ensures ToMapWithDefault(Some(text), default, parse, toMap) == default
  {
  }

  /** `to_map(v)` is `to_map_with_default(v, {})`. */
  lemma ToMapIsEmptyDefault<J, V>(value: Option<string>, parse: string -> Option<J>, toMap: J -> Option<map<string, V>>)
    ensures ToMap(value, parse, toMap) == ToMapWithDefault(value, map[], parse, toMap)
  {
  }

  /** A result that differs from the default is the coerced map. */
  lemma ToMapWithDefaultDiffers<J, V>(value: Option<string>, default: map<string, V>,
                                      parse: string -> Option<J>, toMap: J -> Option<map<string, V>>)
    ensures ToMapWithDefault(value, default, parse, toMap) != default ==>
      ToNullableMap(value, parse, toMap) == Some(ToMapWithDefault(value, default, parse, toMap))
  {
  }

  // ---------------------------------------------------------------------------
  // The date branch

  predicate IsDigit(c: char) { '0' <= c <= '9' }

  /** `YYYY-MM-DDTHH:MM:SS.ffffff`: what `%Y-%m-%dT%H:%M:%S.%f` gives for a
      four-digit year. */
  predicate IsFractionalTimestamp(s: string) {
    && |s| == 26
    && s[4] == '-' && s[7] == '-' && s[10] == 'T' && s[13] == ':' && s[16] == ':' && s[19] == '.'
    && forall i :: 0 <= i < 26 && i !in {4, 7, 10, 13, 16, 19} ==> IsDigit(s[i])
  }

  /** `+HHMM` or `-HHMM`: what `%z` gives for an aware datetime whose offset is
      a whole number of minutes. */
  predicate IsOffset(s: string) {
    && |s| == 5
    && (s[0] == '+' || s[0] == '-')
    && forall i :: 1 <= i < 5 ==> IsDigit(s[i])
  }

  lemma TimestampHasNoPlus(t: string)
    requires IsFractionalTimestamp(t)
    ensures '+' !in t
  {
    forall i | 0 <= i < |t| ensures t[i] != '+' {
      if i !in {4, 7, 10, 13, 16, 19} { assert IsDigit(t[i]); }
    }
  }

  /** A positive (or zero) offset: the fraction is cut to milliseconds, the
      offset is dropped and `Z` appended. */
  lemma {:induction false} TrimDatePositiveOffset(t: string, offset: string)
    requires IsFractionalTimestamp(t) && IsOffset(offset) && offset[0] == '+'
    ensures TrimDate(t + offset) == t[..23] + "Z"
    ensures |TrimDate(t + offset)| == 24
  {
    var s := t + offset;
    assert SliceTo(s, -8) == t[..23];
    assert SliceFrom(s, -5) == offset;
    TimestampHasNoPlus(t);
    assert '+' !in t[..23] by {
      forall i | 0 <= i < 23 ensures t[..23][i] != '+' { assert t[..23][i] == t[i]; }
    }
    SplitFirstAt(t[..23], offset, '+');
  }

  /** A negative offset is not dropped: it stays in front of the `Z`. */
  lemma {:induction false} TrimDateNegativeOffset(t: string, offset: string)
    requires IsFractionalTimestamp(t) && IsOffset(offset) && offset[0] == '-'
    ensures TrimDate(t + offset) == t[..23] + offset + "Z"
  {
    var s := t + offset;
    assert SliceTo(s, -8) == t[..23];
    assert SliceFrom(s, -5) == offset;
    TimestampHasNoPlus(t);
    assert '+' !in t[..23] + offset by {
      forall i | 0 <= i < 28 ensures (t[..23] + offset)[i] != '+' {
        if i < 23 { assert (t[..23] + offset)[i] == t[i]; }
        else if i > 23 { assert IsDigit(offset[i - 23]); }
      }
    }
    SplitFirstAbsent(t[..23] + offset, '+');
  }

  /** A naive datetime (empty `%z`): the cuts land inside the seconds and the
      fraction, so the result holds no decimal point at all. */
  lemma {:induction false} TrimDateNaive(t: string)
    requires IsFractionalTimestamp(t)
    ensures TrimDate(t) == t[..18] + t[21..] + "Z"
    ensures '.' !in TrimDate(t)
  {
    assert SliceTo(t, -8) == t[..18];
    assert SliceFrom(t, -5) == t[21..];
    TimestampHasNoPlus(t);
    var u := t[..18] + t[21..];
    assert forall i :: 0 <= i < |u| ==> u[i] != '+' && u[i] != '.' by {
      forall i | 0 <= i < |u| ensures u[i] != '+' && u[i] != '.' {
        if i < 18 { assert u[i] == t[i]; } else { assert u[i] == t[i + 3]; }
      }
    }
    SplitFirstAbsent(u, '+');
  }

  /** A UTC datetime, e.g. 2020-01-02 03:04:05.678901+00:00. */
  lemma TrimDateUtcExample()
    ensures TrimDate("2020-01-02T03:04:05.678901+0000") == "2020-01-02T03:04:05.678Z"
  {
    var t := "2020-01-02T03:04:05.678901";
    assert IsFractionalTimestamp(t);
    assert "2020-01-02T03:04:05.678901+0000" == t + "+0000";
    TrimDatePositiveOffset(t, "+0000");
  }
}
