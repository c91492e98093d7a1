# pip-services commons: JSON fallbacks, property-schema paths, error taxonomy

A Dafny model of three small pieces of the Python `pip_services3_commons` library:

- **JsonConverter** (`json_converter.dfy`, with Python's string slicing and
  `split` in `py_text.dfy`): `from_json`, `to_json`, `to_nullable_map`, `to_map`
  and `to_map_with_default`. The JSON library, `TypeConverter` and `MapConverter`
  are not part of this model. Each enters as a function parameter, so every
  property holds for any parser, encoder and converter. An exception raised by
  the parser, the encoder or the type converter that escapes a call is a
  `Failure` result. An exception that `to_nullable_map` catches is a `None`.
- **PropertySchema** (`property_schema.dfy`): a class with the property's name and
  type, plus the base schema's `required` flag and rules. Its validation step
  composes the dot path and then appends the base validation's results and the
  type validation's results, in that order, to the caller's result list. Both
  collaborators are function parameters.
- **The error taxonomy** (`errors.dfy`, `reference_error.dfy`): one record type,
  `ApplicationError`, and one factory per error kind, named after the Python
  class it models. `ConfigException`, `ConnectionException`, `FileException` and
  `UnsupportedException` fix their category and set status 500.
  `ReferenceException` builds its message from the locator, fixes
  the code `REF_ERROR` and attaches the locator under the key `locator`.

The date branch of `to_json` is evidently meant to produce UTC ISO-8601 text
with milliseconds and a `Z` (its only comment says it removes microseconds).
The code is a slice-and-split on the `strftime` text, and the model follows the
code:
- With a `+HHMM` offset the text is cut to milliseconds and the offset is dropped
  without converting the time to UTC (`TrimDatePositiveOffset`).
- A `-HHMM` offset is kept in front of the `Z` (`TrimDateNegativeOffset`).
- A naive datetime, whose `%z` is empty, loses the units digit of the seconds,
  the `.` and the first fraction digit (`TrimDateNaive`):
  `2020-01-02T03:04:05.678901` becomes `2020-01-02T03:04:078901Z`.

## Model

| member | source | states |
|---|---|---|
| `JsonConverter.FromJson` | pip_services3_commons/convert/JsonConverter.py:46-50 | None in gives None out; it fails with a decode error exactly when the text does not parse, and with a conversion error exactly when the text parses and the type converter raises; otherwise the result is what the converter returns for the parsed value |
| `JsonConverter.FromJsonOfNone` | pip_services3_commons/convert/JsonConverter.py:46-47 | `from_json(t, None)` is None whatever the parser and converter do, so neither is consulted |
| `JsonConverter.InvalidTextRaisesOnlyInFromJson` | pip_services3_commons/convert/JsonConverter.py:49-50 | on text the parser rejects, `from_json` fails, while `to_nullable_map`, `to_map` and `to_map_with_default` return None, `{}` and the default |
| `JsonConverter.ToJson` | pip_services3_commons/convert/JsonConverter.py:61-68 | None gives None; a datetime gives the trimmed date text; any other value gives the encoder's text, and the call fails exactly when the encoder raises |
| `JsonConverter.TrimDate` | pip_services3_commons/convert/JsonConverter.py:66 | the date text always ends with `Z` and never contains `+`; before the `Z` it is the longest `+`-free prefix of `s[:-8] + s[-5:]`: a prefix that is either all of it or stops at a `+` |
| `JsonConverter.TrimDatePositiveOffset` | pip_services3_commons/convert/JsonConverter.py:65-66 | for `YYYY-MM-DDTHH:MM:SS.ffffff+HHMM` the result is the first 23 characters followed by `Z`, 24 characters in all |
| `JsonConverter.TrimDateNegativeOffset` | pip_services3_commons/convert/JsonConverter.py:65-66 | for a `-HHMM` offset the result is the first 23 characters, then the offset, then `Z` |
| `JsonConverter.TrimDateNaive` | pip_services3_commons/convert/JsonConverter.py:65-66 | for a naive datetime (no offset) the result is `s[:18] + s[21:] + "Z"`, dropping the units digit of the seconds, the `.` and the first fraction digit, and contains no `.` |
| `JsonConverter.TrimDateUtcExample` | pip_services3_commons/convert/JsonConverter.py:65-66 | `2020-01-02T03:04:05.678901+0000` becomes `2020-01-02T03:04:05.678Z` |
| `JsonConverter.ToNullableMap` | pip_services3_commons/convert/JsonConverter.py:79-87 | the result is None exactly when the input is None, parsing fails or map coercion fails; otherwise it is the coerced map |
| `JsonConverter.ToMap` | pip_services3_commons/convert/JsonConverter.py:98-99 | the nullable result when present, `{}` otherwise; never None |
| `JsonConverter.ToMapWithDefault` | pip_services3_commons/convert/JsonConverter.py:112-113 | the nullable result when present, the caller's default otherwise |
| `JsonConverter.ToMapIsEmptyDefault` | pip_services3_commons/convert/JsonConverter.py:98-113 | `to_map(v) == to_map_with_default(v, {})` for every input |
| `JsonConverter.ToMapWithDefaultDiffers` | pip_services3_commons/convert/JsonConverter.py:112-113 | a result different from the default is exactly the nullable result |
| `PyText.SliceTo` | pip_services3_commons/convert/JsonConverter.py:66 | `s[:j]` is a prefix of `s` whose length follows Python's negative-index and clamping rule |
| `PyText.SliceFrom` | pip_services3_commons/convert/JsonConverter.py:66 | `s[i:]` is the suffix left after the clamped bound, so `s` is the part before the bound followed by it |
| `PyText.SplitFirst` | pip_services3_commons/convert/JsonConverter.py:66 | `s.split(sep)[0]` is a prefix of `s` free of `sep` that either is all of `s` or stops at an occurrence of `sep` |
| `PyText.SplitFirstAt` | pip_services3_commons/convert/JsonConverter.py:66 | when `sep` first occurs right after a `sep`-free prefix `a`, the first piece is `a` |
| `PyText.SplitFirstAbsent` | pip_services3_commons/convert/JsonConverter.py:66 | without the separator, the first piece is the whole string |
| `Validate.EffectivePath` | pip_services3_commons/validate/PropertySchema.py:88 | a None or empty incoming path gives exactly the name; otherwise the path is `path + "." + name`, with the incoming path and a dot as prefix and the name as suffix |
| `Validate.EffectivePathInjective` | pip_services3_commons/validate/PropertySchema.py:88 | under the same incoming path, two names give the same composed path only if they are equal |
| `Validate.NestedPathExample` | pip_services3_commons/validate/PropertySchema.py:88 | property `zip` of property `address` at the root is at `address.zip`; `id` with a None path is at `id` |
| `Validate.PropertySchema.PerformValidation` | pip_services3_commons/validate/PropertySchema.py:78-91 | the result list becomes its old contents, then the base validation's results, then the type validation's results; both collaborators get the same composed path and the same value |
| `Validate.ValidationOrder` | pip_services3_commons/validate/PropertySchema.py:86-91 | results already in the list keep their place at its head; base results come next and type results last |
| `Validate.ResultsAtPropertyPath` | pip_services3_commons/validate/PropertySchema.py:88-91 | when both collaborators place their results at the path they receive, every new result is at the composed property path |
| `Validate.DocumentedExample` | pip_services3_commons/validate/PropertySchema.py:25-29 | with stand-in collaborators, an absent or string `id` gives no results and an integer gives one type mismatch at `id`; made required, an absent `id` gives one required result; a required `zip` under `address` is reported at `address.zip` |
| `Validate.PropertySchema.constructor` | pip_services3_commons/validate/PropertySchema.py:32-43 | name and type are stored; `required` and the rules are kept for the base schema; the type is any value the caller gives (type code, type, type name or nested schema) |
| `Validate.PropertySchema.GetName` | pip_services3_commons/validate/PropertySchema.py:45-51 | returns the stored name |
| `Validate.PropertySchema.SetName` | pip_services3_commons/validate/PropertySchema.py:53-59 | the name becomes the new value; type, required flag and rules are unchanged |
| `Validate.PropertySchema.GetType` | pip_services3_commons/validate/PropertySchema.py:61-67 | returns the stored type |
| `Validate.PropertySchema.SetType` | pip_services3_commons/validate/PropertySchema.py:69-76 | the type becomes the new value, of whatever kind; name, required flag and rules are unchanged |
| `Errors.ConfigException` | pip_services3_commons/errors/ConfigException.py:21-32 | category Misconfiguration, status 500, correlation id and message passed through, code passed through or `UNKNOWN` when absent, no details |
| `Errors.ConnectionException` | pip_services3_commons/errors/ConnectionException.py:23-34 | category NoResponse, status 500, correlation id and message passed through, code passed through or `UNKNOWN` when absent, no details |
| `Errors.FileException` | pip_services3_commons/errors/FileException.py:21-32 | category FileError, status 500, correlation id and message passed through, code passed through or `UNKNOWN` when absent, no details |
| `Errors.UnsupportedException` | pip_services3_commons/errors/UnsupportedException.py:21-32 | category Unsupported, status 500, correlation id and message passed through, code passed through or `UNKNOWN` when absent, no details |
| `Errors.ApplicationError.WithServerStatus` | pip_services3_commons/errors/ConfigException.py:32 | the status becomes 500 whatever the base constructor set, and nothing else changes |
| `Errors.DefaultArguments` | pip_services3_commons/errors/ConfigException.py:21-27 | with every argument left out, each of the four kinds has code `UNKNOWN`, status 500, no correlation id or message, and its own category |
| `Errors.KindsDifferOnlyInCategory` | pip_services3_commons/errors/ConnectionException.py:33-34 | built from the same arguments, the four kinds are equal except for their category |
| `Errors.ApplicationError.WithDetails` | pip_services3_commons/refer/ReferenceException.py:31 | the key maps to the new value, the other details are kept, and every other field is unchanged |
| `References.ReferenceMessage` | pip_services3_commons/refer/ReferenceException.py:29 | always starts with `Cannot locate reference: `; after the prefix comes the locator's text, or exactly `<None>` without a locator |
| `References.ReferenceException` | pip_services3_commons/refer/ReferenceException.py:21-31 | category Internal, status 500, code always `REF_ERROR`, correlation id passed through, the synthesised message, and details holding exactly `locator` mapped to the given locator, None included |
| `References.ReferenceMessageInjective` | pip_services3_commons/refer/ReferenceException.py:29 | equal messages mean equal locator texts, so the message identifies the locator's text (not the locator: distinct locators with the same text collide); a locator whose text is `<None>` reads the same as no locator |
| `References.ReferenceExceptionExample` | pip_services3_commons/refer/ReferenceException.py:29-31 | for locator `my-locator` the message is `Cannot locate reference: my-locator` and the `locator` detail is `my-locator` |
| `References.ReferenceExceptionWithoutLocator` | pip_services3_commons/refer/ReferenceException.py:29-31 | without a locator the message is `Cannot locate reference: <None>` and the `locator` detail is None |

## Left out

- The JSON grammar, `json.loads` and `json.dumps`: parameters `parse` and `dumps`. A `None` from either stands for the exception it raises.
- `TypeConverter.to_type` and `MapConverter.to_nullable_map`: parameters `toType` and `toMap`. `toType` returns a `Failure` when it raises, which `from_json` propagates; for `toMap`, a `None` covers both a None result and a raise, since `to_nullable_map` catches every exception.
- The round trip `from_json(to_json(v)) == v`: it depends only on the foreign encoder, parser and converter, so it is not stated.
- `datetime.strftime`, time zones and calendars: the date branch takes the formatted text as its input (`DateTimeValue`). The shape lemmas cover four-digit years and offsets of whole minutes only.
- Python's `isinstance` dispatch in `to_json` is the choice of `JsonInput` variant.
- `JsonConverter.ToMapWithDefault`: the default is a map; a default of another type, such as None, is not modelled.
- A property name of None: `path + "." + None` raises, and the model takes the name to be a string.
- The base `Schema` validation, `_perform_type_validation`, `ObjectSchema`, the validation rules and `ValidationResult` construction are not part of this model. They are parameters. `RequiredCheck` and `TypeCheck` (with its `PropertyType` of type codes and type names) are stand-ins that only make the documented example concrete. Recursion into a property whose type is itself a schema happens inside type validation and is not modelled.
- Rules, property types and values are type parameters; `required` and the rules are kept exactly as passed, because how the base schema defaults them is not part of this model.
- `ApplicationException`, `InternalException` and `ErrorCategory` are not part of this model. `NewApplicationError` stands in for the base constructor. It applies the `UNKNOWN` code default from the doc comments, because the subclasses pass a None code through. Its own status is a placeholder (`BaseStatus`), which every factory overwrites with 500.
- `InternalException` assumes that `InternalException` fixes the category Internal and status 500, like its four siblings.
- Stack traces, causes, the exception name, and raising and catching are not modelled.
- Details keep the value given. Any text conversion done by the base's detail map is not modelled.
- The category tags other than the ones used here are not modelled.
- `IReferenceable.set_references` and `ICleanable.clear` are interface stubs whose only body raises "not implemented". They have no behaviour to model.
