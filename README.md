# dataclasses_json: codec registry and field configuration, in Dafny

This project models two components of `dataclasses_json`, the library that
converts Python dataclasses to and from JSON:

- **The codec registry `Codecs`** (`dataclasses_json/serialization.py`).
  It holds three tables, `encoders`, `decoders` and `mm_fields`. Each is keyed
  by a type or by a string.
  - `set_json` registers an encode/decode pair under the kind itself, under
    `Optional[kind]` (with both functions wrapped by `optional`), and, for a
    type, under one or two textual keys. Which textual keys it uses depends on
    the interpreter's minor version and on the class of the type object.
  - `set_mm` fills the third table under the same keys, without the
    `Optional` entry.
  - The registry embeds a JSON encoder. Its `default` hook turns a mapping
    into a dict, any other collection into a list, and an enumeration member
    into its value. Only after these checks does it use the encoder registered
    for the value's exact type. With no such encoder, it fails.
  - At import time the module builds `DefaultJsonCodecs`, a registry seeded
    with `UUID`, `datetime` and `Decimal` codecs.
- **The field configuration builder `config`** (`dataclasses_json/cfg.py`).
  It merges per-field settings into a metadata dictionary, under the key
  `dataclasses_json`.
  - It combines a `field_name` with a `letter_case` rule into one rule.
  - It upper-cases an `undefined` action name and checks it against the
    members of `Undefined`. An unknown name raises `UndefinedParameterError`
    part way through, after the earlier settings have been written.
  - `Exclude.ALWAYS` and `Exclude.NEVER` are the two constant exclusion
    predicates.

Files:

- `wrappers.dfy`: `Option` and `Result`.
- `pyruntime.dfy`: the Python values both components observe.
  - `PyType`: a type's `__name__`, its `str` form and the name of its class.
  - `Fn`: an opaque callable; `OptionalWrap(f)` is `optional(f)`.
  - `PyObject`: a value seen through its `Collection`, `Mapping` and `Enum`
    checks.
- `serialization.dfy` (module `Serialization`): the registry.
  - Keys are `KindKey(kind)` or `OptionalKey(kind)`; a kind is a string or a
    type.
  - The class `Codecs` has one `map` field per table. `SetJson` and `SetMm`
    update those fields in place, and each is proved equal to the old table
    joined with a specification map (`JsonEntries`, `MmEntries`).
  - `EncoderDefault` is the `default` hook, evaluated against the registry's
    `encoders` table at the time of the call.
- `cfg.dfy` (module `Cfg`): the configuration builder.
  - The metadata dictionary (`Metadata`) and the settings dictionary inside it
    (`SettingsDict`) are objects updated in place, so a settings dictionary
    that others share sees the writes, as in Python.
  - Letter-case rules are Dafny functions `string -> string`.

The interpreter's minor version (`sys.version_info[1]`) is a parameter `minor`
of the operations that read it. The names of the `Undefined` members, in
declaration order, are a parameter `actions`.

`default` looks up `type(o)` alone (serialization.py:72-73). It never reads
the textual keys that registration writes. `DefaultLooksUpExactType` and
`StringRegistrationInvisibleToDefault` state this.

The encoder class takes a `codecs` constructor argument and stores it, but
`default` reads the registry that created the class (`self.__class__.codecs`).
The model therefore applies `EncoderDefault` to that registry's `encoders`.

## Model

| member | source | states |
|---|---|---|
| `Serialization.Codecs.constructor` | dataclasses_json/serialization.py:22-30 | each table starts as a copy of the supplied dict, or empty when none is supplied; tables are values, so later registrations cannot reach the caller's dicts |
| `Serialization.DerivedNames` | dataclasses_json/serialization.py:86-105 | a string kind derives no textual key; a type derives a non-empty subset of {`__name__`, `str(kind)`}: on 3.8 a `_GenericAlias` gets its `str` form and every other type its `__name__`; on 3.9 a `_GenericAlias` or `_UnionGenericAlias` gets its `str` form and every other type its `__name__`; on every other version both |
| `Serialization.JsonEntries` | dataclasses_json/serialization.py:80-105 | the entries `set_json` writes into one table: exactly the keys kind, `Optional[kind]` and the derived names; the codec under each, and `optional(codec)` under `Optional[kind]` |
| `Serialization.MmEntries` | dataclasses_json/serialization.py:107-127 | the entries `set_mm` writes: the kind and its derived names, all mapped to the marshmallow field |
| `Serialization.StringKindWritesTwoKeys` | dataclasses_json/serialization.py:80-87 | a string kind writes exactly two keys per table, itself and `Optional[kind]`, and no derived textual key |
| `Serialization.TypeKindKeys` | dataclasses_json/serialization.py:89-105 | a type writes three keys per table on 3.8 and 3.9, four elsewhere when `__name__` and `str(kind)` differ; derived keys never clash with the kind or its `Optional` key |
| `Serialization.NameKeysCount` | dataclasses_json/serialization.py:89-105 | derived textual keys correspond one to one with derived names |
| `Serialization.MmEntriesAreJsonEntriesWithoutOptional` | dataclasses_json/serialization.py:107-127 | `set_mm` derives its keys exactly as `set_json` does, minus the `Optional[kind]` entry |
| `Serialization.SetJsonLastWriteWins` | dataclasses_json/serialization.py:80-105 | registering the same kind twice gives the table that the second registration alone gives: every entry written is replaced, nothing else changes |
| `Serialization.AfterRegistration` | dataclasses_json/serialization.py:80-105 | after registration the kind maps to the codec, `Optional[kind]` to `optional(codec)`, every derived name to the codec, and every other key keeps its old entry or absence |
| `Serialization.WritesAreUnion` | dataclasses_json/serialization.py:80-105 | the individual writes, in the source's order and per version branch, add up to the old table joined with `JsonEntries` |
| `Serialization.MmWritesAreUnion` | dataclasses_json/serialization.py:107-127 | the individual `set_mm` writes, in the source's order and per version branch, add up to the old table joined with `MmEntries` |
| `Serialization.Codecs.SetJson` | dataclasses_json/serialization.py:80-105 | new `encoders`/`decoders` are the old tables joined with the entries for `enc`/`dec`; `mm_fields` is unchanged |
| `Serialization.Codecs.SetMm` | dataclasses_json/serialization.py:107-127 | new `mm_fields` is the old table joined with `MmEntries`; the `Optional[kind]` entry is neither written nor removed; `encoders`/`decoders` are unchanged |
| `Serialization.EncoderDefault` | dataclasses_json/serialization.py:62-76 | fails (type not serializable, named by its class name) exactly when the value is neither a collection nor an enum member and its exact type has no encoder; a codec result uses the encoder under `type(o)` applied to `o` |
| `Serialization.DefaultStructuralChecksFirst` | dataclasses_json/serialization.py:65-71 | a mapping becomes `dict(o)`, any other collection `list(o)`, an enum member its value, whatever the table holds |
| `Serialization.DefaultLooksUpExactType` | dataclasses_json/serialization.py:72-75 | the result depends on the table only through the entry for the value's exact type |
| `Serialization.DefaultUsesLatestRegistration` | dataclasses_json/serialization.py:72-73 | after `set_json(type(o), enc, ...)` a plain value is encoded with `enc`, whatever was registered before |
| `Serialization.StringRegistrationInvisibleToDefault` | dataclasses_json/serialization.py:72-87 | a registration under a string never changes what `default` returns |
| `Serialization.NewDefaultJsonCodecs` | dataclasses_json/serialization.py:130-136 | the seeded registry's `encoders`/`decoders` are exactly the `UUID`, `datetime` and `Decimal` entries; `mm_fields` is empty |
| `Serialization.SeededKeyCount` | dataclasses_json/serialization.py:130-136 | the seeded tables hold 9 keys on 3.8 and 3.9 and 12 on every other version |
| `Serialization.SeededKindsDisjoint` | dataclasses_json/serialization.py:132-136 | no key is written by two of the three built-in registrations |
| `Serialization.SeededEncoders` | dataclasses_json/serialization.py:130-136 | the seeded registry encodes a plain `UUID`, `datetime` or `Decimal` with that type's own encoder |
| `Cfg.ExcludeAlways` | dataclasses_json/cfg.py:24 | true for every value |
| `Cfg.ExcludeNever` | dataclasses_json/cfg.py:25 | false for every value |
| `Cfg.LetterCaseOverride` | dataclasses_json/cfg.py:60-71 | a rule is stored iff `letter_case` or `field_name` is given; with `field_name` alone it returns `field_name` for every input, with both it returns `letter_case(field_name)` for every input, without `field_name` it is `letter_case` |
| `Cfg.Upper` | dataclasses_json/cfg.py:76 | `str.upper`: same length, each character upper-cased |
| `Cfg.UpperIgnoresCase` | dataclasses_json/cfg.py:76-81 | the upper-cased name does not depend on the case the name was written in, and upper-casing is idempotent |
| `Cfg.ResolveUndefined` | dataclasses_json/cfg.py:73-83 | an `Undefined` member is kept as given; a name resolves iff its upper-case form names a member, and then to that member; otherwise `UndefinedParameterError` listing the valid names |
| `Cfg.ResolveAnyCase` | dataclasses_json/cfg.py:75-81 | a member name resolves to its member however it is cased (shown for its lower-case and upper-case spellings) |
| `Cfg.WrittenStoresGivenSettings` | dataclasses_json/cfg.py:51-86 | each of the six settings is stored under its key exactly when given; a setting not given leaves the old entry or absence; keys outside the six are untouched |
| `Cfg.SetDefault` | dataclasses_json/cfg.py:49 | `setdefault`: returns the existing settings dict, or installs a fresh empty one; other top-level entries unchanged |
| `Cfg.PutIfGiven` | dataclasses_json/cfg.py:51-58 | stores the value under the key only when it is given |
| `Cfg.WriteFieldSettings` | dataclasses_json/cfg.py:51-72 | the settings dict after the `encoder`, `decoder`, `mm_field` and `letter_case` writes: each given one stored under its key, in that order, every other entry unchanged |
| `Cfg.Config` | dataclasses_json/cfg.py:35-88 | with no metadata, a fresh dict holding only the settings dict; with metadata, the same object, changed only under `dataclasses_json`; the settings dict holds each given setting under its key, the others keep their old entry or absence; it fails iff the `undefined` name is unknown, and then `undefined` and `exclude` are not written while the earlier writes remain |

## Left out

- The conversion engine (`core.py`), the undefined-key policies and catch-all fields (`undefined.py`), `utils.py` and the marshmallow schema builder (`mm.py`) are not part of this model. `optional`, `_isinstance_safe` and the `stringcase` functions behind `LetterCase` appear only as opaque callables or as the outcome of a check.
- `api.py` is not modelled. `to_json`/`from_json` wrap the standard `json` text codec. `to_dict`/`from_dict` call the engine. `dataclass_json` attaches methods to a class at run time.
- The registrations for `arrow`, `hyperlink` and `yarl` are not modelled. They happen only when those packages can be imported, which is an environment fact.
- The seeded lambdas (`str`, `UUID(...)`, `timestamp()`, `fromtimestamp(...)`, `Decimal(...)`) are opaque tokens. Only the keys they are stored under are modelled. Their behaviour involves floating point and standard-library parsing.
- The JSON text encoder is not modelled. This covers `JSONEncoder.__init__` options, the recursive serialisation of what `default` returns, and the message of the `TypeError` raised by `super().default`, which the model represents as `NotSerializable(type name)`.
- Python typing-alias equality is not modelled. `Optional[Optional[X]]` equals `Optional[X]` in Python, and `Optional["name"]` wraps a forward reference. In the model, keys are compared structurally and `OptionalKey` is not flattened.
- `optional(f)` builds a new function object on every call. The model treats it as the value `OptionalWrap(f)`, so function identity is not captured.
- An object without `__name__` would raise `AttributeError` in `set_json`. This is not modelled, because every `PyType` has a name.
- Cfg.Upper: only ASCII letters are mapped. Python's full Unicode case mapping is not modelled; for example, `'ß'.upper()` is `'SS'` in Python.
- Cfg.ResolveUndefined: validity is membership of the upper-cased name in the list of member names. Python's `hasattr(Undefined, ...)` would also accept any other upper-case attribute of the enum class.
- The model types every top-level metadata value as a settings dictionary, following `config`'s return annotation `Dict[str, dict]`. A value of another type stored under `dataclasses_json` would make Python fail on the first write, and this is not modelled.
- `functools.wraps` copies the name and docstring of `letter_case` onto the override function. This is not modelled.
- Thread safety of the process-wide registry is not modelled.
- Serialization.Codecs.SetJson: `Optional[kind]` is taken to succeed. In Python, a string kind that is not a valid expression makes `Optional[kind]` raise `SyntaxError` while building a forward reference (serialization.py:83), after `encoders[kind]` and `decoders[kind]` have already been written. The model does not have this error path.
- The tables are fields holding `map` values that each registration reassigns. A reference to `codecs.encoders` taken before a registration would see the new entries in Python, because the dict is mutated in place. In the model it does not, so this aliasing is not captured.
- A type's identity is the triple of its `__name__`, its `str` form and its class name. Two distinct Python classes that agree on all three are the same key in the model, while Python keeps them apart.
