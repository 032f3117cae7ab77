/** The codec registry `Codecs`: three tables (encoders, decoders and
    marshmallow fields) keyed by a type or a string, the two registration
    operations that fill them, the `default` hook of the JSON encoder the
    registry embeds, and the registry the library seeds at import time. */
module Serialization {
  import opened Wrappers
  import opened PyRuntime

  /** What a caller registers a codec under: a string, or a type object. */
  datatype Kind = StrKind(s: string) | TypeKind(t: PyType)

  /** A table key: a kind itself, or `Optional[kind]`. A textual key that
      registration derives from a type is `KindKey(StrKind(n))`, the very key
      a registration under the string `n` writes. */
  datatype Key = KindKey(kind: Kind) | OptionalKey(kind: Kind)

  /** The strings a registration under `kind` also writes, on an interpreter
      whose minor version is `minor`. */
  function DerivedNames(kind: Kind, minor: nat): (names: set<string>)
    ensures kind.StrKind? ==> names == {}
    ensures kind.TypeKind? ==> names != {} && names <= {kind.t.name, kind.t.text}
    ensures kind.TypeKind? && minor != 8 && minor != 9 ==> names == {kind.t.name, kind.t.text}
    ensures kind.TypeKind? && minor == 8 && kind.t.aliasClass != "_GenericAlias"
            ==> names == {kind.t.name}
    ensures kind.TypeKind? && minor == 9 && kind.t.aliasClass !in {"_GenericAlias", "_UnionGenericAlias"}
            ==> names == {kind.t.name}
    ensures kind.TypeKind? && (minor == 8 || minor == 9) && kind.t.aliasClass == "_GenericAlias"
            ==> names == {kind.t.text}
    ensures kind.TypeKind? && minor == 9 && kind.t.aliasClass == "_UnionGenericAlias"
            ==> names == {kind.t.text}
  {
    match kind
    case StrKind(_) => {}
    case TypeKind(t) =>
      if minor == 8 then
        (if t.aliasClass == "_GenericAlias" then {t.text} else {t.name})
      else if minor == 9 then
        (if t.aliasClass == "_UnionGenericAlias" || t.aliasClass == "_GenericAlias"
         then {t.text} else {t.name})
      else
        {t.text, t.name}
  }

  /** The textual keys derived from `kind`. */
  function NameKeys(kind: Kind, minor: nat): set<Key>
  {
    set n | n in DerivedNames(kind, minor) :: KindKey(StrKind(n))
  }

  /** The keys `set_json` writes, in `encoders` and in `decoders` alike. */
  function JsonKeys(kind: Kind, minor: nat): set<Key>
  {
    {KindKey(kind), OptionalKey(kind)} + NameKeys(kind, minor)
  }

  /** The entries `set_json(kind, ...)` writes into one table when the
      codec it registers there is `f`. */
  function JsonEntries(kind: Kind, f: Fn, minor: nat): (m: map<Key, Fn>)
    ensures m.Keys == JsonKeys(kind, minor)
    ensures m[KindKey(kind)] == f
    ensures m[OptionalKey(kind)] == OptionalWrap(f)
    ensures forall k :: k in m && k != OptionalKey(kind) ==> m[k] == f
  {
    (map k | k in NameKeys(kind, minor) :: f)[KindKey(kind) := f][OptionalKey(kind) := OptionalWrap(f)]
  }

  /** The entries `set_mm(kind, f)` writes into the marshmallow-field table. */
  function MmEntries(kind: Kind, f: Fn, minor: nat): (m: map<Key, Fn>)
    ensures m.Keys == {KindKey(kind)} + NameKeys(kind, minor)
    ensures forall k :: k in m ==> m[k] == f
  {
    (map k | k in NameKeys(kind, minor) :: f)[KindKey(kind) := f]
  }

  /** A string kind is written under itself and `Optional[kind]`, nothing else. */
  lemma StringKindWritesTwoKeys(s: string, minor: nat)
    ensures JsonKeys(StrKind(s), minor) == {KindKey(StrKind(s)), OptionalKey(StrKind(s))}
    ensures |JsonKeys(StrKind(s), minor)| == 2
  {
  }

  /** A type kind is written under itself, `Optional[kind]` and one textual
      key on 3.8 and 3.9, or two textual keys (name and `str` form) on every
      other version when the two differ. */
  lemma TypeKindKeys(t: PyType, minor: nat)
    ensures OptionalKey(TypeKind(t)) !in NameKeys(TypeKind(t), minor)
    ensures KindKey(TypeKind(t)) !in NameKeys(TypeKind(t), minor)
    ensures |JsonKeys(TypeKind(t), minor)| == 2 + |DerivedNames(TypeKind(t), minor)|
    ensures (minor == 8 || minor == 9) ==> |JsonKeys(TypeKind(t), minor)| == 3
    ensures minor != 8 && minor != 9 && t.name != t.text ==> |JsonKeys(TypeKind(t), minor)| == 4
  {
    var kind := TypeKind(t);
    var names := DerivedNames(kind, minor);
    NameKeysCount(kind, minor);
    assert {KindKey(kind), OptionalKey(kind)} !! NameKeys(kind, minor);
    assert |{KindKey(kind), OptionalKey(kind)}| == 2;
  }

  /** Textual keys are in one-to-one correspondence with derived names. */
  lemma NameKeysCount(kind: Kind, minor: nat)
    ensures |NameKeys(kind, minor)| == |DerivedNames(kind, minor)|
  {
    var names := DerivedNames(kind, minor);
    if kind.StrKind? {
      assert NameKeys(kind, minor) == {};
    } else if minor == 8 || minor == 9 {
      var n :| n in names;
      assert names == {n};
      assert NameKeys(kind, minor) == {KindKey(StrKind(n))};
    } else {
      var t := kind.t;
      assert NameKeys(kind, minor) == {KindKey(StrKind(t.text)), KindKey(StrKind(t.name))};
      if t.text == t.name {
        assert names == {t.name};
      } else {
        assert KindKey(StrKind(t.text)) != KindKey(StrKind(t.name));
      }
    }
  }

  /** `set_mm` derives its keys exactly as `set_json` does, without the
      `Optional[kind]` entry. */
  lemma MmEntriesAreJsonEntriesWithoutOptional(kind: Kind, f: Fn, minor: nat)
    ensures MmEntries(kind, f, minor) == JsonEntries(kind, f, minor) - {OptionalKey(kind)}
  {
  }

  /** Registering the same kind twice leaves the table as if only the second
      registration had happened: every entry it writes is replaced. */
  lemma SetJsonLastWriteWins(table: map<Key, Fn>, kind: Kind, f1: Fn, f2: Fn, minor: nat)
    ensures table + JsonEntries(kind, f1, minor) + JsonEntries(kind, f2, minor)
            == table + JsonEntries(kind, f2, minor)
  {
  }

  /** What the encoder's `default` hook hands back to the JSON encoder. */
  datatype Encoded =
    | DictOf(items: seq<(PyObject, PyObject)>)  // dict(o)
    | ListOf(elements: seq<PyObject>)           // list(o)
    | EnumValue(value: PyObject)                // o.value
    | Encoded(encoder: Fn, arg: PyObject)       // the registered encoder applied to o

  /** The base encoder's refusal: the value's type is not JSON serializable. */
  datatype EncodeError = NotSerializable(typeName: string)

  /** `EncoderForMarshmallow.default(o)` against the registry's `encoders`
      table as it is at the time of the call. */
  function EncoderDefault(encoders: map<Key, Fn>, o: PyObject): (r: Result<Encoded, EncodeError>)
    ensures r.Failure? <==>
              o.asCollection.None? && o.enumValue.None? && KindKey(TypeKind(o.cls)) !in encoders
    ensures r.Failure? ==> r.error.typeName == o.cls.name
    ensures r.Success? && r.value.Encoded? ==>
              && o.asCollection.None? && o.enumValue.None?
              && r.value.arg == o
              && KindKey(TypeKind(o.cls)) in encoders
              && r.value.encoder == encoders[KindKey(TypeKind(o.cls))]
  {
    if o.asCollection.Some? then
      if o.asMapping.Some? then Success(DictOf(o.asMapping.value))
      else Success(ListOf(o.asCollection.value))
    else if o.enumValue.Some? then
      Success(EnumValue(o.enumValue.value))
    else if KindKey(TypeKind(o.cls)) in encoders then
      Success(Encoded(encoders[KindKey(TypeKind(o.cls))], o))
    else
      Failure(NotSerializable(o.cls.name))
  }

  /** Collections and enumeration members are converted before the table is
      consulted: no registration can change what they become. */
  lemma DefaultStructuralChecksFirst(e1: map<Key, Fn>, e2: map<Key, Fn>, o: PyObject)
    requires o.asCollection.Some? || o.enumValue.Some?
    ensures EncoderDefault(e1, o) == EncoderDefault(e2, o)
    ensures WellFormed(o) && o.asMapping.Some? ==> EncoderDefault(e1, o) == Success(DictOf(o.asMapping.value))
    ensures o.asCollection.Some? && o.asMapping.None? ==> EncoderDefault(e1, o) == Success(ListOf(o.asCollection.value))
    ensures o.asCollection.None? ==> EncoderDefault(e1, o) == Success(EnumValue(o.enumValue.value))
  {
  }

  /** The table is looked up by the value's exact type only: two tables that
      agree on that one key give the same result, whatever they hold under
      the type's name, its `Optional` form or its base classes. */
  lemma DefaultLooksUpExactType(e1: map<Key, Fn>, e2: map<Key, Fn>, o: PyObject)
    requires KindKey(TypeKind(o.cls)) in e1 <==> KindKey(TypeKind(o.cls)) in e2
    requires KindKey(TypeKind(o.cls)) in e1 ==> e1[KindKey(TypeKind(o.cls))] == e2[KindKey(TypeKind(o.cls))]
    ensures EncoderDefault(e1, o) == EncoderDefault(e2, o)
  {
  }

  /** After `set_json(type(o), enc, ...)`, a value that is neither a
      collection nor an enumeration member is encoded with `enc`. */
  lemma DefaultUsesLatestRegistration(encoders: map<Key, Fn>, o: PyObject, enc: Fn, minor: nat)
    requires o.asCollection.None? && o.enumValue.None?
    ensures EncoderDefault(encoders + JsonEntries(TypeKind(o.cls), enc, minor), o) == Success(Encoded(enc, o))
  {
  }

  /** A registration under a string never changes what `default` does. */
  lemma StringRegistrationInvisibleToDefault(encoders: map<Key, Fn>, s: string, f: Fn, minor: nat, o: PyObject)
    ensures EncoderDefault(encoders + JsonEntries(StrKind(s), f, minor), o) == EncoderDefault(encoders, o)
  {
  }

  /** What a table holds after `JsonEntries(kind, f, minor)` is added to it:
      the registered codec under every written key, every other key as before. */
  lemma AfterRegistration(table: map<Key, Fn>, kind: Kind, f: Fn, minor: nat)
    ensures var t := table + JsonEntries(kind, f, minor);
            && t[KindKey(kind)] == f && t[OptionalKey(kind)] == OptionalWrap(f)
            && (forall n :: n in DerivedNames(kind, minor) ==>
                  KindKey(StrKind(n)) in t && t[KindKey(StrKind(n))] == f)
            && (forall k :: k !in JsonKeys(kind, minor) ==>
                  (k in t <==> k in table) && (k in t ==> t[k] == table[k]))
  {
  }

  /** The writes `set_json` performs, taken one after the other in the
      order `set_json` makes them, add up to `JsonEntries`; `text` is the string the
      version test selects (unused for a string kind). */
  lemma WritesAreUnion(table: map<Key, Fn>, kind: Kind, f: Fn, minor: nat, text: string)
    requires kind.TypeKind? && (minor == 8 || minor == 9) ==> DerivedNames(kind, minor) == {text}
    requires kind.TypeKind? && minor != 8 && minor != 9 ==> text == kind.t.text
    ensures kind.StrKind? ==>
              table[KindKey(kind) := f][OptionalKey(kind) := OptionalWrap(f)]
              == table + JsonEntries(kind, f, minor)
    ensures kind.TypeKind? && (minor == 8 || minor == 9) ==>
              table[KindKey(kind) := f][OptionalKey(kind) := OptionalWrap(f)][KindKey(StrKind(text)) := f]
              == table + JsonEntries(kind, f, minor)
    ensures kind.TypeKind? && minor != 8 && minor != 9 ==>
              table[KindKey(kind) := f][OptionalKey(kind) := OptionalWrap(f)]
                [KindKey(StrKind(kind.t.name)) := f][KindKey(StrKind(text)) := f]
              == table + JsonEntries(kind, f, minor)
  {
    var e := JsonEntries(kind, f, minor);
    if kind.StrKind? {
      assert NameKeys(kind, minor) == {};
      assert e == map[KindKey(kind) := f, OptionalKey(kind) := OptionalWrap(f)];
    } else if minor == 8 || minor == 9 {
      assert NameKeys(kind, minor) == {KindKey(StrKind(text))};
      assert e == map[KindKey(kind) := f, OptionalKey(kind) := OptionalWrap(f), KindKey(StrKind(text)) := f];
    } else {
      assert NameKeys(kind, minor) == {KindKey(StrKind(kind.t.name)), KindKey(StrKind(text))};
      assert e == map[KindKey(kind) := f, OptionalKey(kind) := OptionalWrap(f),
                      KindKey(StrKind(kind.t.name)) := f, KindKey(StrKind(text)) := f];
    }
  }

  /** The writes `set_mm` performs, taken one after the other in the order
      `set_mm` makes them, add up to `MmEntries`; `text` is as for
      `WritesAreUnion`. */
  lemma MmWritesAreUnion(table: map<Key, Fn>, kind: Kind, f: Fn, minor: nat, text: string)
    requires kind.TypeKind? && (minor == 8 || minor == 9) ==> DerivedNames(kind, minor) == {text}
    requires kind.TypeKind? && minor != 8 && minor != 9 ==> text == kind.t.text
    ensures kind.StrKind? ==> table[KindKey(kind) := f] == table + MmEntries(kind, f, minor)
    ensures kind.TypeKind? && (minor == 8 || minor == 9) ==>
              table[KindKey(kind) := f][KindKey(StrKind(text)) := f] == table + MmEntries(kind, f, minor)
    ensures kind.TypeKind? && minor != 8 && minor != 9 ==>
              table[KindKey(kind) := f][KindKey(StrKind(kind.t.name)) := f][KindKey(StrKind(text)) := f]
              == table + MmEntries(kind, f, minor)
  {
    var e := MmEntries(kind, f, minor);
    if kind.StrKind? {
      assert NameKeys(kind, minor) == {};
      assert e == map[KindKey(kind) := f];
    } else if minor == 8 || minor == 9 {
      assert NameKeys(kind, minor) == {KindKey(StrKind(text))};
      assert e == map[KindKey(kind) := f, KindKey(StrKind(text)) := f];
    } else {
      assert NameKeys(kind, minor) == {KindKey(StrKind(kind.t.name)), KindKey(StrKind(text))};
      assert e == map[KindKey(kind) := f, KindKey(StrKind(kind.t.name)) := f, KindKey(StrKind(text)) := f];
    }
  }

  /** The registry. Its tables are dictionaries that the two registration
      methods update in place. */
  class Codecs {
    var encoders: map<Key, Fn>
    var decoders: map<Key, Fn>
    var mmFields: map<Key, Fn>

    /** Each table starts as a copy of the dictionary supplied, or empty when
        none (or an empty one) is supplied; the tables are values, so later
        registrations never reach the caller's dictionaries. */
    constructor (encoders: Option<map<Key, Fn>>, decoders: Option<map<Key, Fn>>,
                 mmFields: Option<map<Key, Fn>>)
      ensures this.encoders == (if encoders.Some? then encoders.value else map[])
      ensures this.decoders == (if decoders.Some? then decoders.value else map[])
      ensures this.mmFields == (if mmFields.Some? then mmFields.value else map[])
    {
      this.encoders := if encoders.Some? then encoders.value else map[];
      this.decoders := if decoders.Some? then decoders.value else map[];
      this.mmFields := if mmFields.Some? then mmFields.value else map[];
    }

    /** `set_json(kind, enc, dec)` on an interpreter of minor version `minor`. */
    method SetJson(kind: Kind, enc: Fn, dec: Fn, minor: nat)
      modifies this`encoders, this`decoders
      ensures encoders == old(encoders) + JsonEntries(kind, enc, minor)
      ensures decoders == old(decoders) + JsonEntries(kind, dec, minor)
      ensures mmFields == old(mmFields)
    {
      ghost var e0, d0 := encoders, decoders;
      encoders := encoders[KindKey(kind) := enc];
      decoders := decoders[KindKey(kind) := dec];
      encoders := encoders[OptionalKey(kind) := OptionalWrap(enc)];
      decoders := decoders[OptionalKey(kind) := OptionalWrap(dec)];

      if kind.StrKind? {
        WritesAreUnion(e0, kind, enc, minor, "");
        WritesAreUnion(d0, kind, dec, minor, "");
        return;
      }

      var t := kind.t;
      var text: string;
      if minor == 8 {
        if t.aliasClass == "_GenericAlias" {
          text := t.text;
        } else {
          text := t.name;
        }
      } else if minor == 9 {
        if t.aliasClass == "_UnionGenericAlias" || t.aliasClass == "_GenericAlias" {
          text := t.text;
        } else {
          text := t.name;
        }
      } else {
        text := t.text;
        encoders := encoders[KindKey(StrKind(t.name)) := enc];
        decoders := decoders[KindKey(StrKind(t.name)) := dec];
      }

      encoders := encoders[KindKey(StrKind(text)) := enc];
      decoders := decoders[KindKey(StrKind(text)) := dec];
      WritesAreUnion(e0, kind, enc, minor, text);
      WritesAreUnion(d0, kind, dec, minor, text);
    }

    /** `set_mm(kind, mm_field)` on an interpreter of minor version `minor`. */
    method SetMm(kind: Kind, mmField: Fn, minor: nat)
      modifies this`mmFields
      ensures mmFields == old(mmFields) + MmEntries(kind, mmField, minor)
      ensures mmFields[KindKey(kind)] == mmField
      ensures OptionalKey(kind) in mmFields <==> OptionalKey(kind) in old(mmFields)
      ensures forall n :: n in DerivedNames(kind, minor) ==>
                KindKey(StrKind(n)) in mmFields && mmFields[KindKey(StrKind(n))] == mmField
      ensures encoders == old(encoders) && decoders == old(decoders)
    {
      ghost var m0 := mmFields;
      mmFields := mmFields[KindKey(kind) := mmField];

      if kind.StrKind? {
        MmWritesAreUnion(m0, kind, mmField, minor, "");
        return;
      }

      var t := kind.t;
      var text: string;
      if minor == 8 {
        if t.aliasClass == "_GenericAlias" {
          text := t.text;
        } else {
          text := t.name;
        }
      } else if minor == 9 {
        if t.aliasClass == "_UnionGenericAlias" || t.aliasClass == "_GenericAlias" {
          text := t.text;
        } else {
          text := t.name;
        }
      } else {
        text := t.text;
        mmFields := mmFields[KindKey(StrKind(t.name)) := mmField];
      }

      mmFields := mmFields[KindKey(StrKind(text)) := mmField];
      MmWritesAreUnion(m0, kind, mmField, minor, text);
    }
  }

  /** The built-in codecs: `uuid.UUID`, `datetime.datetime` and `decimal.Decimal`. */
  const UuidType := PyType("UUID", "<class 'uuid.UUID'>", "type")
  const DatetimeType := PyType("datetime", "<class 'datetime.datetime'>", "type")
  const DecimalType := PyType("Decimal", "<class 'decimal.Decimal'>", "type")

  const UuidToStr := Callable("uuid-to-str")
  const StrToUuid := Callable("str-to-uuid")
  const DatetimeToTimestamp := Callable("datetime-to-timestamp")
  const TimestampToDatetime := Callable("timestamp-to-datetime")
  const DecimalToStr := Callable("decimal-to-str")
  const StrToDecimal := Callable("str-to-decimal")

  /** The keys the seeded registry holds in `encoders` and in `decoders`. */
  function SeededKeys(minor: nat): set<Key>
  {
    JsonKeys(TypeKind(UuidType), minor) + JsonKeys(TypeKind(DatetimeType), minor)
      + JsonKeys(TypeKind(DecimalType), minor)
  }

  /** The module-level `DefaultJsonCodecs`: an empty registry with the three
      built-in codecs registered in turn. */
  method NewDefaultJsonCodecs(minor: nat) returns (c: Codecs)
    ensures fresh(c)
    ensures c.encoders == JsonEntries(TypeKind(UuidType), UuidToStr, minor)
                          + JsonEntries(TypeKind(DatetimeType), DatetimeToTimestamp, minor)
                          + JsonEntries(TypeKind(DecimalType), DecimalToStr, minor)
    ensures c.decoders == JsonEntries(TypeKind(UuidType), StrToUuid, minor)
                          + JsonEntries(TypeKind(DatetimeType), TimestampToDatetime, minor)
                          + JsonEntries(TypeKind(DecimalType), StrToDecimal, minor)
    ensures c.mmFields == map[]
  {
    c := new Codecs(None, None, None);
    c.SetJson(TypeKind(UuidType), UuidToStr, StrToUuid, minor);
    assert c.encoders == JsonEntries(TypeKind(UuidType), UuidToStr, minor);
    assert c.decoders == JsonEntries(TypeKind(UuidType), StrToUuid, minor);
    c.SetJson(TypeKind(DatetimeType), DatetimeToTimestamp, TimestampToDatetime, minor);
    c.SetJson(TypeKind(DecimalType), DecimalToStr, StrToDecimal, minor);
  }

  /** The seeded registry holds nine keys per table on 3.8 and 3.9 (type,
      `Optional[type]` and name for each built-in) and twelve on every other
      version (the `str` form as well). */
  lemma SeededKeyCount(minor: nat)
    ensures |SeededKeys(minor)| == if minor == 8 || minor == 9 then 9 else 12
  {
    var u, d, m := TypeKind(UuidType), TypeKind(DatetimeType), TypeKind(DecimalType);
    TypeKindKeys(UuidType, minor);
    TypeKindKeys(DatetimeType, minor);
    TypeKindKeys(DecimalType, minor);
    var ku, kd, km := JsonKeys(u, minor), JsonKeys(d, minor), JsonKeys(m, minor);
    SeededKindsDisjoint(minor);
    assert ku * kd == {} && (ku + kd) * km == {};
    assert |ku + kd| == |ku| + |kd|;
    assert |ku + kd + km| == |ku + kd| + |km|;
  }

  /** No key is written by two of the three built-in registrations. */
  lemma SeededKindsDisjoint(minor: nat)
    ensures JsonKeys(TypeKind(UuidType), minor) !! JsonKeys(TypeKind(DatetimeType), minor)
    ensures JsonKeys(TypeKind(UuidType), minor) !! JsonKeys(TypeKind(DecimalType), minor)
    ensures JsonKeys(TypeKind(DatetimeType), minor) !! JsonKeys(TypeKind(DecimalType), minor)
  {
  }

  /** The seeded registry encodes a plain `UUID`, `datetime` or `Decimal`
      value with that type's own built-in encoder. */
  lemma SeededEncoders(minor: nat, o: PyObject)
    requires o.asCollection.None? && o.enumValue.None?
    ensures var seeded := JsonEntries(TypeKind(UuidType), UuidToStr, minor)
                          + JsonEntries(TypeKind(DatetimeType), DatetimeToTimestamp, minor)
                          + JsonEntries(TypeKind(DecimalType), DecimalToStr, minor);
            && (o.cls == UuidType ==> EncoderDefault(seeded, o) == Success(Encoded(UuidToStr, o)))
            && (o.cls == DatetimeType ==> EncoderDefault(seeded, o) == Success(Encoded(DatetimeToTimestamp, o)))
            && (o.cls == DecimalType ==> EncoderDefault(seeded, o) == Success(Encoded(DecimalToStr, o)))
  {
    var u, d, m := TypeKind(UuidType), TypeKind(DatetimeType), TypeKind(DecimalType);
    AfterRegistration(JsonEntries(u, UuidToStr, minor), d, DatetimeToTimestamp, minor);
    AfterRegistration(JsonEntries(u, UuidToStr, minor) + JsonEntries(d, DatetimeToTimestamp, minor),
                      m, DecimalToStr, minor);
    assert KindKey(u) !in JsonKeys(d, minor) && KindKey(u) !in JsonKeys(m, minor);
    assert KindKey(d) !in JsonKeys(m, minor);
  }
}
