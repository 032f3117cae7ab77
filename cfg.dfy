/** The field configuration builder `config`: it merges per-field settings
    into a metadata dictionary under the key `dataclasses_json`, composing a
    field rename with a letter-case rule and normalising the name of an
    undefined-parameter action. Also the two constant exclusion predicates. */
module Cfg {
  import opened Wrappers
  import opened PyRuntime

  /** `Exclude.ALWAYS`: the field is left out whatever its value. */
  function ExcludeAlways<T>(value: T): (excluded: bool)
    ensures excluded
  {
    true
  }

  /** `Exclude.NEVER`: the field is kept whatever its value. */
  function ExcludeNever<T>(value: T): (excluded: bool)
    ensures !excluded
  {
    false
  }

  /** A letter-case rule: a function from a field's name to its JSON key. */
  type CaseRule = string -> string

  /** The rule `config` stores: with a `field_name` the rule ignores its
      argument and yields that name, passed through `letter_case` when one is
      given; without a `field_name` it is `letter_case` itself. */
  function LetterCaseOverride(letterCase: Option<CaseRule>, fieldName: Option<string>): (rule: Option<CaseRule>)
    ensures rule.Some? <==> letterCase.Some? || fieldName.Some?
    ensures fieldName.None? ==> rule == letterCase
    ensures fieldName.Some? && letterCase.None? ==>
              forall name :: rule.value(name) == fieldName.value
    ensures fieldName.Some? && letterCase.Some? ==>
              forall name :: rule.value(name) == letterCase.value(fieldName.value)
  {
    match fieldName
    case None => letterCase
    case Some(renamed) =>
      match letterCase
      case Some(lc) => Some((_: string) => lc(renamed))
      case None => Some((_: string) => renamed)
  }

  /** `c.upper()` for one character; only ASCII letters change. */
  function UpperChar(c: char): (u: char)
    ensures 'a' <= c <= 'z' ==> 'A' <= u <= 'Z' && u as int == c as int - 32
    ensures !('a' <= c <= 'z') ==> u == c
  {
    if 'a' <= c <= 'z' then (c as int - 32) as char else c
  }

  /** `c.lower()` for one character; only ASCII letters change. */
  function LowerChar(c: char): (l: char)
    ensures 'A' <= c <= 'Z' ==> 'a' <= l <= 'z' && l as int == c as int + 32
    ensures !('A' <= c <= 'Z') ==> l == c
  {
    if 'A' <= c <= 'Z' then (c as int + 32) as char else c
  }

  /** `s.upper()`. */
  function Upper(s: string): (u: string)
    ensures |u| == |s|
    ensures forall i :: 0 <= i < |s| ==> u[i] == UpperChar(s[i])
  {
    if s == [] then [] else [UpperChar(s[0])] + Upper(s[1..])
  }

  /** `s.lower()`. */
  function Lower(s: string): (l: string)
    ensures |l| == |s|
    ensures forall i :: 0 <= i < |s| ==> l[i] == LowerChar(s[i])
  {
    if s == [] then [] else [LowerChar(s[0])] + Lower(s[1..])
  }

  /** Upper-casing ignores how a name was spelt: its lower-case spelling and
      its upper-case spelling upper-case alike, and upper-casing twice changes
      nothing. */
  lemma UpperIgnoresCase(s: string)
    ensures Upper(Lower(s)) == Upper(s)
    ensures Upper(Upper(s)) == Upper(s)
  {
  }

  /** A member of the `Undefined` enumeration, by its name. */
  datatype UndefinedAction = UndefinedAction(name: string)

  /** The `undefined` argument: an action's name in any case, or a member. */
  datatype UndefinedArg = ByName(name: string) | Member(action: UndefinedAction)

  /** `UndefinedParameterError`, whose message lists the valid action names. */
  datatype ConfigError = UndefinedParameterError(validActions: seq<string>)

  /** The member an `undefined` argument stands for, given the names of the
      members of `Undefined` in declaration order. */
  function ResolveUndefined(arg: UndefinedArg, actions: seq<string>): (r: Result<UndefinedAction, ConfigError>)
    ensures arg.Member? ==> r == Success(arg.action)
    ensures arg.ByName? ==> (r.Success? <==> Upper(arg.name) in actions)
    ensures arg.ByName? && r.Success? ==> r.value.name in actions && r.value.name == Upper(arg.name)
    ensures r.Failure? ==> r.error.validActions == actions
  {
    match arg
    case Member(action) => Success(action)
    case ByName(name) =>
      if Upper(name) in actions then Success(UndefinedAction(Upper(name)))
      else Failure(UndefinedParameterError(actions))
  }

  /** Any spelling of an upper-case member name resolves to that member. */
  lemma ResolveAnyCase(name: string, actions: seq<string>)
    requires name in actions && Upper(name) == name
    ensures ResolveUndefined(ByName(name), actions) == Success(UndefinedAction(name))
    ensures ResolveUndefined(ByName(Lower(name)), actions) == Success(UndefinedAction(name))
  {
    UpperIgnoresCase(name);
  }

  /** A value stored in a field's settings dictionary. `Foreign` is whatever
      another writer put there. */
  datatype Setting =
    | EncoderSetting(encoder: Fn)
    | DecoderSetting(decoder: Fn)
    | MmFieldSetting(field: Fn)
    | LetterCaseSetting(rule: CaseRule)
    | UndefinedSetting(action: UndefinedAction)
    | ExcludeSetting(exclude: PyObject -> bool)
    | Foreign(value: Fn)

  /** The key under which the library keeps its own settings. */
  const LibKey := "dataclasses_json"

  /** The keys `config` may write in the library's settings dictionary. */
  const ConfigKeys := {"encoder", "decoder", "mm_field", "letter_case", "undefined", "exclude"}

  /** A dictionary of settings, updated in place. */
  class SettingsDict {
    var items: map<string, Setting>

    constructor ()
      ensures items == map[]
    {
      items := map[];
    }
  }

  /** A field's metadata: a dictionary of dictionaries, updated in place. */
  class Metadata {
    var entries: map<string, SettingsDict>

    constructor ()
      ensures entries == map[]
    {
      entries := map[];
    }
  }

  /** `m` holds `v` at `key` when `v` is given, and otherwise agrees with `m0`
      there (both lack the key, or both hold the same setting). */
  ghost predicate StoredIfGiven(m: map<string, Setting>, m0: map<string, Setting>, key: string, v: Option<Setting>)
  {
    if v.Some? then key in m && m[key] == v.value
    else (key in m <==> key in m0) && (key in m ==> m[key] == m0[key])
  }

  /** `m` with `v` stored under `key` when `v` is given. */
  function Put(m: map<string, Setting>, key: string, v: Option<Setting>): map<string, Setting>
  {
    if v.Some? then m[key := v.value] else m
  }

  /** The settings dictionary after `config` has stored, in its order, each
      of the four settings it writes before it checks `undefined`. */
  function WrittenBeforeCheck(lib0: map<string, Setting>, encoder: Option<Setting>, decoder: Option<Setting>,
                              mmField: Option<Setting>, letterCase: Option<Setting>): map<string, Setting>
  {
    Put(Put(Put(Put(lib0, "encoder", encoder), "decoder", decoder), "mm_field", mmField), "letter_case", letterCase)
  }

  /** The settings dictionary after `config` has stored, in its order, each
      setting that is given. */
  function Written(lib0: map<string, Setting>, encoder: Option<Setting>, decoder: Option<Setting>,
                   mmField: Option<Setting>, letterCase: Option<Setting>, undefined: Option<Setting>,
                   exclude: Option<Setting>): map<string, Setting>
  {
    Put(Put(WrittenBeforeCheck(lib0, encoder, decoder, mmField, letterCase), "undefined", undefined), "exclude", exclude)
  }

  /** Each setting that is given ends up under its own key, each one that is
      not leaves what was there, and every key outside the six `config` keys
      is untouched. */
  lemma WrittenStoresGivenSettings(lib0: map<string, Setting>, encoder: Option<Setting>, decoder: Option<Setting>,
                                   mmField: Option<Setting>, letterCase: Option<Setting>,
                                   undefined: Option<Setting>, exclude: Option<Setting>)
    ensures var m := Written(lib0, encoder, decoder, mmField, letterCase, undefined, exclude);
            && StoredIfGiven(m, lib0, "encoder", encoder)
            && StoredIfGiven(m, lib0, "decoder", decoder)
            && StoredIfGiven(m, lib0, "mm_field", mmField)
            && StoredIfGiven(m, lib0, "letter_case", letterCase)
            && StoredIfGiven(m, lib0, "undefined", undefined)
            && StoredIfGiven(m, lib0, "exclude", exclude)
            && forall k :: k !in ConfigKeys ==> StoredIfGiven(m, lib0, k, None)
  {
  }

  /** `config(metadata, encoder=..., ...)`. `actions` names the members of
      `Undefined`. On success the result is the updated (or fresh) metadata;
      on `UndefinedParameterError` the writes made before the check remain in
      the caller's dictionaries. `lib` is the settings dictionary written to. */
  method Config(metadata: Metadata?, encoder: Option<Fn>, decoder: Option<Fn>, mmField: Option<Fn>,
                letterCase: Option<CaseRule>, undefined: Option<UndefinedArg>, fieldName: Option<string>,
                exclude: Option<PyObject -> bool>, actions: seq<string>)
    returns (r: Result<Metadata, ConfigError>, ghost lib: SettingsDict)
    modifies metadata, if metadata != null && LibKey in metadata.entries then {metadata.entries[LibKey]} else {}
    ensures r.Success? <==> undefined.None? || ResolveUndefined(undefined.value, actions).Success?
    ensures r.Failure? ==> r.error == ResolveUndefined(undefined.value, actions).error
    ensures r.Success? && metadata != null ==> r.value == metadata
    ensures r.Success? && metadata == null ==>
              fresh(r.value) && r.value.entries == map[LibKey := lib] && fresh(lib)
    ensures metadata != null ==>
              && LibKey in metadata.entries && metadata.entries[LibKey] == lib
              && (old(LibKey in metadata.entries) ==> lib == old(metadata.entries[LibKey]))
              && (old(LibKey !in metadata.entries) ==> fresh(lib))
              && forall k :: k != LibKey ==>
                   (k in metadata.entries <==> k in old(metadata.entries))
                   && (k in metadata.entries ==> metadata.entries[k] == old(metadata.entries[k]))
    ensures var lib0 := old(if metadata != null && LibKey in metadata.entries
                            then metadata.entries[LibKey].items else map[]);
            var rule := LetterCaseOverride(letterCase, fieldName);
            lib.items == Written(lib0,
              if encoder.Some? then Some(EncoderSetting(encoder.value)) else None,
              if decoder.Some? then Some(DecoderSetting(decoder.value)) else None,
              if mmField.Some? then Some(MmFieldSetting(mmField.value)) else None,
              if rule.Some? then Some(LetterCaseSetting(rule.value)) else None,
              if undefined.Some? && r.Success?
              then Some(UndefinedSetting(ResolveUndefined(undefined.value, actions).value)) else None,
              if exclude.Some? && r.Success? then Some(ExcludeSetting(exclude.value)) else None)
  {
    var m: Metadata;
    if metadata == null {
      m := new Metadata();
    } else {
      m := metadata;
    }
    var libMetadata := SetDefault(m);
    lib := libMetadata;

    var rule := LetterCaseOverride(letterCase, fieldName);
    WriteFieldSettings(libMetadata,
      if encoder.Some? then Some(EncoderSetting(encoder.value)) else None,
      if decoder.Some? then Some(DecoderSetting(decoder.value)) else None,
      if mmField.Some? then Some(MmFieldSetting(mmField.value)) else None,
      if rule.Some? then Some(LetterCaseSetting(rule.value)) else None);

    if undefined.Some? {
      var action := ResolveUndefined(undefined.value, actions);
      if action.Failure? {
        return Failure(action.error), lib;
      }
      PutIfGiven(libMetadata, "undefined", Some(UndefinedSetting(action.value)));
    }
    PutIfGiven(libMetadata, "exclude", if exclude.Some? then Some(ExcludeSetting(exclude.value)) else None);
    r := Success(m);
  }

  /** `metadata.setdefault('dataclasses_json', {})`: the settings dictionary
      already there, or a fresh empty one installed under the key. */
  method SetDefault(m: Metadata) returns (lib: SettingsDict)
    modifies m
    ensures LibKey in m.entries && m.entries[LibKey] == lib
    ensures old(LibKey in m.entries) ==> lib == old(m.entries[LibKey])
    ensures old(LibKey !in m.entries) ==> fresh(lib) && lib.items == map[]
    ensures forall k :: k != LibKey ==>
              (k in m.entries <==> k in old(m.entries))
              && (k in m.entries ==> m.entries[k] == old(m.entries[k]))
  {
    if LibKey !in m.entries {
      var created := new SettingsDict();
      m.entries := m.entries[LibKey := created];
    }
    lib := m.entries[LibKey];
  }

  /** The four conditional writes `config` makes before it checks `undefined`. */
  method WriteFieldSettings(lib: SettingsDict, encoder: Option<Setting>, decoder: Option<Setting>,
                            mmField: Option<Setting>, letterCase: Option<Setting>)
    modifies lib
    ensures lib.items == WrittenBeforeCheck(old(lib.items), encoder, decoder, mmField, letterCase)
  {
    PutIfGiven(lib, "encoder", encoder);
    PutIfGiven(lib, "decoder", decoder);
    PutIfGiven(lib, "mm_field", mmField);
    PutIfGiven(lib, "letter_case", letterCase);
  }

  /** `if value is not None: lib_metadata[key] = value`. */
  method PutIfGiven(lib: SettingsDict, key: string, v: Option<Setting>)
    modifies lib
    ensures lib.items == Put(old(lib.items), key, v)
  {
    if v.Some? {
      lib.items := lib.items[key := v.value];
    }
  }
}
