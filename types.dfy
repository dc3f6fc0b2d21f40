/** The data model of src/types/index.ts: platform keys, field configurations,
    platform configurations, form data and validation errors, together with the
    JavaScript truthiness that every rule of the engine tests values with. */
module Types {

  datatype Option<T> = None | Some(value: T)

  /** `PlatformKey`: exactly the eight platform literals. */
  datatype PlatformKey = Facebook | Instagram | Twitter | Threads | Bluesky | Reddit | Tiktok | Discord

  /** The string literal of a platform key, as it appears in object keys and messages. */
  function KeyString(p: PlatformKey): (s: string)
    ensures s != [] && 'a' <= s[0] <= 'z'
  {
    match p
    case Facebook => "facebook"
    case Instagram => "instagram"
    case Twitter => "twitter"
    case Threads => "threads"
    case Bluesky => "bluesky"
    case Reddit => "reddit"
    case Tiktok => "tiktok"
    case Discord => "discord"
  }

  /** The key under which selection-level errors are reported. */
  const GeneralKey: string := "general"

  /** Distinct platforms have distinct key strings, and none of them is `general`,
      so a validation-error map never confuses two platforms or a platform with
      the selection-level error. */
  lemma KeyStringInjective(p: PlatformKey, q: PlatformKey)
    ensures KeyString(p) == KeyString(q) <==> p == q
    ensures KeyString(p) != GeneralKey
  {
  }

  /** The values of the optional `type` property of a field configuration. */
  datatype FieldType = BooleanType | TextType | FileType

  /** `PlatformFieldConfig`: every property is optional. */
  datatype FieldConfig = FieldConfig(
    required: Option<bool>,
    maxLength: Option<nat>,
    placeholder: Option<string>,
    accept: Option<string>,
    multiple: Option<bool>,
    maxFiles: Option<nat>,
    fieldType: Option<FieldType>,
    labelText: Option<string>)

  /** The field configuration `{}`, from which the registries build their entries. */
  const Unset: FieldConfig := FieldConfig(None, None, None, None, None, None, None, None)

  /** `PlatformConfig`, less its display-only strings (see `Appearance`); `fields`
      keeps the declaration order of the object literal. */
  datatype PlatformConfig = PlatformConfig(
    name: string,
    fields: seq<(string, FieldConfig)>)

  /** The display-only strings of a `PlatformConfig`: its `icon`, `color` and
      `notes`. No rule of the engine reads them. */
  datatype Appearance = Appearance(icon: string, color: string, notes: string)

  /** A browser `File`, reduced to what the engine can observe of it. */
  datatype File = File(name: string)

  /** The values a `FormData` entry can hold; an absent key is not in the map. */
  datatype Value = Str(s: string) | Bool(b: bool) | Files(files: seq<File>) | Null

  type FormData = map<string, Value>

  /** `ValidationErrors`: a key (a platform key string or `general`) to its messages. */
  type ValidationErrors = map<string, seq<string>>

  /** `formData[name]`, where `None` stands for `undefined`. */
  function Lookup(data: FormData, name: string): (v: Option<Value>)
    ensures v.Some? <==> name in data
    ensures v.Some? ==> v.value == data[name]
  {
    if name in data then Some(data[name]) else None
  }

  /** JavaScript truthiness of a form value: `null`, `false` and `''` are falsy;
      a file list is an object and so truthy even when empty. */
  predicate Truthy(v: Value)
  {
    match v
    case Str(s) => s != []
    case Bool(b) => b
    case Files(_) => true
    case Null => false
  }

  /** Truthiness of a possibly absent value (`undefined` is falsy). */
  predicate TruthyOpt(v: Option<Value>)
  {
    v.Some? && Truthy(v.value)
  }

  /** Truthiness of `formData[name]`. */
  predicate TruthyAt(data: FormData, name: string)
  {
    TruthyOpt(Lookup(data, name))
  }

  /** Truthiness of an optional boolean property such as `required`. */
  predicate Flag(b: Option<bool>)
  {
    b == Some(true)
  }

  /** An optional number property used as a limit: `0` is falsy in JavaScript,
      so only a positive number counts as a limit. */
  function Limit(n: Option<nat>): (r: Option<nat>)
    ensures r.Some? <==> n.Some? && n.value > 0
    ensures r.Some? ==> r.value == n.value
  {
    if n.Some? && n.value > 0 then n else None
  }

  /** Truthiness of the optional `accept` string (a file input's MIME filter). */
  predicate HasAccept(cfg: FieldConfig)
  {
    cfg.accept.Some? && cfg.accept.value != []
  }

  /** `fieldConfig.type === 'boolean'`. */
  predicate IsBooleanField(cfg: FieldConfig)
  {
    cfg.fieldType == Some(BooleanType)
  }

  /** `fields[name]`: the configuration declared under `name`, if any. */
  function FieldOf(fields: seq<(string, FieldConfig)>, name: string): (r: Option<FieldConfig>)
    ensures r.Some? <==> exists i :: 0 <= i < |fields| && fields[i].0 == name
    ensures r.Some? ==> exists i :: 0 <= i < |fields| && fields[i] == (name, r.value)
    decreases |fields|
  {
    if fields == [] then None
    else if fields[0].0 == name then Some(fields[0].1)
    else
      var r := FieldOf(fields[1..], name);
      assert forall i :: 0 <= i < |fields| - 1 ==> fields[1..][i] == fields[i + 1];
      r
  }

  /** The field names of a platform's field list, in declaration order. */
  function FieldNames(fields: seq<(string, FieldConfig)>): (names: seq<string>)
    ensures |names| == |fields|
    ensures forall i :: 0 <= i < |fields| ==> names[i] == fields[i].0
  {
    seq(|fields|, i requires 0 <= i < |fields| => fields[i].0)
  }

  /** No two entries of a sequence are equal. */
  predicate NoDuplicates<T(==)>(s: seq<T>)
  {
    forall i, j :: 0 <= i < j < |s| ==> s[i] != s[j]
  }
}
