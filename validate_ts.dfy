/** `validatePost` of src/utils/platformConfig.ts: for every selected platform, walk
    its declared fields and apply three data-driven checks (required, maximum
    length, maximum file count). There are no cross-field or platform-specific rules. */
module ValidateTs {
  import opened Types
  import opened Strings
  import opened RegistryTs
  import Report

  /** "<Field> is required", the field name with its first letter upper-cased. */
  function RequiredMessage(name: string): string
  {
    Capitalize(name) + " is required"
  }

  /** "<Field> exceeds maximum length of <N> characters". */
  function LengthMessage(name: string, limit: nat): string
  {
    Capitalize(name) + " exceeds maximum length of " + NatToString(limit) + " characters"
  }

  /** "<Field> exceeds maximum of <N> files". */
  function FilesMessage(name: string, limit: nat): string
  {
    Capitalize(name) + " exceeds maximum of " + NatToString(limit) + " files"
  }

  /** `!value || (typeof value === 'string' && value.trim() === '')`. */
  predicate MissingOrBlank(v: Option<Value>)
  {
    !TruthyOpt(v) || (v.Some? && v.value.Str? && TrimsToEmpty(v.value.s))
  }

  /** A string value longer than a (truthy) `maxLength`; other kinds of value never are. */
  predicate TooLong(cfg: FieldConfig, v: Option<Value>)
  {
    Limit(cfg.maxLength).Some? && v.Some? && v.value.Str? && |v.value.s| > cfg.maxLength.value
  }

  /** A file list, in a field of type 'file', longer than a (truthy) `maxFiles`. */
  predicate TooManyFiles(cfg: FieldConfig, v: Option<Value>)
  {
    cfg.fieldType == Some(FileType) && v.Some? && v.value.Files?
    && Limit(cfg.maxFiles).Some? && |v.value.files| > cfg.maxFiles.value
  }

  /** The messages one field produces: required, then length, then file count. */
  function FieldErrors(name: string, cfg: FieldConfig, v: Option<Value>): seq<string>
  {
    (if Flag(cfg.required) && MissingOrBlank(v) then [RequiredMessage(name)] else [])
    + (if TooLong(cfg, v) then [LengthMessage(name, cfg.maxLength.value)] else [])
    + (if TooManyFiles(cfg, v) then [FilesMessage(name, cfg.maxFiles.value)] else [])
  }

  /** The messages of a list of field declarations, in declaration order. */
  function FieldsErrors(fields: seq<(string, FieldConfig)>, data: FormData): seq<string>
    decreases |fields|
  {
    if fields == [] then []
    else
      var last := fields[|fields| - 1];
      FieldsErrors(fields[..|fields| - 1], data) + FieldErrors(last.0, last.1, Lookup(data, last.0))
  }

  /** The messages of one declaration, read against the form data. */
  function FieldErrorsAt(data: FormData): ((string, FieldConfig)) -> seq<string>
  {
    (field: (string, FieldConfig)) => FieldErrors(field.0, field.1, Lookup(data, field.0))
  }

  /** `FieldsErrors` gathers each declaration's messages in turn. */
  lemma {:induction false} FieldsErrorsConcat(fields: seq<(string, FieldConfig)>, data: FormData)
    ensures FieldsErrors(fields, data) == Report.Concat(fields, FieldErrorsAt(data))
    decreases |fields|
  {
    if fields != [] {
      FieldsErrorsConcat(fields[..|fields| - 1], data);
    }
  }

  /** The messages of one platform; they depend on nothing but the form data. */
  function PlatformErrors(p: PlatformKey, data: FormData): seq<string>
  {
    FieldsErrors(Platform(p).fields, data)
  }

  function ErrorsOf(data: FormData): PlatformKey -> seq<string>
  {
    p => PlatformErrors(p, data)
  }

  /** What `validatePost(selectedPlatforms, formData)` returns. */
  function Validate(selected: seq<PlatformKey>, data: FormData): ValidationErrors
  {
    Report.Collect(selected, ErrorsOf(data))
  }

  /** The `Object.entries(platform.fields).forEach(...)` callback of `validatePost`,
      run over every declaration of one platform. */
  method CheckFields(fields: seq<(string, FieldConfig)>, formData: FormData) returns (platformErrors: seq<string>)
    ensures platformErrors == FieldsErrors(fields, formData)
  {
    platformErrors := [];
    for j := 0 to |fields|
      invariant platformErrors == FieldsErrors(fields[..j], formData)
    {
      var (fieldName, fieldConfig) := fields[j];
      var value := Lookup(formData, fieldName);
      if Flag(fieldConfig.required) {
        if MissingOrBlank(value) {
          platformErrors := platformErrors + [RequiredMessage(fieldName)];
        }
      }
      if TooLong(fieldConfig, value) {
        platformErrors := platformErrors + [LengthMessage(fieldName, fieldConfig.maxLength.value)];
      }
      if TooManyFiles(fieldConfig, value) {
        platformErrors := platformErrors + [FilesMessage(fieldName, fieldConfig.maxFiles.value)];
      }
      assert fields[..j + 1][..j] == fields[..j];
    }
    assert fields[..|fields|] == fields;
  }

  /** `validatePost`, loop for loop. */
  method ValidatePost(selectedPlatforms: seq<PlatformKey>, formData: FormData) returns (errors: ValidationErrors)
    ensures errors == Validate(selectedPlatforms, formData)
  {
    errors := map[];
    for i := 0 to |selectedPlatforms|
      invariant errors == Validate(selectedPlatforms[..i], formData)
    {
      var platformKey := selectedPlatforms[i];
      var platformErrors := CheckFields(Platform(platformKey).fields, formData);
      Report.CollectSnoc(selectedPlatforms, ErrorsOf(formData), i);
      if |platformErrors| > 0 {
        errors := errors[KeyString(platformKey) := platformErrors];
      }
    }
    assert selectedPlatforms[..|selectedPlatforms|] == selectedPlatforms;
  }

  // ---------------------------------------------------------------------------
  // The messages of one field

  /** The three kinds of message of one field never coincide, and a length or
      file-count message determines its limit. */
  lemma MessagesDistinct(name: string, n: nat, m: nat)
    ensures RequiredMessage(name) != LengthMessage(name, n)
    ensures RequiredMessage(name) != FilesMessage(name, m)
    ensures LengthMessage(name, n) != FilesMessage(name, m)
    ensures LengthMessage(name, n) == LengthMessage(name, m) ==> n == m
    ensures FilesMessage(name, n) == FilesMessage(name, m) ==> n == m
  {
    var c := Capitalize(name);
    assert RequiredMessage(name)[|c| + 1] == 'i';
    assert LengthMessage(name, n)[|c| + 1] == 'e';
    assert FilesMessage(name, m)[|c| + 1] == 'e';
    assert LengthMessage(name, n)[|c| + 17] == 'l';
    assert FilesMessage(name, m)[|c| + 17] == 'o';
    if LengthMessage(name, n) == LengthMessage(name, m) {
      CancelAffixes(c + " exceeds maximum length of ", NatToString(n), NatToString(m), " characters");
      NatToStringInjective(n, m);
    }
    if FilesMessage(name, n) == FilesMessage(name, m) {
      CancelAffixes(c + " exceeds maximum of ", NatToString(n), NatToString(m), " files");
      NatToStringInjective(n, m);
    }
  }

  /** A field reports "is required" exactly when it is required and its value is
      missing, falsy or whitespace-only; "exceeds maximum length" with limit `n`
      exactly when its value is a string longer than its `maxLength` `n`; and
      "exceeds maximum of n files" exactly when it is a file field whose value is
      a file list longer than its `maxFiles` `n`. It reports nothing else. */
  lemma FieldErrorsExact(name: string, cfg: FieldConfig, v: Option<Value>)
    ensures RequiredMessage(name) in FieldErrors(name, cfg, v) <==> Flag(cfg.required) && MissingOrBlank(v)
    ensures forall n: nat :: LengthMessage(name, n) in FieldErrors(name, cfg, v) <==> TooLong(cfg, v) && cfg.maxLength == Some(n)
    ensures forall n: nat :: FilesMessage(name, n) in FieldErrors(name, cfg, v) <==> TooManyFiles(cfg, v) && cfg.maxFiles == Some(n)
    ensures forall msg :: msg in FieldErrors(name, cfg, v) ==>
      msg == RequiredMessage(name)
      || (cfg.maxLength.Some? && msg == LengthMessage(name, cfg.maxLength.value))
      || (cfg.maxFiles.Some? && msg == FilesMessage(name, cfg.maxFiles.value))
  {
    var l := if cfg.maxLength.Some? then cfg.maxLength.value else 0;
    var f := if cfg.maxFiles.Some? then cfg.maxFiles.value else 0;
    MessagesDistinct(name, l, f);
    forall n: nat ensures LengthMessage(name, n) in FieldErrors(name, cfg, v) <==> TooLong(cfg, v) && cfg.maxLength == Some(n) {
      MessagesDistinct(name, n, f);
      MessagesDistinct(name, n, l);
    }
    forall n: nat ensures FilesMessage(name, n) in FieldErrors(name, cfg, v) <==> TooManyFiles(cfg, v) && cfg.maxFiles == Some(n) {
      MessagesDistinct(name, l, n);
      MessagesDistinct(name, n, f);
    }
  }

  // ---------------------------------------------------------------------------
  // The messages of one platform

  /** A message of a platform comes from one of its declared fields, and every
      message of every declared field is reported. */
  lemma FieldsErrorsMembership(fields: seq<(string, FieldConfig)>, data: FormData, msg: string)
    ensures msg in FieldsErrors(fields, data) <==>
      exists i :: 0 <= i < |fields| && msg in FieldErrors(fields[i].0, fields[i].1, Lookup(data, fields[i].0))
  {
    FieldsErrorsConcat(fields, data);
    Report.ConcatMembership(fields, FieldErrorsAt(data), msg);
  }

  /** The messages of two consecutive runs of declarations are those of the first
      run followed by those of the second. */
  lemma FieldsErrorsAppend(a: seq<(string, FieldConfig)>, b: seq<(string, FieldConfig)>, data: FormData)
    ensures FieldsErrors(a + b, data) == FieldsErrors(a, data) + FieldsErrors(b, data)
  {
    FieldsErrorsConcat(a + b, data);
    FieldsErrorsConcat(a, data);
    FieldsErrorsConcat(b, data);
    Report.ConcatAppend(a, b, FieldErrorsAt(data));
  }


  /** The messages of a single declaration are that field's own messages. */
  lemma FieldsErrorsSingle(field: (string, FieldConfig), data: FormData)
    ensures FieldsErrors([field], data) == FieldErrors(field.0, field.1, Lookup(data, field.0))
  {
    assert [field][..0] == [];
  }

  /** Reads the declarations front to back: the first field's messages come first. */
  lemma FieldsErrorsFront(fields: seq<(string, FieldConfig)>, data: FormData)
    requires fields != []
    ensures FieldsErrors(fields, data)
      == FieldErrors(fields[0].0, fields[0].1, Lookup(data, fields[0].0)) + FieldsErrors(fields[1..], data)
  {
    var head := [fields[0]];
    assert fields == head + fields[1..];
    FieldsErrorsAppend(head, fields[1..], data);
    FieldsErrorsSingle(fields[0], data);
  }

  /** A platform's messages depend only on the values of its own declared fields. */
  lemma {:induction false} FieldsErrorsFrame(fields: seq<(string, FieldConfig)>, d1: FormData, d2: FormData)
    requires forall i :: 0 <= i < |fields| ==> Lookup(d1, fields[i].0) == Lookup(d2, fields[i].0)
    ensures FieldsErrors(fields, d1) == FieldsErrors(fields, d2)
    decreases |fields|
  {
    if fields != [] {
      FieldsErrorsFrame(fields[..|fields| - 1], d1, d2);
    }
  }

  // ---------------------------------------------------------------------------
  // The whole report

  /** With no platform selected the result is `{}`. */
  lemma ValidateNothingSelected(data: FormData)
    ensures Validate([], data) == map[]
  {
  }

  /** With one platform selected the result holds that platform's messages under
      its key, or is `{}` when it has none. */
  lemma ValidateOne(p: PlatformKey, data: FormData)
    ensures Validate([p], data)
      == if PlatformErrors(p, data) == [] then map[] else map[KeyString(p) := PlatformErrors(p, data)]
  {
    Report.CollectSnoc([p], ErrorsOf(data), 0);
    assert [p][..1] == [p];
  }

  /** A platform's key is present exactly when it is selected and has at least one
      message, and it then holds exactly that platform's own messages. */
  lemma ValidateAt(selected: seq<PlatformKey>, data: FormData, p: PlatformKey)
    ensures KeyString(p) in Validate(selected, data) <==> p in selected && PlatformErrors(p, data) != []
    ensures KeyString(p) in Validate(selected, data) ==> Validate(selected, data)[KeyString(p)] == PlatformErrors(p, data)
  {
    Report.CollectAt(selected, ErrorsOf(data), p);
  }

  /** Every key belongs to a selected platform and no key maps to an empty list. */
  lemma ValidateKeys(selected: seq<PlatformKey>, data: FormData)
    ensures forall k :: k in Validate(selected, data) ==>
      Validate(selected, data)[k] != [] && exists p :: p in selected && k == KeyString(p)
  {
    Report.CollectKeys(selected, ErrorsOf(data));
  }

  /** Selecting more platforms does not change the messages of those already selected. */
  lemma ValidateMoreSelected(selected: seq<PlatformKey>, more: seq<PlatformKey>, data: FormData, p: PlatformKey)
    requires p in selected
    ensures KeyString(p) in Validate(selected, data) <==> KeyString(p) in Validate(selected + more, data)
    ensures KeyString(p) in Validate(selected, data) ==>
      Validate(selected, data)[KeyString(p)] == Validate(selected + more, data)[KeyString(p)]
  {
    ValidateAt(selected, data, p);
    ValidateAt(selected + more, data, p);
  }
}
