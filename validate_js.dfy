/** `validatePost` and `getRequiredFields` of src/utils/platformConfig.js. This copy
    tests values with plain truthiness (no trimming, no `type: 'file'` check),
    measures the `length` of any truthy value, names the platform in its messages
    and adds three platform-specific rules after the field checks. */
module ValidateJs {
  import opened Types
  import opened Strings
  import opened RegistryJs
  import Report
  import Registry
  import opened Discovery

  /** "<field> is required for <Platform name>". */
  function RequiredMessage(name: string, platformName: string): string
  {
    name + " is required for " + platformName
  }

  /** "<field> exceeds max length of <N> for <Platform name>". */
  function LengthMessage(name: string, limit: nat, platformName: string): string
  {
    name + " exceeds max length of " + NatToString(limit) + " for " + platformName
  }

  const RedditRuleMessage: string := "Reddit: Cannot have both text and link - choose one"
  const InstagramRuleMessage: string := "Instagram requires at least one image or video"
  const TiktokRuleMessage: string := "TikTok requires a video"

  /** `value.length`: strings and file lists have one, booleans do not (`undefined`). */
  function JsLength(v: Value): (n: Option<nat>)
    ensures n.Some? <==> v.Str? || v.Files?
  {
    match v
    case Str(s) => Some(|s|)
    case Files(files) => Some(|files|)
    case Bool(_) => None
    case Null => None
  }

  /** `fieldConfig.required && !value`. */
  predicate Missing(cfg: FieldConfig, v: Option<Value>)
  {
    Flag(cfg.required) && !TruthyOpt(v)
  }

  /** `fieldConfig.maxLength && value && value.length > fieldConfig.maxLength`;
      comparing `undefined` with a number is false. */
  predicate TooLong(cfg: FieldConfig, v: Option<Value>)
  {
    Limit(cfg.maxLength).Some? && TruthyOpt(v)
    && JsLength(v.value).Some? && JsLength(v.value).value > cfg.maxLength.value
  }

  /** The messages one field produces: required, then length. */
  function FieldErrors(name: string, cfg: FieldConfig, v: Option<Value>, platformName: string): seq<string>
  {
    (if Missing(cfg, v) then [RequiredMessage(name, platformName)] else [])
    + (if TooLong(cfg, v) then [LengthMessage(name, cfg.maxLength.value, platformName)] else [])
  }

  /** The field messages of a list of declarations, in declaration order. */
  function FieldsErrors(fields: seq<(string, FieldConfig)>, data: FormData, platformName: string): seq<string>
    decreases |fields|
  {
    if fields == [] then []
    else
      var last := fields[|fields| - 1];
      FieldsErrors(fields[..|fields| - 1], data, platformName) + FieldErrors(last.0, last.1, Lookup(data, last.0), platformName)
  }

  /** The field messages of one declaration, read against the form data. */
  function FieldErrorsAt(data: FormData, platformName: string): ((string, FieldConfig)) -> seq<string>
  {
    (field: (string, FieldConfig)) => FieldErrors(field.0, field.1, Lookup(data, field.0), platformName)
  }

  /** `FieldsErrors` gathers each declaration's messages in turn. */
  lemma {:induction false} FieldsErrorsConcat(fields: seq<(string, FieldConfig)>, data: FormData, platformName: string)
    ensures FieldsErrors(fields, data, platformName) == Report.Concat(fields, FieldErrorsAt(data, platformName))
    decreases |fields|
  {
    if fields != [] {
      FieldsErrorsConcat(fields[..|fields| - 1], data, platformName);
    }
  }



  /** The platform-specific rules, checked after the fields. */
  function RuleErrors(p: PlatformKey, data: FormData): seq<string>
  {
    (if p == Reddit && TruthyAt(data, "text") && TruthyAt(data, "link") then [RedditRuleMessage] else [])
    + (if p == Instagram && !TruthyAt(data, "image") then [InstagramRuleMessage] else [])
    + (if p == Tiktok && !TruthyAt(data, "video") then [TiktokRuleMessage] else [])
  }

  /** All messages of one platform. */
  function PlatformErrors(p: PlatformKey, data: FormData): seq<string>
  {
    FieldsErrors(Platform(p).fields, data, Platform(p).name) + RuleErrors(p, data)
  }

  function ErrorsOf(data: FormData): PlatformKey -> seq<string>
  {
    p => PlatformErrors(p, data)
  }

  /** What `validatePost(selectedPlatforms, formData)` returns. */
  function Validate(selected: seq<PlatformKey>, data: FormData): ValidationErrors
  {
    Report.Collect(selected, ErrorsOf(data))
  }

  /** The `Object.entries(platform.fields).forEach(...)` callback of `validatePost`,
      run over every declaration of one platform. */
  method CheckFields(fields: seq<(string, FieldConfig)>, formData: FormData, platformName: string)
    returns (platformErrors: seq<string>)
    ensures platformErrors == FieldsErrors(fields, formData, platformName)
  {
    platformErrors := [];
    for j := 0 to |fields|
      invariant platformErrors == FieldsErrors(fields[..j], formData, platformName)
    {
      var (fieldName, fieldConfig) := fields[j];
      var value := Lookup(formData, fieldName);
      if Missing(fieldConfig, value) {
        platformErrors := platformErrors + [RequiredMessage(fieldName, platformName)];
      }
      if TooLong(fieldConfig, value) {
        platformErrors := platformErrors + [LengthMessage(fieldName, fieldConfig.maxLength.value, platformName)];
      }
      assert fields[..j + 1][..j] == fields[..j];
    }
    assert fields[..|fields|] == fields;
  }

  /** The three platform-specific checks `validatePost` runs after the fields. */
  method CheckRules(platformKey: PlatformKey, formData: FormData, fieldErrors: seq<string>)
    returns (platformErrors: seq<string>)
    ensures platformErrors == fieldErrors + RuleErrors(platformKey, formData)
  {
    platformErrors := fieldErrors;
    if platformKey == Reddit {
      if TruthyAt(formData, "text") && TruthyAt(formData, "link") {
        platformErrors := platformErrors + [RedditRuleMessage];
      }
    }
    if platformKey == Instagram && !TruthyAt(formData, "image") {
      platformErrors := platformErrors + [InstagramRuleMessage];
    }
    if platformKey == Tiktok && !TruthyAt(formData, "video") {
      platformErrors := platformErrors + [TiktokRuleMessage];
    }
  }

  /** `validatePost`, loop for loop. */
  method ValidatePost(selectedPlatforms: seq<PlatformKey>, formData: FormData) returns (errors: ValidationErrors)
    ensures errors == Validate(selectedPlatforms, formData)
  {
    errors := map[];
    for i := 0 to |selectedPlatforms|
      invariant errors == Validate(selectedPlatforms[..i], formData)
    {
      var platformKey := selectedPlatforms[i];
      var platform := Platform(platformKey);
      var fieldErrors := CheckFields(platform.fields, formData, platform.name);
      var platformErrors := CheckRules(platformKey, formData, fieldErrors);
      Report.CollectSnoc(selectedPlatforms, ErrorsOf(formData), i);
      if |platformErrors| > 0 {
        errors := errors[KeyString(platformKey) := platformErrors];
      }
    }
    assert selectedPlatforms[..|selectedPlatforms|] == selectedPlatforms;
  }

  /** One more declaration met: its name is appended when the set has not seen it. */
  lemma AddFieldNameStep(es: seq<Entry>, e: Entry, fields: seq<string>)
    requires fields == Names(FirstByName(es))
    ensures (if e.name in fields then fields else fields + [e.name]) == Names(FirstByName(es + [e]))
  {
    NamesFirstByName(es);
    FirstByNameSnoc(es, e);
  }

  /** The inner `Object.keys(platform.fields).forEach(...)` of `getRequiredFields`:
      adds the names of one platform's declarations that the set has not met yet. */
  method AddFieldNames(fields: seq<string>, ghost before: seq<Entry>, platformKey: PlatformKey,
                       declared: seq<(string, FieldConfig)>)
    returns (fields': seq<string>)
    requires fields == Names(FirstByName(before))
    ensures fields' == Names(FirstByName(before + EntriesOf(platformKey, declared)))
  {
    fields' := fields;
    assert before + EntriesOf(platformKey, declared[..0]) == before;
    for j := 0 to |declared|
      invariant fields' == Names(FirstByName(before + EntriesOf(platformKey, declared[..j])))
    {
      var field := declared[j].0;
      ghost var es := before + EntriesOf(platformKey, declared[..j]);
      ghost var e := Entry(platformKey, field, declared[j].1);
      AddFieldNameStep(es, e, fields');
      EntriesOfSnoc(before, platformKey, declared, j);
      if field !in fields' {
        fields' := fields' + [field];
      }
    }
    assert declared[..|declared|] == declared;
  }

  /** `getRequiredFields`: the field names of the selected platforms, each once, in
      the order a `Set` filled during the walk iterates them (first insertion). */
  method GetRequiredFields(selectedPlatforms: seq<PlatformKey>) returns (fields: seq<string>)
    ensures fields == Names(FirstByName(Flatten(Registry.JsCopy, selectedPlatforms)))
  {
    fields := [];
    for i := 0 to |selectedPlatforms|
      invariant fields == Names(FirstByName(Flatten(Registry.JsCopy, selectedPlatforms[..i])))
    {
      var platformKey := selectedPlatforms[i];
      fields := AddFieldNames(fields, Flatten(Registry.JsCopy, selectedPlatforms[..i]), platformKey, Platform(platformKey).fields);
      FlattenSnoc(Registry.JsCopy, selectedPlatforms, i);
    }
    assert selectedPlatforms[..|selectedPlatforms|] == selectedPlatforms;
  }

  // ---------------------------------------------------------------------------
  // The messages of one field

  /** The two kinds of field message never coincide, and a length message
      determines its limit. */
  lemma MessagesDistinct(name: string, n: nat, m: nat, platformName: string)
    ensures RequiredMessage(name, platformName) != LengthMessage(name, n, platformName)
    ensures LengthMessage(name, n, platformName) == LengthMessage(name, m, platformName) ==> n == m
  {
    assert RequiredMessage(name, platformName)[|name| + 1] == 'i';
    assert LengthMessage(name, n, platformName)[|name| + 1] == 'e';
    if LengthMessage(name, n, platformName) == LengthMessage(name, m, platformName) {
      var prefix := name + " exceeds max length of ";
      var suffix := " for " + platformName;
      assert LengthMessage(name, n, platformName) == prefix + NatToString(n) + suffix;
      assert LengthMessage(name, m, platformName) == prefix + NatToString(m) + suffix;
      CancelAffixes(name + " exceeds max length of ", NatToString(n), NatToString(m), " for " + platformName);
      NatToStringInjective(n, m);
    }
  }

  /** A field reports "is required" exactly when it is required and its value is
      falsy (a whitespace-only string is not), and "exceeds max length" with limit
      `n` exactly when its truthy string or file list is longer than its
      `maxLength` `n`. It reports nothing else. */
  lemma FieldErrorsExact(name: string, cfg: FieldConfig, v: Option<Value>, platformName: string)
    ensures RequiredMessage(name, platformName) in FieldErrors(name, cfg, v, platformName)
      <==> Flag(cfg.required) && !TruthyOpt(v)
    ensures forall n: nat :: (LengthMessage(name, n, platformName) in FieldErrors(name, cfg, v, platformName)
      <==> TooLong(cfg, v) && cfg.maxLength == Some(n))
    ensures forall msg :: msg in FieldErrors(name, cfg, v, platformName) ==>
      msg == RequiredMessage(name, platformName)
      || (cfg.maxLength.Some? && msg == LengthMessage(name, cfg.maxLength.value, platformName))
  {
    var l := if cfg.maxLength.Some? then cfg.maxLength.value else 0;
    MessagesDistinct(name, l, l, platformName);
    forall n: nat
      ensures LengthMessage(name, n, platformName) in FieldErrors(name, cfg, v, platformName)
        <==> TooLong(cfg, v) && cfg.maxLength == Some(n)
    {
      MessagesDistinct(name, n, l, platformName);
    }
  }

  /** Every field message begins with the field's name. */
  lemma FieldErrorsStartWithName(name: string, cfg: FieldConfig, v: Option<Value>, platformName: string)
    ensures forall msg :: msg in FieldErrors(name, cfg, v, platformName) ==> StartsWith(msg, name)
  {
    var l := if cfg.maxLength.Some? then cfg.maxLength.value else 0;
    assert RequiredMessage(name, platformName)[..|name|] == name;
    assert LengthMessage(name, l, platformName)[..|name|] == name;
  }

  // ---------------------------------------------------------------------------
  // The messages of one platform

  /** A field message of a platform comes from one of its declared fields, and
      every message of every declared field is reported. */
  lemma FieldsErrorsMembership(fields: seq<(string, FieldConfig)>, data: FormData, platformName: string, msg: string)
    ensures msg in FieldsErrors(fields, data, platformName) <==>
      exists i :: 0 <= i < |fields| && msg in FieldErrors(fields[i].0, fields[i].1, Lookup(data, fields[i].0), platformName)
  {
    FieldsErrorsConcat(fields, data, platformName);
    Report.ConcatMembership(fields, FieldErrorsAt(data, platformName), msg);
  }

  /** The messages of two consecutive runs of declarations are those of the first
      run followed by those of the second. */
  lemma FieldsErrorsAppend(a: seq<(string, FieldConfig)>, b: seq<(string, FieldConfig)>, data: FormData, platformName: string)
    ensures FieldsErrors(a + b, data, platformName) == FieldsErrors(a, data, platformName) + FieldsErrors(b, data, platformName)
  {
    FieldsErrorsConcat(a + b, data, platformName);
    FieldsErrorsConcat(a, data, platformName);
    FieldsErrorsConcat(b, data, platformName);
    Report.ConcatAppend(a, b, FieldErrorsAt(data, platformName));
  }


  /** The messages of a single declaration are that field's own messages. */
  lemma FieldsErrorsSingle(field: (string, FieldConfig), data: FormData, platformName: string)
    ensures FieldsErrors([field], data, platformName) == FieldErrors(field.0, field.1, Lookup(data, field.0), platformName)
  {
    assert [field][..0] == [];
  }

  /** Reads the declarations front to back: the first field's messages come first. */
  lemma FieldsErrorsFront(fields: seq<(string, FieldConfig)>, data: FormData, platformName: string)
    requires fields != []
    ensures FieldsErrors(fields, data, platformName)
      == FieldErrors(fields[0].0, fields[0].1, Lookup(data, fields[0].0), platformName) + FieldsErrors(fields[1..], data, platformName)
  {
    var head := [fields[0]];
    assert fields == head + fields[1..];
    FieldsErrorsAppend(head, fields[1..], data, platformName);
    FieldsErrorsSingle(fields[0], data, platformName);
  }

  /** No field message of a field whose name does not start with `R` is the
      Reddit rule's message. */
  lemma NotRedditRule(name: string, cfg: FieldConfig, v: Option<Value>)
    requires name != [] && name[0] != 'R'
    ensures RedditRuleMessage !in FieldErrors(name, cfg, v, "Reddit")
  {
    FieldErrorsStartWithName(name, cfg, v, "Reddit");
    RedditRuleMessageInitial();
  }

  lemma RedditRuleMessageInitial()
    ensures RedditRuleMessage != [] && RedditRuleMessage[0] == 'R'
  {
    assert RedditRuleMessage == "Reddit: Cannot have both text and link - " + "choose one";
  }

  /** The Reddit rule fires exactly when both `text` and `link` are truthy: no field
      message can be mistaken for it, since every field message starts with a
      lower-case field name. */
  lemma RedditRuleExact(data: FormData)
    ensures RedditRuleMessage in PlatformErrors(Reddit, data) <==> TruthyAt(data, "text") && TruthyAt(data, "link")
  {
    var fields := RedditConfig.fields;
    forall k | 0 <= k < |fields|
      ensures RedditRuleMessage !in FieldErrors(fields[k].0, fields[k].1, Lookup(data, fields[k].0), "Reddit")
    {
      assert fields[k].0 != [] && fields[k].0[0] != 'R' by {
        if k == 0 {} else if k == 1 {} else if k == 2 {} else {}
      }
      NotRedditRule(fields[k].0, fields[k].1, Lookup(data, fields[k].0));
    }
    assert RedditRuleMessage !in FieldsErrors(fields, data, "Reddit") by {
      FieldsErrorsMembership(fields, data, "Reddit", RedditRuleMessage);
    }
  }

  /** An Instagram post without an image is reported twice: once by the required
      `image` field and once by the platform rule. */
  lemma InstagramMissingImageTwice(data: FormData)
    requires !TruthyAt(data, "image")
    ensures RequiredMessage("image", "Instagram") in PlatformErrors(Instagram, data)
    ensures InstagramRuleMessage in PlatformErrors(Instagram, data)
  {
    var fields := Platform(Instagram).fields;
    FieldsErrorsMembership(fields, data, "Instagram", RequiredMessage("image", "Instagram"));
    assert RequiredMessage("image", "Instagram") in FieldErrors(fields[1].0, fields[1].1, Lookup(data, fields[1].0), "Instagram");
  }

  /** A TikTok post without a video gets the required-field message first and the
      platform rule last. */
  lemma TiktokMissingVideo(data: FormData)
    requires !TruthyAt(data, "video")
    ensures var errs := PlatformErrors(Tiktok, data);
      |errs| >= 2 && errs[0] == RequiredMessage("video", "TikTok") && errs[|errs| - 1] == TiktokRuleMessage
  {
    var fields := Platform(Tiktok).fields;
    var fe := FieldsErrors(fields, data, "TikTok");
    assert RuleErrors(Tiktok, data) == [TiktokRuleMessage];
    assert fe != [] && fe[0] == RequiredMessage("video", "TikTok") by {
      FieldsErrorsFront(fields, data, "TikTok");
      assert fields[0].0 == "video" && Flag(fields[0].1.required);
      assert Missing(fields[0].1, Lookup(data, "video"));
    }
  }

  /** A platform's field messages depend only on the values of its declared fields. */
  lemma {:induction false} FieldsErrorsFrame(fields: seq<(string, FieldConfig)>, d1: FormData, d2: FormData, platformName: string)
    requires forall i :: 0 <= i < |fields| ==> Lookup(d1, fields[i].0) == Lookup(d2, fields[i].0)
    ensures FieldsErrors(fields, d1, platformName) == FieldsErrors(fields, d2, platformName)
    decreases |fields|
  {
    if fields != [] {
      FieldsErrorsFrame(fields[..|fields| - 1], d1, d2, platformName);
    }
  }



  // ---------------------------------------------------------------------------
  // The whole report

  /** With one platform selected the result holds that platform's messages under
      its key, or is `{}` when it has none. */
  lemma ValidateOne(p: PlatformKey, data: FormData)
    ensures Validate([p], data)
      == if PlatformErrors(p, data) == [] then map[] else map[KeyString(p) := PlatformErrors(p, data)]
  {
    Report.CollectSnoc([p], ErrorsOf(data), 0);
    assert [p][..1] == [p];
  }

  /** A platform's key is present exactly when it is selected and has at least one
      message, and it then holds exactly that platform's own messages. */
  lemma ValidateAt(selected: seq<PlatformKey>, data: FormData, p: PlatformKey)
    ensures KeyString(p) in Validate(selected, data) <==> p in selected && PlatformErrors(p, data) != []
    ensures KeyString(p) in Validate(selected, data) ==> Validate(selected, data)[KeyString(p)] == PlatformErrors(p, data)
  {
    Report.CollectAt(selected, ErrorsOf(data), p);
  }

  /** Every key belongs to a selected platform and no key maps to an empty list. */
  lemma ValidateKeys(selected: seq<PlatformKey>, data: FormData)
    ensures forall k :: k in Validate(selected, data) ==>
      Validate(selected, data)[k] != [] && exists p :: p in selected && k == KeyString(p)
  {
    Report.CollectKeys(selected, ErrorsOf(data));
  }

  // ---------------------------------------------------------------------------
  // getRequiredFields

  /** The names kept by first-discovery are exactly the names met. */
  lemma NamesFirstByName(es: seq<Entry>)
    ensures forall n :: n in Names(FirstByName(es)) <==> n in Seen(es)
  {
    FirstByNameIsFirstDiscovery(es);
  }

  /** `getRequiredFields` lists each field name declared by a selected platform
      exactly once, and nothing else. */
  lemma RequiredFieldsSpec(selected: seq<PlatformKey>)
    ensures var names := Names(FirstByName(Flatten(Registry.JsCopy, selected)));
      && NoDuplicates(names)
      && forall n :: n in names <==> exists p :: p in selected && n in FieldNames(Platform(p).fields)
  {
    var es := Flatten(Registry.JsCopy, selected);
    var out := FirstByName(es);
    FirstByNameIsFirstDiscovery(es);
    FirstDiscoveryNoDuplicates(es, out);
    NamesFirstByName(es);
    forall n ensures n in Seen(es) <==> exists p :: p in selected && n in FieldNames(Platform(p).fields) {
      FlattenNames(Registry.JsCopy, selected, n);
    }
  }
}
