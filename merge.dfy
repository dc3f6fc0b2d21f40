/** The three rendering passes of SocialPosterForm (.tsx and .jsx, identical in
    logic): which inputs the form shows for the selected platforms, and how a text
    field shared by several platforms is merged into one input. Rendering itself is
    not modelled; each pass returns the data its elements are built from. */
module Merge {
  import opened Types
  import opened Registry
  import opened Discovery

  /** One merged text input: its name, the selected platforms that declare it (in
      selection order), whether any of them requires it, the most restrictive
      positive `maxLength`, the placeholder of its first declaration and whether
      it is rendered as a textarea. */
  datatype MergedField = MergedField(
    name: string,
    usingPlatforms: seq<PlatformKey>,
    required: bool,
    maxLength: Option<nat>,
    placeholder: Option<string>,
    multiline: bool)

  /** `platforms[pk].fields[fieldName]` is truthy: platform `p` declares `name`. */
  predicate Uses(c: Copy, p: PlatformKey, name: string)
  {
    FieldConfigOf(c, p, name).Some?
  }

  /** `platforms[pk].fields[fieldName]?.required` is truthy. */
  predicate RequiresField(c: Copy, p: PlatformKey, name: string)
  {
    Uses(c, p, name) && Flag(FieldConfigOf(c, p, name).value.required)
  }

  /** `platforms[pk].fields[fieldName]?.maxLength` is a truthy (positive) number `l`. */
  predicate LimitsTo(c: Copy, p: PlatformKey, name: string, l: nat)
  {
    Uses(c, p, name) && Limit(FieldConfigOf(c, p, name).value.maxLength) == Some(l)
  }

  /** `r` is `s` with some elements left out: the order of `s` is kept. */
  predicate Subsequence(r: seq<PlatformKey>, s: seq<PlatformKey>)
    decreases |s|
  {
    if r == [] then true
    else if s == [] then false
    else (r[0] == s[0] && Subsequence(r[1..], s[1..])) || Subsequence(r, s[1..])
  }

  /** Where an element of a subsequence sits in the whole. */
  lemma {:induction false} SubsequenceMember(r: seq<PlatformKey>, s: seq<PlatformKey>, k: nat) returns (b: nat)
    requires Subsequence(r, s) && k < |r|
    ensures b < |s| && s[b] == r[k]
    decreases |s|
  {
    if r[0] == s[0] && Subsequence(r[1..], s[1..]) {
      if k == 0 {
        b := 0;
      } else {
        var b' := SubsequenceMember(r[1..], s[1..], k - 1);
        b := b' + 1;
      }
    } else {
      var b' := SubsequenceMember(r, s[1..], k);
      b := b' + 1;
    }
  }

  /** Where two elements of a subsequence sit in the whole, in the same order. */
  lemma {:induction false} SubsequencePair(r: seq<PlatformKey>, s: seq<PlatformKey>, i: nat, j: nat) returns (a: nat, b: nat)
    requires Subsequence(r, s) && i < j < |r|
    ensures a < b < |s| && s[a] == r[i] && s[b] == r[j]
    decreases |s|
  {
    if r[0] == s[0] && Subsequence(r[1..], s[1..]) {
      if i == 0 {
        var b' := SubsequenceMember(r[1..], s[1..], j - 1);
        a, b := 0, b' + 1;
      } else {
        var a', b' := SubsequencePair(r[1..], s[1..], i - 1, j - 1);
        a, b := a' + 1, b' + 1;
      }
    } else {
      var a', b' := SubsequencePair(r, s[1..], i, j);
      a, b := a' + 1, b' + 1;
    }
  }

  /** Any two elements of a subsequence appear in the whole in the same order. */
  lemma SubsequenceOrder(r: seq<PlatformKey>, s: seq<PlatformKey>)
    requires Subsequence(r, s)
    ensures forall i, j :: 0 <= i < j < |r| ==>
      exists a, b :: 0 <= a < b < |s| && s[a] == r[i] && s[b] == r[j]
  {
    forall i, j | 0 <= i < j < |r|
      ensures exists a, b :: 0 <= a < b < |s| && s[a] == r[i] && s[b] == r[j]
    {
      var a, b := SubsequencePair(r, s, i, j);
    }
  }

  /** `s.filter(keep)`: the platforms of `s` that `keep` accepts, in the order of `s`. */
  function Filter(s: seq<PlatformKey>, keep: PlatformKey -> bool): (r: seq<PlatformKey>)
    ensures forall p :: p in r <==> p in s && keep(p)
    ensures Subsequence(r, s)
    decreases |s|
  {
    if s == [] then []
    else
      var rest := Filter(s[1..], keep);
      if keep(s[0]) then
        var r := [s[0]] + rest;
        assert r[1..] == rest;
        r
      else rest
  }

  /** The platforms using a field appear in selection order. */
  lemma UsingPlatformsOrder(c: Copy, selected: seq<PlatformKey>, name: string)
    ensures var using := UsingPlatforms(c, selected, name);
      forall i, j :: 0 <= i < j < |using| ==>
        exists a, b :: 0 <= a < b < |selected| && selected[a] == using[i] && selected[b] == using[j]
  {
    SubsequenceOrder(UsingPlatforms(c, selected, name), selected);
  }

  /** Filtering a two-element list. */
  lemma FilterPair(x: PlatformKey, y: PlatformKey, keep: PlatformKey -> bool)
    ensures Filter([x, y], keep) == (if keep(x) then [x] else []) + (if keep(y) then [y] else [])
  {
    assert [x, y][1..] == [y];
    assert [y][1..] == [];
  }

  /** `selectedPlatforms.filter((pk) => platforms[pk].fields[fieldName])`: the
      selected platforms that declare the field, kept in selection order. */
  function UsingPlatforms(c: Copy, selected: seq<PlatformKey>, name: string): (using: seq<PlatformKey>)
    ensures forall p :: p in using <==> p in selected && Uses(c, p, name)
    ensures Subsequence(using, selected)
  {
    Filter(selected, p => Uses(c, p, name))
  }

  /** `usingPlatforms.some((pk) => platforms[pk].fields[fieldName]?.required)`. */
  function AnyRequired(c: Copy, using: seq<PlatformKey>, name: string): (r: bool)
    ensures r <==> exists p :: p in using && RequiresField(c, p, name)
    decreases |using|
  {
    using != [] && (RequiresField(c, using[0], name) || AnyRequired(c, using[1..], name))
  }

  /** `usingPlatforms.map((pk) => ...?.maxLength).filter(Boolean)`: the positive limits. */
  function DeclaredLimits(c: Copy, using: seq<PlatformKey>, name: string): (ls: seq<nat>)
    ensures forall l :: l in ls <==> exists p :: p in using && LimitsTo(c, p, name, l)
    decreases |using|
  {
    if using == [] then []
    else
      var p := using[0];
      var head := if Uses(c, p, name) && Limit(FieldConfigOf(c, p, name).value.maxLength).Some?
                  then [FieldConfigOf(c, p, name).value.maxLength.value] else [];
      assert forall q :: q in using <==> q == p || q in using[1..];
      assert forall l :: l in head <==> LimitsTo(c, p, name, l);
      var rest := DeclaredLimits(c, using[1..], name);
      assert forall l :: l in head + rest <==> l in head || l in rest;
      head + rest
  }

  /** `maxLengths.length > 0 ? Math.min(...maxLengths) : null`. */
  function MinLength(ls: seq<nat>): (m: Option<nat>)
    ensures m.None? <==> ls == []
    ensures m.Some? ==> m.value in ls && forall l :: l in ls ==> m.value <= l
    decreases |ls|
  {
    if ls == [] then None
    else
      assert forall l :: l in ls <==> l == ls[0] || l in ls[1..];
      match MinLength(ls[1..])
      case None => Some(ls[0])
      case Some(rest) => Some(if ls[0] <= rest then ls[0] else rest)
  }

  /** The text inputs rendered as a textarea. */
  predicate Multiline(name: string)
  {
    name == "text" || name == "caption" || name == "embedDescription"
  }

  /** The merged input built for the first declaration `e` of a text field. */
  function MergeField(c: Copy, selected: seq<PlatformKey>, e: Entry): MergedField
  {
    var using := UsingPlatforms(c, selected, e.name);
    MergedField(e.name, using, AnyRequired(c, using, e.name),
                MinLength(DeclaredLimits(c, using, e.name)), e.config.placeholder, Multiline(e.name))
  }

  /** A declaration that the text pass renders: neither a checkbox nor a file input. */
  predicate IsTextEntry(e: Entry)
  {
    !IsBooleanField(e.config) && !HasAccept(e.config)
  }

  /** A declaration that the media pass renders. */
  predicate IsFileEntry(e: Entry)
  {
    HasAccept(e.config)
  }

  /** A declaration that the options pass renders. */
  predicate IsCheckboxEntry(e: Entry)
  {
    IsBooleanField(e.config)
  }

  /** `MergeField` for one selection, as a function of the declaration. */
  function Merger(c: Copy, selected: seq<PlatformKey>): Entry -> MergedField
  {
    (e: Entry) => MergeField(c, selected, e)
  }

  /** The merged inputs built by `merge` from a list of first declarations,
      skipping the checkbox and file ones. */
  function Texts(out: seq<Entry>, merge: Entry -> MergedField): seq<MergedField>
    decreases |out|
  {
    if out == [] then []
    else
      var e := out[|out| - 1];
      Texts(out[..|out| - 1], merge) + (if IsTextEntry(e) then [merge(e)] else [])
  }

  /** What `renderTextFields` renders: every name is claimed by its first
      declaration, and only names whose first declaration is a text field get an input. */
  function TextFields(c: Copy, selected: seq<PlatformKey>): seq<MergedField>
  {
    Texts(FirstByName(Flatten(c, selected)), Merger(c, selected))
  }

  /** The file-input declarations of a walk, in walk order. */
  function FileEntries(es: seq<Entry>): seq<Entry>
    decreases |es|
  {
    if es == [] then []
    else FileEntries(es[..|es| - 1]) + (if IsFileEntry(es[|es| - 1]) then [es[|es| - 1]] else [])
  }

  /** The checkbox declarations of a walk, in walk order. */
  function CheckboxEntries(es: seq<Entry>): seq<Entry>
    decreases |es|
  {
    if es == [] then []
    else CheckboxEntries(es[..|es| - 1]) + (if IsCheckboxEntry(es[|es| - 1]) then [es[|es| - 1]] else [])
  }

  /** What `renderFileFields` renders: the first file-input declaration of each name. */
  function FileFields(c: Copy, selected: seq<PlatformKey>): seq<Entry>
  {
    FirstByName(FileEntries(Flatten(c, selected)))
  }

  /** What `renderCheckboxFields` renders: the first checkbox declaration of each name. */
  function CheckboxFields(c: Copy, selected: seq<PlatformKey>): seq<Entry>
  {
    FirstByName(CheckboxEntries(Flatten(c, selected)))
  }

  // ---------------------------------------------------------------------------
  // The three passes, loop for loop

  lemma TextsSnoc(out: seq<Entry>, e: Entry, merge: Entry -> MergedField)
    ensures Texts(out + [e], merge) == Texts(out, merge) + (if IsTextEntry(e) then [merge(e)] else [])
  {
    assert (out + [e])[..|out|] == out;
  }

  lemma FileEntriesSnoc(es: seq<Entry>, e: Entry)
    ensures FileEntries(es + [e]) == FileEntries(es) + (if IsFileEntry(e) then [e] else [])
  {
    assert (es + [e])[..|es|] == es;
  }

  lemma CheckboxEntriesSnoc(es: seq<Entry>, e: Entry)
    ensures CheckboxEntries(es + [e]) == CheckboxEntries(es) + (if IsCheckboxEntry(e) then [e] else [])
  {
    assert (es + [e])[..|es|] == es;
  }

  /** One declaration of the file pass: it is kept when it is a file input
      whose name has not been processed yet. */
  lemma FileStep(es: seq<Entry>, e: Entry)
    ensures var kept := FileEntries(es);
      var add := IsFileEntry(e) && e.name !in Seen(kept);
      && Seen(FileEntries(es + [e])) == (if add then Seen(kept) + {e.name} else Seen(kept))
      && FirstByName(FileEntries(es + [e])) == (if add then FirstByName(kept) + [e] else FirstByName(kept))
  {
    FileEntriesSnoc(es, e);
    var kept := FileEntries(es);
    if IsFileEntry(e) {
      assert FileEntries(es + [e]) == kept + [e];
      FirstByNameSnoc(kept, e);
      SeenSnoc(kept, e);
      if e.name in Seen(kept) {
        assert Seen(kept) + {e.name} == Seen(kept);
      }
    } else {
      assert FileEntries(es + [e]) == kept;
    }
  }

  /** One declaration of the checkbox pass: it is kept when it is a checkbox
      whose name has not been processed yet. */
  lemma CheckboxStep(es: seq<Entry>, e: Entry)
    ensures var kept := CheckboxEntries(es);
      var add := IsCheckboxEntry(e) && e.name !in Seen(kept);
      && Seen(CheckboxEntries(es + [e])) == (if add then Seen(kept) + {e.name} else Seen(kept))
      && FirstByName(CheckboxEntries(es + [e])) == (if add then FirstByName(kept) + [e] else FirstByName(kept))
  {
    CheckboxEntriesSnoc(es, e);
    var kept := CheckboxEntries(es);
    if IsCheckboxEntry(e) {
      assert CheckboxEntries(es + [e]) == kept + [e];
      FirstByNameSnoc(kept, e);
      SeenSnoc(kept, e);
      if e.name in Seen(kept) {
        assert Seen(kept) + {e.name} == Seen(kept);
      }
    } else {
      assert CheckboxEntries(es + [e]) == kept;
    }
  }

  /** One declaration of the text pass: a name not processed yet is marked, and it
      gets a merged input when this first declaration is a text field. */
  lemma TextStep(es: seq<Entry>, e: Entry, merge: Entry -> MergedField)
    ensures Seen(es + [e]) == Seen(es) + {e.name}
    ensures Texts(FirstByName(es + [e]), merge)
      == if e.name in Seen(es) then Texts(FirstByName(es), merge)
         else Texts(FirstByName(es), merge) + (if IsTextEntry(e) then [merge(e)] else [])
  {
    FirstByNameSnoc(es, e);
    SeenSnoc(es, e);
    TextsSnoc(FirstByName(es), e, merge);
  }

  /** The inner `forEach` of `renderTextFields`: one platform's declarations, met
      after the walk `before`. */
  method RenderTextFieldsOf(c: Copy, selectedPlatforms: seq<PlatformKey>, platformKey: PlatformKey,
                            fields: seq<(string, FieldConfig)>, ghost before: seq<Entry>,
                            fieldElements: seq<MergedField>, processedFields: set<string>)
    returns (fieldElements': seq<MergedField>, processedFields': set<string>)
    requires processedFields == Seen(before)
    requires fieldElements == Texts(FirstByName(before), Merger(c, selectedPlatforms))
    ensures processedFields' == Seen(before + EntriesOf(platformKey, fields))
    ensures fieldElements' == Texts(FirstByName(before + EntriesOf(platformKey, fields)), Merger(c, selectedPlatforms))
  {
    fieldElements', processedFields' := fieldElements, processedFields;
    assert before + EntriesOf(platformKey, fields[..0]) == before;
    for j := 0 to |fields|
      invariant processedFields' == Seen(before + EntriesOf(platformKey, fields[..j]))
      invariant fieldElements' == Texts(FirstByName(before + EntriesOf(platformKey, fields[..j])), Merger(c, selectedPlatforms))
    {
      var (fieldName, fieldConfig) := fields[j];
      ghost var es := before + EntriesOf(platformKey, fields[..j]);
      var e := Entry(platformKey, fieldName, fieldConfig);
      EntriesOfSnoc(before, platformKey, fields, j);
      TextStep(es, e, Merger(c, selectedPlatforms));
      if fieldName in processedFields' {
        continue;
      }
      processedFields' := processedFields' + {fieldName};
      if IsBooleanField(fieldConfig) || HasAccept(fieldConfig) {
        continue;
      }
      fieldElements' := fieldElements' + [MergeField(c, selectedPlatforms, e)];
    }
    assert fields[..|fields|] == fields;
  }

  /** `renderTextFields`. */
  method RenderTextFields(c: Copy, selectedPlatforms: seq<PlatformKey>) returns (fieldElements: seq<MergedField>)
    ensures fieldElements == TextFields(c, selectedPlatforms)
  {
    fieldElements := [];
    var processedFields: set<string> := {};
    for i := 0 to |selectedPlatforms|
      invariant processedFields == Seen(Flatten(c, selectedPlatforms[..i]))
      invariant fieldElements == Texts(FirstByName(Flatten(c, selectedPlatforms[..i])), Merger(c, selectedPlatforms))
    {
      var platformKey := selectedPlatforms[i];
      fieldElements, processedFields := RenderTextFieldsOf(c, selectedPlatforms, platformKey, Fields(c, platformKey),
        Flatten(c, selectedPlatforms[..i]), fieldElements, processedFields);
      FlattenSnoc(c, selectedPlatforms, i);
    }
    assert selectedPlatforms[..|selectedPlatforms|] == selectedPlatforms;
  }

  /** The inner `forEach` of `renderFileFields`: one platform's declarations, met
      after the walk `before`. */
  method RenderFileFieldsOf(platformKey: PlatformKey, fields: seq<(string, FieldConfig)>, ghost before: seq<Entry>,
                            fieldElements: seq<Entry>, processedFields: set<string>)
    returns (fieldElements': seq<Entry>, processedFields': set<string>)
    requires processedFields == Seen(FileEntries(before))
    requires fieldElements == FirstByName(FileEntries(before))
    ensures processedFields' == Seen(FileEntries(before + EntriesOf(platformKey, fields)))
    ensures fieldElements' == FirstByName(FileEntries(before + EntriesOf(platformKey, fields)))
  {
    fieldElements', processedFields' := fieldElements, processedFields;
    assert before + EntriesOf(platformKey, fields[..0]) == before;
    for j := 0 to |fields|
      invariant processedFields' == Seen(FileEntries(before + EntriesOf(platformKey, fields[..j])))
      invariant fieldElements' == FirstByName(FileEntries(before + EntriesOf(platformKey, fields[..j])))
    {
      var (fieldName, fieldConfig) := fields[j];
      ghost var es := before + EntriesOf(platformKey, fields[..j]);
      var e := Entry(platformKey, fieldName, fieldConfig);
      EntriesOfSnoc(before, platformKey, fields, j);
      FileStep(es, e);
      if HasAccept(fieldConfig) && fieldName !in processedFields' {
        processedFields' := processedFields' + {fieldName};
        fieldElements' := fieldElements' + [e];
      }
    }
    assert fields[..|fields|] == fields;
  }

  /** `renderFileFields`. */
  method RenderFileFields(c: Copy, selectedPlatforms: seq<PlatformKey>) returns (fieldElements: seq<Entry>)
    ensures fieldElements == FileFields(c, selectedPlatforms)
  {
    fieldElements := [];
    var processedFields: set<string> := {};
    for i := 0 to |selectedPlatforms|
      invariant processedFields == Seen(FileEntries(Flatten(c, selectedPlatforms[..i])))
      invariant fieldElements == FirstByName(FileEntries(Flatten(c, selectedPlatforms[..i])))
    {
      var platformKey := selectedPlatforms[i];
      fieldElements, processedFields := RenderFileFieldsOf(platformKey, Fields(c, platformKey),
        Flatten(c, selectedPlatforms[..i]), fieldElements, processedFields);
      FlattenSnoc(c, selectedPlatforms, i);
    }
    assert selectedPlatforms[..|selectedPlatforms|] == selectedPlatforms;
  }

  /** The inner `forEach` of `renderCheckboxFields`: one platform's declarations,
      met after the walk `before`. */
  method RenderCheckboxFieldsOf(platformKey: PlatformKey, fields: seq<(string, FieldConfig)>, ghost before: seq<Entry>,
                                fieldElements: seq<Entry>, processedFields: set<string>)
    returns (fieldElements': seq<Entry>, processedFields': set<string>)
    requires processedFields == Seen(CheckboxEntries(before))
    requires fieldElements == FirstByName(CheckboxEntries(before))
    ensures processedFields' == Seen(CheckboxEntries(before + EntriesOf(platformKey, fields)))
    ensures fieldElements' == FirstByName(CheckboxEntries(before + EntriesOf(platformKey, fields)))
  {
    fieldElements', processedFields' := fieldElements, processedFields;
    assert before + EntriesOf(platformKey, fields[..0]) == before;
    for j := 0 to |fields|
      invariant processedFields' == Seen(CheckboxEntries(before + EntriesOf(platformKey, fields[..j])))
      invariant fieldElements' == FirstByName(CheckboxEntries(before + EntriesOf(platformKey, fields[..j])))
    {
      var (fieldName, fieldConfig) := fields[j];
      ghost var es := before + EntriesOf(platformKey, fields[..j]);
      var e := Entry(platformKey, fieldName, fieldConfig);
      EntriesOfSnoc(before, platformKey, fields, j);
      CheckboxStep(es, e);
      if IsBooleanField(fieldConfig) && fieldName !in processedFields' {
        processedFields' := processedFields' + {fieldName};
        fieldElements' := fieldElements' + [e];
      }
    }
    assert fields[..|fields|] == fields;
  }

  /** `renderCheckboxFields`. */
  method RenderCheckboxFields(c: Copy, selectedPlatforms: seq<PlatformKey>) returns (fieldElements: seq<Entry>)
    ensures fieldElements == CheckboxFields(c, selectedPlatforms)
  {
    fieldElements := [];
    var processedFields: set<string> := {};
    for i := 0 to |selectedPlatforms|
      invariant processedFields == Seen(CheckboxEntries(Flatten(c, selectedPlatforms[..i])))
      invariant fieldElements == FirstByName(CheckboxEntries(Flatten(c, selectedPlatforms[..i])))
    {
      var platformKey := selectedPlatforms[i];
      fieldElements, processedFields := RenderCheckboxFieldsOf(platformKey, Fields(c, platformKey),
        Flatten(c, selectedPlatforms[..i]), fieldElements, processedFields);
      FlattenSnoc(c, selectedPlatforms, i);
    }
    assert selectedPlatforms[..|selectedPlatforms|] == selectedPlatforms;
  }

  // ---------------------------------------------------------------------------
  // What the passes promise

  /** A merged input for a field declared by a selected platform lists exactly the
      selected platforms that declare the field (so at least the declaring one), is
      required exactly when one of them requires it, and carries the smallest
      positive `maxLength` any of them declares, or none when none declares one. */
  lemma MergeFieldSpec(c: Copy, selected: seq<PlatformKey>, e: Entry)
    requires e.platform in selected && (e.name, e.config) in Fields(c, e.platform)
    ensures var m := MergeField(c, selected, e);
      && m.name == e.name
      && e.platform in m.usingPlatforms
      && (forall p :: p in m.usingPlatforms <==> p in selected && Uses(c, p, e.name))
      && Subsequence(m.usingPlatforms, selected)
      && (m.required <==> exists p :: p in selected && RequiresField(c, p, e.name))
      && (m.maxLength.None? <==> forall p, l :: p in selected ==> !LimitsTo(c, p, e.name, l))
      && (m.maxLength.Some? ==>
            (exists p :: p in selected && LimitsTo(c, p, e.name, m.maxLength.value))
            && forall p, l :: p in selected && LimitsTo(c, p, e.name, l) ==> m.maxLength.value <= l)
  {
    var fs := Fields(c, e.platform);
    var k :| 0 <= k < |fs| && fs[k] == (e.name, e.config);
    assert Uses(c, e.platform, e.name);
    var using := UsingPlatforms(c, selected, e.name);
    var ls := DeclaredLimits(c, using, e.name);
    forall p | p in selected && RequiresField(c, p, e.name) ensures p in using {}
    forall p, l | p in selected && LimitsTo(c, p, e.name, l) ensures l in ls {
      assert p in using;
    }
  }

  /** Every merged input comes from a first declaration that is a text field. */
  lemma {:induction false} TextsMembership(out: seq<Entry>, merge: Entry -> MergedField, m: MergedField)
    ensures m in Texts(out, merge) <==> exists e :: e in out && IsTextEntry(e) && m == merge(e)
    decreases |out|
  {
    if out != [] {
      var init := out[..|out| - 1];
      TextsMembership(init, merge, m);
      assert out == init + [out[|out| - 1]];
    }
  }

  /** The merged inputs have distinct names when the declarations do. */
  lemma {:induction false} TextsNamesDistinct(out: seq<Entry>, merge: Entry -> MergedField)
    requires forall i :: 0 <= i < |out| ==> merge(out[i]).name == out[i].name
    requires forall i, j :: 0 <= i < j < |out| ==> out[i].name != out[j].name
    ensures forall i, j :: 0 <= i < j < |Texts(out, merge)| ==>
      Texts(out, merge)[i].name != Texts(out, merge)[j].name
    decreases |out|
  {
    if out != [] {
      var init := out[..|out| - 1];
      var e := out[|out| - 1];
      TextsNamesDistinct(init, merge);
      TextsNames(init, merge);
      var t := Texts(init, merge);
      var tout := Texts(out, merge);
      var last := if IsTextEntry(e) then [merge(e)] else [];
      assert tout == t + last;
      assert |last| <= 1 && forall k :: 0 <= k < |last| ==> last[k].name == e.name;
      forall k | 0 <= k < |t|
        ensures t[k].name != e.name
      {
        var i :| 0 <= i < |init| && t[k].name == init[i].name;
        assert init[i] == out[i];
      }
      forall i, j | 0 <= i < j < |tout| ensures tout[i].name != tout[j].name {
        assert tout[i] == t[i];
        if j < |t| {
          assert tout[j] == t[j];
        } else {
          assert tout[j] == last[0];
        }
      }
    } else {
      assert Texts(out, merge) == [];
    }
  }

  /** The declarations `out` are named after names met in the walk `es`, in the
      order those names are first met. */
  predicate EntriesInFirstOrder(es: seq<Entry>, out: seq<Entry>)
  {
    forall i, j :: 0 <= i < j < |out| ==>
      out[i].name in Seen(es) && out[j].name in Seen(es) && FirstIndex(es, out[i].name) < FirstIndex(es, out[j].name)
  }

  /** The merged inputs keep the order of the declarations they are merged from. */
  lemma {:induction false} TextsOrder(es: seq<Entry>, out: seq<Entry>, merge: Entry -> MergedField)
    requires forall i :: 0 <= i < |out| ==> merge(out[i]).name == out[i].name
    requires EntriesInFirstOrder(es, out)
    ensures InFirstOrder(es, Texts(out, merge))
    decreases |out|
  {
    if out != [] {
      var init := out[..|out| - 1];
      var e := out[|out| - 1];
      assert EntriesInFirstOrder(es, init) by {
        forall i, j | 0 <= i < j < |init| ensures init[i] == out[i] && init[j] == out[j] {}
      }
      TextsOrder(es, init, merge);
      TextsNames(init, merge);
      var t := Texts(init, merge);
      var tout := Texts(out, merge);
      assert tout == t + (if IsTextEntry(e) then [merge(e)] else []);
      forall k, l | 0 <= k < l < |tout|
        ensures tout[k].name in Seen(es) && tout[l].name in Seen(es)
          && FirstIndex(es, tout[k].name) < FirstIndex(es, tout[l].name)
      {
        assert tout[k] == t[k];
        if l < |t| {
          assert tout[l] == t[l];
        } else {
          assert tout[l].name == e.name;
          var i :| 0 <= i < |init| && t[k].name == init[i].name;
          assert init[i] == out[i];
        }
      }
    } else {
      assert Texts(out, merge) == [];
    }
  }

  /** Each merged input is named after one of the declarations. */
  lemma {:induction false} TextsNames(out: seq<Entry>, merge: Entry -> MergedField)
    requires forall i :: 0 <= i < |out| ==> merge(out[i]).name == out[i].name
    ensures forall k :: 0 <= k < |Texts(out, merge)| ==>
      exists i :: 0 <= i < |out| && Texts(out, merge)[k].name == out[i].name
    decreases |out|
  {
    if out != [] {
      var init := out[..|out| - 1];
      TextsNames(init, merge);
      var t := Texts(init, merge);
      var tout := Texts(out, merge);
      assert tout == t + (if IsTextEntry(out[|out| - 1]) then [merge(out[|out| - 1])] else []);
      forall k | 0 <= k < |tout| ensures exists i :: 0 <= i < |out| && tout[k].name == out[i].name {
        if k < |t| {
          assert tout[k] == t[k];
          var i :| 0 <= i < |init| && t[k].name == init[i].name;
          assert out[i] == init[i];
        } else {
          assert tout[k].name == out[|out| - 1].name;
        }
      }
    } else {
      assert Texts(out, merge) == [];
    }
  }

  /** `m` is the text input merged by `merge` from the first declaration of `n`
      in the walk `es`, and that declaration is a text field. */
  predicate FirstIsText(es: seq<Entry>, merge: Entry -> MergedField, n: string, m: MergedField)
  {
    n in Seen(es) && IsTextEntry(es[FirstIndex(es, n)]) && m == merge(es[FirstIndex(es, n)])
  }

  /** Every input comes from a name's first declaration, which is a text field. */
  lemma TextFieldsSound(es: seq<Entry>, merge: Entry -> MergedField, m: MergedField)
    requires m in Texts(FirstByName(es), merge)
    ensures exists n :: FirstIsText(es, merge, n, m)
  {
    var out := FirstByName(es);
    FirstByNameIsFirstDiscovery(es);
    TextsMembership(out, merge, m);
    var e :| e in out && IsTextEntry(e) && m == merge(e);
    var i :| 0 <= i < |out| && out[i] == e;
    assert FirstIsText(es, merge, e.name, m);
  }

  /** A name whose first declaration is a text field gets the input merged from it. */
  lemma FirstTextInTexts(es: seq<Entry>, out: seq<Entry>, merge: Entry -> MergedField, n: string)
    requires IsFirstDiscovery(es, out) && n in Seen(es) && IsTextEntry(es[FirstIndex(es, n)])
    ensures merge(es[FirstIndex(es, n)]) in Texts(out, merge)
  {
    assert n in Seen(out);
    var i :| 0 <= i < |out| && out[i].name == n;
    assert out[i] == es[FirstIndex(es, n)];
    TextsMembership(out, merge, merge(out[i]));
  }

  lemma TextFieldsComplete(es: seq<Entry>, merge: Entry -> MergedField, n: string, m: MergedField)
    requires FirstIsText(es, merge, n, m)
    ensures m in Texts(FirstByName(es), merge)
  {
    FirstByNameIsFirstDiscovery(es);
    FirstTextInTexts(es, FirstByName(es), merge, n);
  }

  /** No two inputs share a name. */
  predicate NamesDistinct(tf: seq<MergedField>)
  {
    forall i, j :: 0 <= i < j < |tf| ==> tf[i].name != tf[j].name
  }

  /** The inputs are named after names met in the walk `es`, in the order those
      names are first met. */
  predicate InFirstOrder(es: seq<Entry>, tf: seq<MergedField>)
  {
    forall i, j :: 0 <= i < j < |tf| ==>
      tf[i].name in Seen(es) && tf[j].name in Seen(es) && FirstIndex(es, tf[i].name) < FirstIndex(es, tf[j].name)
  }

  /** The inputs are exactly those merged from first declarations that are text fields. */
  ghost predicate ExactlyFirstTexts(es: seq<Entry>, merge: Entry -> MergedField, tf: seq<MergedField>)
  {
    forall m :: m in tf <==> exists n :: FirstIsText(es, merge, n, m)
  }

  /** The text pass over any walk, for a merge that keeps the field's name, gives
      one input per name. */
  lemma FirstTextsDistinct(es: seq<Entry>, merge: Entry -> MergedField)
    requires forall e :: merge(e).name == e.name
    ensures NamesDistinct(Texts(FirstByName(es), merge))
  {
    FirstByNameIsFirstDiscovery(es);
    FirstDiscoveryNoDuplicates(es, FirstByName(es));
    TextsNamesDistinct(FirstByName(es), merge);
  }

  /** The text pass keeps the order in which the names are first met. */
  lemma FirstTextsOrder(es: seq<Entry>, merge: Entry -> MergedField)
    requires forall e :: merge(e).name == e.name
    ensures InFirstOrder(es, Texts(FirstByName(es), merge))
  {
    FirstByNameIsFirstDiscovery(es);
    TextsOrder(es, FirstByName(es), merge);
  }

  /** The text pass gives an input exactly for each name whose first declaration
      is a text field, merged from that declaration. */
  lemma FirstTextsExact(es: seq<Entry>, merge: Entry -> MergedField)
    ensures ExactlyFirstTexts(es, merge, Texts(FirstByName(es), merge))
  {
    var tf := Texts(FirstByName(es), merge);
    forall m ensures m in tf <==> exists n :: FirstIsText(es, merge, n, m) {
      if m in tf {
        TextFieldsSound(es, merge, m);
      }
      if exists n :: FirstIsText(es, merge, n, m) {
        var n :| FirstIsText(es, merge, n, m);
        TextFieldsComplete(es, merge, n, m);
      }
    }
  }

  /** The merge keeps the field's name. */
  lemma MergerKeepsName(c: Copy, selected: seq<PlatformKey>)
    ensures forall e :: Merger(c, selected)(e).name == e.name
  {
  }

  /** `renderTextFields` renders one input per name, in the order the names are
      first met, and an input for a name exactly when the name's first declaration
      in the walk is a text field; a name first declared as a checkbox or a file
      input gets no text input even when a later platform declares it as text.
      Each input is merged from that first declaration. */
  lemma TextFieldsSpec(c: Copy, selected: seq<PlatformKey>)
    ensures NamesDistinct(TextFields(c, selected))
    ensures InFirstOrder(Flatten(c, selected), TextFields(c, selected))
    ensures ExactlyFirstTexts(Flatten(c, selected), Merger(c, selected), TextFields(c, selected))
  {
    MergerKeepsName(c, selected);
    FirstTextsDistinct(Flatten(c, selected), Merger(c, selected));
    FirstTextsOrder(Flatten(c, selected), Merger(c, selected));
    FirstTextsExact(Flatten(c, selected), Merger(c, selected));
  }

  lemma {:induction false} FileEntriesMembership(es: seq<Entry>, e: Entry)
    ensures e in FileEntries(es) <==> e in es && IsFileEntry(e)
    decreases |es|
  {
    if es != [] {
      var init := es[..|es| - 1];
      FileEntriesMembership(init, e);
      assert es == init + [es[|es| - 1]];
    }
  }

  lemma {:induction false} CheckboxEntriesMembership(es: seq<Entry>, e: Entry)
    ensures e in CheckboxEntries(es) <==> e in es && IsCheckboxEntry(e)
    decreases |es|
  {
    if es != [] {
      var init := es[..|es| - 1];
      CheckboxEntriesMembership(init, e);
      assert es == init + [es[|es| - 1]];
    }
  }

  /** `renderFileFields` renders, for every name some selected platform declares as
      a file input, that name's first file-input declaration, once, in the order
      the names are first met; nothing else. */
  lemma FileFieldsSpec(c: Copy, selected: seq<PlatformKey>)
    ensures IsFirstDiscovery(FileEntries(Flatten(c, selected)), FileFields(c, selected))
    ensures forall e :: e in FileEntries(Flatten(c, selected)) <==>
      e.platform in selected && (e.name, e.config) in Fields(c, e.platform) && IsFileEntry(e)
    ensures forall i, j :: 0 <= i < j < |FileFields(c, selected)| ==> FileFields(c, selected)[i].name != FileFields(c, selected)[j].name
  {
    var es := FileEntries(Flatten(c, selected));
    FirstByNameIsFirstDiscovery(es);
    FirstDiscoveryNoDuplicates(es, FirstByName(es));
    forall e ensures e in es <==> e.platform in selected && (e.name, e.config) in Fields(c, e.platform) && IsFileEntry(e) {
      FileEntriesMembership(Flatten(c, selected), e);
      FlattenMembership(c, selected, e);
    }
  }

  /** `renderCheckboxFields` renders, for every name some selected platform declares
      as a checkbox, that name's first checkbox declaration, once, in the order the
      names are first met; nothing else. */
  lemma CheckboxFieldsSpec(c: Copy, selected: seq<PlatformKey>)
    ensures IsFirstDiscovery(CheckboxEntries(Flatten(c, selected)), CheckboxFields(c, selected))
    ensures forall e :: e in CheckboxEntries(Flatten(c, selected)) <==>
      e.platform in selected && (e.name, e.config) in Fields(c, e.platform) && IsCheckboxEntry(e)
    ensures forall i, j :: 0 <= i < j < |CheckboxFields(c, selected)| ==> CheckboxFields(c, selected)[i].name != CheckboxFields(c, selected)[j].name
  {
    var es := CheckboxEntries(Flatten(c, selected));
    FirstByNameIsFirstDiscovery(es);
    FirstDiscoveryNoDuplicates(es, FirstByName(es));
    forall e ensures e in es <==> e.platform in selected && (e.name, e.config) in Fields(c, e.platform) && IsCheckboxEntry(e) {
      CheckboxEntriesMembership(Flatten(c, selected), e);
      FlattenMembership(c, selected, e);
    }
  }
}
