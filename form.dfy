/** The state and the event handlers of SocialPosterForm (.tsx and .jsx, identical
    in logic): the selected platforms, the form data, the displayed errors and the
    preview flag. The updaters handed to the React state setters are pure
    functions; the component is a class whose handlers apply them. */
module Form {
  import opened Types
  import opened Registry
  import Report
  import ValidateTs
  import ValidateJs

  /** The form data the component starts with: every text input empty, both
      checkboxes unchecked. */
  const InitialFormData: FormData := map[
    "text" := Str(""), "caption" := Str(""), "title" := Str(""), "subreddit" := Str(""),
    "link" := Str(""), "hashtags" := Str(""), "webhookUrl" := Str(""),
    "embedTitle" := Str(""), "embedDescription" := Str(""),
    "thread" := Bool(false), "embed" := Bool(false)]

  const NoPlatformMessage: string := "Please select at least one platform"

  /** `validatePost` of the chosen copy. */
  function Validate(c: Copy, selected: seq<PlatformKey>, data: FormData): ValidationErrors
  {
    match c
    case TsCopy => ValidateTs.Validate(selected, data)
    case JsCopy => ValidateJs.Validate(selected, data)
  }

  /** The messages one platform produces in the chosen copy. */
  function PlatformErrors(c: Copy, p: PlatformKey, data: FormData): seq<string>
  {
    match c
    case TsCopy => ValidateTs.PlatformErrors(p, data)
    case JsCopy => ValidateJs.PlatformErrors(p, data)
  }

  /** `Validate` reports exactly the selected platforms with messages, each under its
      own key with its own messages. */
  lemma ValidateReport(c: Copy, selected: seq<PlatformKey>, data: FormData)
    ensures forall p :: KeyString(p) in Validate(c, selected, data) <==> p in selected && PlatformErrors(c, p, data) != []
    ensures forall p :: KeyString(p) in Validate(c, selected, data) ==> Validate(c, selected, data)[KeyString(p)] == PlatformErrors(c, p, data)
    ensures forall k :: k in Validate(c, selected, data) ==> exists p :: p in selected && k == KeyString(p)
  {
    match c
    case TsCopy =>
      ValidateTs.ValidateKeys(selected, data);
      forall p ensures KeyString(p) in Validate(c, selected, data) <==> p in selected && PlatformErrors(c, p, data) != [] {
        ValidateTs.ValidateAt(selected, data, p);
      }
      forall p | KeyString(p) in Validate(c, selected, data)
        ensures Validate(c, selected, data)[KeyString(p)] == PlatformErrors(c, p, data)
      {
        ValidateTs.ValidateAt(selected, data, p);
      }
    case JsCopy =>
      ValidateJs.ValidateKeys(selected, data);
      forall p ensures KeyString(p) in Validate(c, selected, data) <==> p in selected && PlatformErrors(c, p, data) != [] {
        ValidateJs.ValidateAt(selected, data, p);
      }
      forall p | KeyString(p) in Validate(c, selected, data)
        ensures Validate(c, selected, data)[KeyString(p)] == PlatformErrors(c, p, data)
      {
        ValidateJs.ValidateAt(selected, data, p);
      }
  }

  // ---------------------------------------------------------------------------
  // handlePlatformToggle

  /** `prev.filter((p) => p !== platformKey)`. */
  function Without(s: seq<PlatformKey>, p: PlatformKey): (r: seq<PlatformKey>)
    ensures forall q :: q in r <==> q in s && q != p
    ensures |r| <= |s|
    decreases |s|
  {
    if s == [] then []
    else (if s[0] == p then [] else [s[0]]) + Without(s[1..], p)
  }

  /** The updater handed to `setSelectedPlatforms`: remove the platform when it is
      selected, otherwise append it. */
  function Toggled(prev: seq<PlatformKey>, p: PlatformKey): seq<PlatformKey>
  {
    if p in prev then Without(prev, p) else prev + [p]
  }

  lemma {:induction false} WithoutAbsent(s: seq<PlatformKey>, p: PlatformKey)
    requires p !in s
    ensures Without(s, p) == s
    decreases |s|
  {
    if s != [] {
      WithoutAbsent(s[1..], p);
      assert s == [s[0]] + s[1..];
    }
  }

  lemma {:induction false} WithoutAppended(s: seq<PlatformKey>, p: PlatformKey)
    ensures Without(s + [p], p) == Without(s, p)
    decreases |s|
  {
    if s == [] {
      assert Without([p], p) == [] + Without([p][1..], p);
    } else {
      WithoutAppended(s[1..], p);
      assert (s + [p])[1..] == s[1..] + [p];
    }
  }

  lemma {:induction false} WithoutNoDuplicates(s: seq<PlatformKey>, p: PlatformKey)
    requires NoDuplicates(s)
    ensures NoDuplicates(Without(s, p))
    decreases |s|
  {
    if s != [] {
      TailNoDuplicates(s);
      WithoutNoDuplicates(s[1..], p);
      var rest := Without(s[1..], p);
      if s[0] != p {
        ConsNoDuplicates(s[0], rest);
      } else {
        assert [] + rest == rest;
      }
    }
  }

  lemma TailNoDuplicates(s: seq<PlatformKey>)
    requires s != [] && NoDuplicates(s)
    ensures NoDuplicates(s[1..]) && s[0] !in s[1..]
  {
    forall i, j | 0 <= i < j < |s[1..]| ensures s[1..][i] != s[1..][j] {
      assert s[1..][i] == s[i + 1] && s[1..][j] == s[j + 1];
    }
    forall k | 0 <= k < |s[1..]| ensures s[1..][k] != s[0] {
      assert s[1..][k] == s[k + 1];
    }
  }

  lemma ConsNoDuplicates(x: PlatformKey, rest: seq<PlatformKey>)
    requires x !in rest && NoDuplicates(rest)
    ensures NoDuplicates([x] + rest)
  {
    var r := [x] + rest;
    forall i, j | 0 <= i < j < |r| ensures r[i] != r[j] {
      if i == 0 {
        assert r[j] == rest[j - 1];
      } else {
        assert r[i] == rest[i - 1] && r[j] == rest[j - 1];
      }
    }
  }

  /** Toggling flips the membership of the toggled platform and of no other. */
  lemma ToggleMembership(prev: seq<PlatformKey>, p: PlatformKey, q: PlatformKey)
    ensures q in Toggled(prev, p) <==> if q == p then p !in prev else q in prev
  {
  }

  /** The selection never holds a platform twice. */
  lemma ToggleNoDuplicates(prev: seq<PlatformKey>, p: PlatformKey)
    requires NoDuplicates(prev)
    ensures NoDuplicates(Toggled(prev, p))
  {
    if p in prev {
      WithoutNoDuplicates(prev, p);
    } else {
      var r := prev + [p];
      forall i, j | 0 <= i < j < |r| ensures r[i] != r[j] {
        if j == |prev| {
          assert r[i] == prev[i];
        }
      }
    }
  }

  /** Selecting an unselected platform and deselecting it again restores the
      selection exactly. */
  lemma ToggleTwiceAbsent(prev: seq<PlatformKey>, p: PlatformKey)
    requires p !in prev
    ensures Toggled(Toggled(prev, p), p) == prev
  {
    WithoutAppended(prev, p);
    WithoutAbsent(prev, p);
  }

  /** Deselecting a selected platform and selecting it again keeps the same
      platforms but moves that one to the end. */
  lemma ToggleTwicePresent(prev: seq<PlatformKey>, p: PlatformKey)
    requires p in prev
    ensures Toggled(Toggled(prev, p), p) == Without(prev, p) + [p]
    ensures forall q :: q in Toggled(Toggled(prev, p), p) <==> q in prev
  {
  }

  // ---------------------------------------------------------------------------
  // handleInputChange

  /** The parts of a change event's target that the handler reads. */
  datatype InputEvent = InputEvent(name: string, value: string, inputType: string, checked: bool)

  /** `type === 'checkbox' ? checked : value`. */
  function InputValue(ev: InputEvent): (v: Value)
    ensures v.Bool? <==> ev.inputType == "checkbox"
    ensures v.Bool? ==> v.b == ev.checked
    ensures v.Str? ==> v.s == ev.value
  {
    if ev.inputType == "checkbox" then Bool(ev.checked) else Str(ev.value)
  }

  /** The updater handed to `setFormData`: `{ ...prev, [name]: ... }`. */
  function WithInput(prev: FormData, ev: InputEvent): FormData
  {
    prev[ev.name := InputValue(ev)]
  }

  /** An edit sets the named key to the input's value and leaves every other key,
      present or absent, as it was. */
  lemma InputChangeOnlyNamedKey(prev: FormData, ev: InputEvent)
    ensures WithInput(prev, ev).Keys == prev.Keys + {ev.name}
    ensures Lookup(WithInput(prev, ev), ev.name) == Some(InputValue(ev))
    ensures forall k :: k != ev.name ==> Lookup(WithInput(prev, ev), k) == Lookup(prev, k)
  {
  }

  // ---------------------------------------------------------------------------
  // handleSubmit

  /** What a submit does: show errors (replacing the displayed ones) or show the
      preview. */
  datatype Outcome = ShowErrors(errors: ValidationErrors) | ShowPreview

  function SubmitOutcome(c: Copy, selected: seq<PlatformKey>, data: FormData): Outcome
  {
    if |selected| == 0 then ShowErrors(map[GeneralKey := [NoPlatformMessage]])
    else
      var validationErrors := Validate(c, selected, data);
      if |validationErrors| > 0 then ShowErrors(validationErrors) else ShowPreview
  }

  /** A submit shows the preview exactly when some platform is selected and none of
      the selected platforms has a message. The `general` error appears exactly when
      nothing is selected, and then alone; otherwise the shown errors are exactly
      the selected platforms' non-empty message lists. */
  lemma SubmitSpec(c: Copy, selected: seq<PlatformKey>, data: FormData)
    ensures SubmitOutcome(c, selected, data).ShowPreview? <==>
      selected != [] && forall p :: p in selected ==> PlatformErrors(c, p, data) == []
    ensures selected == [] ==> SubmitOutcome(c, selected, data) == ShowErrors(map[GeneralKey := [NoPlatformMessage]])
    ensures selected != [] && SubmitOutcome(c, selected, data).ShowErrors? ==>
      var e := SubmitOutcome(c, selected, data).errors;
      && GeneralKey !in e
      && (exists p :: p in selected && PlatformErrors(c, p, data) != [])
      && (forall p :: KeyString(p) in e <==> p in selected && PlatformErrors(c, p, data) != [])
      && (forall p :: KeyString(p) in e ==> e[KeyString(p)] == PlatformErrors(c, p, data))
  {
    ValidateReport(c, selected, data);
    var v := Validate(c, selected, data);
    if selected != [] {
      if |v| > 0 {
        var k :| k in v;
        var p :| p in selected && k == KeyString(p);
        assert PlatformErrors(c, p, data) != [];
        KeyStringInjective(p, p);
        if GeneralKey in v {
          var q :| q in selected && GeneralKey == KeyString(q);
          KeyStringInjective(q, q);
        }
      } else {
        forall p | p in selected ensures PlatformErrors(c, p, data) == [] {
          assert KeyString(p) !in v;
        }
      }
    }
  }

  // ---------------------------------------------------------------------------
  // The component

  class PosterForm {
    /** Which registry and validator the component is built against. */
    const copy: Copy
    var selectedPlatforms: seq<PlatformKey>
    var formData: FormData
    var errors: ValidationErrors
    var showPreview: bool

    /** The selection never holds a platform twice. */
    predicate Valid()
      reads this
    {
      NoDuplicates(selectedPlatforms)
    }

    constructor(c: Copy)
      ensures copy == c && Valid()
      ensures selectedPlatforms == [] && formData == InitialFormData
      ensures errors == map[] && !showPreview
    {
      copy := c;
      selectedPlatforms := [];
      formData := InitialFormData;
      errors := map[];
      showPreview := false;
    }

    /** `handlePlatformToggle`. */
    method HandlePlatformToggle(platformKey: PlatformKey)
      requires Valid()
      modifies this
      ensures Valid()
      ensures selectedPlatforms == Toggled(old(selectedPlatforms), platformKey)
      ensures errors == map[]
      ensures formData == old(formData) && showPreview == old(showPreview)
    {
      ToggleNoDuplicates(selectedPlatforms, platformKey);
      selectedPlatforms := Toggled(selectedPlatforms, platformKey);
      errors := map[];
    }

    /** `handleInputChange`. */
    method HandleInputChange(ev: InputEvent)
      requires Valid()
      modifies this
      ensures Valid()
      ensures formData == WithInput(old(formData), ev)
      ensures errors == map[]
      ensures selectedPlatforms == old(selectedPlatforms) && showPreview == old(showPreview)
    {
      formData := WithInput(formData, ev);
      errors := map[];
    }

    /** `handleSubmit`: the copy's `validatePost` runs only when a platform is
        selected; an error map with any key blocks the preview. */
    method HandleSubmit()
      requires Valid()
      modifies this
      ensures Valid()
      ensures selectedPlatforms == old(selectedPlatforms) && formData == old(formData)
      ensures match SubmitOutcome(copy, selectedPlatforms, formData)
        case ShowErrors(e) => errors == e && showPreview == old(showPreview)
        case ShowPreview => showPreview && errors == old(errors)
    {
      if |selectedPlatforms| == 0 {
        errors := map[GeneralKey := [NoPlatformMessage]];
        return;
      }
      var validationErrors;
      match copy {
        case TsCopy =>
          validationErrors := ValidateTs.ValidatePost(selectedPlatforms, formData);
        case JsCopy =>
          validationErrors := ValidateJs.ValidatePost(selectedPlatforms, formData);
      }
      if |validationErrors| > 0 {
        errors := validationErrors;
        return;
      }
      showPreview := true;
    }

    /** The preview's `onClose`. */
    method ClosePreview()
      requires Valid()
      modifies this
      ensures Valid()
      ensures !showPreview
      ensures selectedPlatforms == old(selectedPlatforms) && formData == old(formData) && errors == old(errors)
    {
      showPreview := false;
    }
  }
}
