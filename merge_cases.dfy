/** The merge passes on one concrete selection of the JavaScript registry:
    Facebook then Twitter. */
module MergeCases {
  import opened Types
  import opened Registry
  import opened Discovery
  import opened Merge
  import RegistryJs
  import ValidateJsCases

  /** The Facebook `text` declaration, the first `text` met in the walk. */
  const FacebookText: Entry := Entry(Facebook, "text", RegistryJs.FacebookConfig.fields[0].1)
  const FacebookImage: Entry := Entry(Facebook, "image", RegistryJs.FacebookConfig.fields[1].1)
  const FacebookLink: Entry := Entry(Facebook, "link", RegistryJs.FacebookConfig.fields[2].1)
  const TwitterThread: Entry := Entry(Twitter, "thread", RegistryJs.TwitterConfig.fields[2].1)

  /** Facebook's optional `text` and Twitter's required one merge into one input used
      by both platforms, required because Twitter requires it, and limited to
      Twitter's 280 characters rather than Facebook's 63,206. */
  lemma FacebookTwitterText()
    ensures var m := MergeField(JsCopy, [Facebook, Twitter], FacebookText);
      && m.usingPlatforms == [Facebook, Twitter]
      && m.required
      && m.maxLength == Some(280)
      && m.placeholder == Some("What's on your mind?")
  {
    var sel := [Facebook, Twitter];
    assert Uses(JsCopy, Facebook, "text") && Uses(JsCopy, Twitter, "text");
    assert UsingPlatforms(JsCopy, sel, "text") == [Facebook, Twitter] by {
      FilterPair(Facebook, Twitter, p => Uses(JsCopy, p, "text"));
    }
    assert !RequiresField(JsCopy, Facebook, "text");
    assert RequiresField(JsCopy, Twitter, "text");
    assert AnyRequired(JsCopy, sel, "text");
    assert DeclaredLimits(JsCopy, sel, "text") == [63206, 280] by {
      assert sel[1..] == [Twitter];
      assert sel[1..][1..] == [];
    }
    assert MinLength([63206, 280]) == Some(280) by {
      assert [63206, 280][1..] == [280];
      assert [280][1..] == [];
    }
  }

  /** Only Facebook declares `link`, optionally and without a limit. */
  lemma FacebookTwitterLink(e: Entry)
    requires e.platform == Facebook && e.name == "link"
    ensures var m := MergeField(JsCopy, [Facebook, Twitter], e);
      && m.usingPlatforms == [Facebook]
      && !m.required
      && m.maxLength.None?
  {
    var sel := [Facebook, Twitter];
    assert UsingPlatforms(JsCopy, sel, "link") == [Facebook] by {
      assert Uses(JsCopy, Facebook, "link");
      TwitterHasNoLink();
      FilterPair(Facebook, Twitter, p => Uses(JsCopy, p, "link"));
    }
    assert DeclaredLimits(JsCopy, [Facebook], "link") == [] by {
      assert [Facebook][1..] == [];
    }
  }

  lemma TwitterHasNoLink()
    ensures !Uses(JsCopy, Twitter, "link")
  {
    assert forall i :: 0 <= i < |Fields(JsCopy, Twitter)| ==> Fields(JsCopy, Twitter)[i].0 != "link";
  }

  /** The kinds of the six declarations met when walking Facebook then Twitter. */
  lemma FacebookTwitterKinds()
    ensures var es := Flatten(JsCopy, [Facebook, Twitter]);
      && |es| == 6
      && IsTextEntry(es[0]) && IsFileEntry(es[1]) && IsTextEntry(es[2])
      && IsTextEntry(es[3]) && IsFileEntry(es[4]) && IsCheckboxEntry(es[5])
      && !IsCheckboxEntry(es[1]) && !IsCheckboxEntry(es[4]) && !IsFileEntry(es[5])
      && es[0] == FacebookText && es[1] == FacebookImage && es[2] == FacebookLink && es[5] == TwitterThread
      && es[1].name == es[4].name
  {
    var sel := [Facebook, Twitter];
    var fb := EntriesOf(Facebook, RegistryJs.FacebookConfig.fields);
    var tw := EntriesOf(Twitter, RegistryJs.TwitterConfig.fields);
    assert Flatten(JsCopy, sel) == fb + tw by {
      assert sel[..1] == [Facebook];
      assert [Facebook][..0] == [];
    }
  }

  /** Facebook then Twitter, text pass: the merged `text` and `link` inputs, in
      that order; `image` and `thread` are left to the other passes. */
  lemma FacebookTwitterTextFields()
    ensures TextFields(JsCopy, [Facebook, Twitter])
      == [MergeField(JsCopy, [Facebook, Twitter], FacebookText), MergeField(JsCopy, [Facebook, Twitter], FacebookLink)]
  {
    var sel := [Facebook, Twitter];
    var es := Flatten(JsCopy, sel);
    FacebookTwitterKinds();
    FacebookTwitterFirst(es);
    FacebookTwitterTexts(Merger(JsCopy, sel), es[0], es[1], es[2], es[5]);
  }

  /** Facebook then Twitter, media pass: one file input, Facebook's `image`, which
      also serves Twitter's `image`. */
  lemma FacebookTwitterFileFields()
    ensures FileFields(JsCopy, [Facebook, Twitter]) == [FacebookImage]
  {
    var es := Flatten(JsCopy, [Facebook, Twitter]);
    FacebookTwitterKinds();
    assert es == [es[0], es[1], es[2], es[3], es[4], es[5]];
    FacebookTwitterFiles(es[0], es[1], es[2], es[3], es[4], es[5]);
  }

  /** Facebook then Twitter, options pass: one checkbox, Twitter's `thread`. */
  lemma FacebookTwitterCheckboxFields()
    ensures CheckboxFields(JsCopy, [Facebook, Twitter]) == [TwitterThread]
  {
    var es := Flatten(JsCopy, [Facebook, Twitter]);
    FacebookTwitterKinds();
    assert es == [es[0], es[1], es[2], es[3], es[4], es[5]];
    FacebookTwitterCheckboxes(es[0], es[1], es[2], es[3], es[4], es[5]);
  }

  lemma FacebookTwitterFirst(es: seq<Entry>)
    requires es == Flatten(JsCopy, [Facebook, Twitter])
    ensures FirstByName(es) == [es[0], es[1], es[2], es[5]]
  {
    ValidateJsCases.FacebookTwitterWalk();
    ValidateJsCases.FacebookTwitterDiscovery(es);
  }

  /** The text pass over one more text declaration. */
  lemma TextsThenText(s: seq<Entry>, ms: seq<MergedField>, e: Entry, merge: Entry -> MergedField)
    requires Texts(s, merge) == ms && IsTextEntry(e)
    ensures Texts(s + [e], merge) == ms + [merge(e)]
  {
    TextsSnoc(s, e, merge);
  }

  /** The text pass over one more declaration that is not a text field. */
  lemma TextsThenOther(s: seq<Entry>, ms: seq<MergedField>, e: Entry, merge: Entry -> MergedField)
    requires Texts(s, merge) == ms && !IsTextEntry(e)
    ensures Texts(s + [e], merge) == ms
  {
    TextsSnoc(s, e, merge);
  }

  lemma FacebookTwitterTexts(merge: Entry -> MergedField, e0: Entry, e1: Entry, e2: Entry, e5: Entry)
    requires IsTextEntry(e0) && !IsTextEntry(e1) && IsTextEntry(e2) && !IsTextEntry(e5)
    ensures Texts([e0, e1, e2, e5], merge) == [merge(e0), merge(e2)]
  {
    var m0, m2 := merge(e0), merge(e2);
    var s0: seq<Entry> := [];
    var s1 := s0 + [e0];
    var s2 := s1 + [e1];
    var s3 := s2 + [e2];
    assert Texts(s0, merge) == [];
    TextsThenText(s0, [], e0, merge);
    assert [] + [m0] == [m0];
    TextsThenOther(s1, [m0], e1, merge);
    TextsThenText(s2, [m0], e2, merge);
    assert [m0] + [m2] == [m0, m2];
    TextsThenOther(s3, [m0, m2], e5, merge);
    assert s3 + [e5] == [e0, e1, e2, e5];
  }

  /** The media pass over text, file, text: the file input alone. */
  lemma FilesTextFileText(e0: Entry, e1: Entry, e2: Entry)
    requires !IsFileEntry(e0) && IsFileEntry(e1) && !IsFileEntry(e2)
    ensures FileEntries([e0, e1, e2]) == [e1]
  {
    var s2 := [e0, e1];
    assert FileEntries(s2) == [e1] by {
      assert FileEntries([e0]) == [] by {
        FileEntriesSnoc([], e0);
        assert [] + [e0] == [e0];
      }
      FileEntriesSnoc([e0], e1);
      assert [e0] + [e1] == s2;
    }
    FileEntriesSnoc(s2, e2);
    assert s2 + [e2] == [e0, e1, e2];
  }

  /** Three more declarations of which only the middle one is a file input. */
  lemma FilesThenTextFileOther(s: seq<Entry>, f: Entry, e3: Entry, e4: Entry, e5: Entry)
    requires FileEntries(s) == [f]
    requires !IsFileEntry(e3) && IsFileEntry(e4) && !IsFileEntry(e5)
    ensures FileEntries(s + [e3] + [e4] + [e5]) == [f, e4]
  {
    FileEntriesSnoc(s, e3);
    FileEntriesSnoc(s + [e3], e4);
    FileEntriesSnoc(s + [e3] + [e4], e5);
  }

  lemma FacebookTwitterFiles(e0: Entry, e1: Entry, e2: Entry, e3: Entry, e4: Entry, e5: Entry)
    requires IsFileEntry(e1) && IsFileEntry(e4) && e1.name == e4.name
    requires IsTextEntry(e0) && IsTextEntry(e2) && IsTextEntry(e3) && !IsFileEntry(e5)
    ensures FirstByName(FileEntries([e0, e1, e2, e3, e4, e5])) == [e1]
  {
    var three := [e0, e1, e2];
    assert FileEntries([e0, e1, e2, e3, e4, e5]) == [e1, e4] by {
      FilesTextFileText(e0, e1, e2);
      FilesThenTextFileOther(three, e1, e3, e4, e5);
      assert three + [e3] + [e4] + [e5] == [e0, e1, e2, e3, e4, e5];
    }
    assert FirstByName([e1]) == [e1] by {
      ValidateJsCases.DiscoveryStep([], e1, [], {});
      assert [] + [e1] == [e1];
    }
    ValidateJsCases.DiscoveryStep([e1], e4, [e1], {e1.name});
    assert [e1] + [e4] == [e1, e4];
  }

  /** The options pass over three declarations none of which is a checkbox. */
  lemma NoCheckboxes(e0: Entry, e1: Entry, e2: Entry)
    requires !IsCheckboxEntry(e0) && !IsCheckboxEntry(e1) && !IsCheckboxEntry(e2)
    ensures CheckboxEntries([e0, e1, e2]) == []
  {
    assert CheckboxEntries([e0]) == [] by {
      CheckboxEntriesSnoc([], e0);
      assert [] + [e0] == [e0];
    }
    assert CheckboxEntries([e0, e1]) == [] by {
      CheckboxEntriesSnoc([e0], e1);
      assert [e0] + [e1] == [e0, e1];
    }
    CheckboxEntriesSnoc([e0, e1], e2);
    assert [e0, e1] + [e2] == [e0, e1, e2];
  }

  lemma FacebookTwitterCheckboxes(e0: Entry, e1: Entry, e2: Entry, e3: Entry, e4: Entry, e5: Entry)
    requires IsCheckboxEntry(e5)
    requires IsTextEntry(e0) && !IsCheckboxEntry(e1) && IsTextEntry(e2)
    requires IsTextEntry(e3) && !IsCheckboxEntry(e4)
    ensures FirstByName(CheckboxEntries([e0, e1, e2, e3, e4, e5])) == [e5]
  {
    var three := [e0, e1, e2];
    assert CheckboxEntries([e0, e1, e2, e3, e4, e5]) == [e5] by {
      NoCheckboxes(e0, e1, e2);
      CheckboxEntriesSnoc(three, e3);
      CheckboxEntriesSnoc(three + [e3], e4);
      CheckboxEntriesSnoc(three + [e3] + [e4], e5);
      assert three + [e3] + [e4] + [e5] == [e0, e1, e2, e3, e4, e5];
    }
    ValidateJsCases.DiscoveryStep([], e5, [], {});
    assert [] + [e5] == [e5];
  }
}
