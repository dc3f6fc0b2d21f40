/** The JavaScript copy on the inputs of src/utils/__tests__/platformConfig.test.ts,
    and the inputs on which the two copies of `validatePost` disagree. */
module ValidateJsCases {
  import opened Types
  import opened Strings
  import RegistryJs
  import Registry
  import opened Discovery
  import ValidateTs
  import ValidateTsCases
  import opened ValidateJs

  /** Unfolds the field messages of a three-field platform. */
  lemma Unfold3(fields: seq<(string, FieldConfig)>, data: FormData, pn: string)
    requires |fields| == 3
    ensures FieldsErrors(fields, data, pn)
      == FieldErrors(fields[0].0, fields[0].1, Lookup(data, fields[0].0), pn)
       + FieldErrors(fields[1].0, fields[1].1, Lookup(data, fields[1].0), pn)
       + FieldErrors(fields[2].0, fields[2].1, Lookup(data, fields[2].0), pn)
  {
    var two := fields[..2];
    assert fields[..|fields| - 1] == two;
    assert two[..|two| - 1] == [fields[0]];
    FieldsErrorsSingle(fields[0], data, pn);
  }

  /** An Instagram post without an image gets the field message and then the rule. */
  lemma InstagramWithoutImage(caption: string)
    requires |caption| <= 2200
    ensures Validate([Instagram], map["caption" := Str(caption)])
      == map["instagram" := ["image" + " is required for " + "Instagram", InstagramRuleMessage]]
  {
    var data := map["caption" := Str(caption)];
    var f := RegistryJs.InstagramConfig.fields;
    assert FieldsErrors(f, data, "Instagram") == [RequiredMessage("image", "Instagram")] by {
      Unfold3(f, data, "Instagram");
    }
    assert PlatformErrors(Instagram, data) == [RequiredMessage("image", "Instagram"), InstagramRuleMessage];
    ValidateOne(Instagram, data);
  }

  /** A TikTok post without a video gets the field message and then the rule. */
  lemma TiktokWithoutVideo(caption: string)
    requires |caption| <= 2200
    ensures Validate([Tiktok], map["caption" := Str(caption)])
      == map["tiktok" := ["video" + " is required for " + "TikTok", TiktokRuleMessage]]
  {
    var data := map["caption" := Str(caption)];
    var f := RegistryJs.TiktokConfig.fields;
    assert FieldsErrors(f, data, "TikTok") == [RequiredMessage("video", "TikTok")] by {
      Unfold3(f, data, "TikTok");
    }
    assert PlatformErrors(Tiktok, data) == [RequiredMessage("video", "TikTok"), TiktokRuleMessage];
    ValidateOne(Tiktok, data);
  }

  /** A complete Reddit post with both a text and a link is refused by the rule alone. */
  lemma RedditTextAndLink(subreddit: string, title: string, text: string, link: string)
    requires subreddit != [] && title != [] && |title| <= 300 && text != [] && |text| <= 40000 && link != []
    ensures Validate([Reddit], map["subreddit" := Str(subreddit), "title" := Str(title),
                                   "text" := Str(text), "link" := Str(link)])
      == map["reddit" := [RedditRuleMessage]]
  {
    var data := map["subreddit" := Str(subreddit), "title" := Str(title),
                    "text" := Str(text), "link" := Str(link)];
    var f := RegistryJs.RedditConfig.fields;
    assert FieldsErrors(f, data, "Reddit") == [] by {
      FieldsErrorsFront(f, data, "Reddit");
      Unfold3(f[1..], data, "Reddit");
    }
    assert PlatformErrors(Reddit, data) == [RedditRuleMessage];
    ValidateOne(Reddit, data);
  }

  lemma Names4(out: seq<Entry>, a: string, b: string, c: string, d: string)
    requires |out| == 4 && out[0].name == a && out[1].name == b && out[2].name == c && out[3].name == d
    ensures Names(out) == [a, b, c, d]
  {
  }

  /** `getRequiredFields([])` is empty. */
  lemma RequiredFieldsNone()
    ensures Names(FirstByName(Flatten(Registry.JsCopy, []))) == []
  {
  }

  /** The declarations met when walking Facebook then Twitter, by name. */
  lemma FacebookTwitterWalk()
    ensures var es := Flatten(Registry.JsCopy, [Facebook, Twitter]);
      && |es| == 6
      && es[0].name == "text" && es[1].name == "image" && es[2].name == "link"
      && es[3].name == "text" && es[4].name == "image" && es[5].name == "thread"
  {
    var fb := EntriesOf(Facebook, RegistryJs.FacebookConfig.fields);
    var tw := EntriesOf(Twitter, RegistryJs.TwitterConfig.fields);
    assert Flatten(Registry.JsCopy, [Facebook, Twitter]) == fb + tw by {
      assert [Facebook, Twitter][..1] == [Facebook];
      assert [Facebook][..0] == [];
    }
  }

  /** One more declaration in the walk, with what was discovered so far given. */
  lemma DiscoveryStep(es: seq<Entry>, e: Entry, out: seq<Entry>, seen: set<string>)
    requires FirstByName(es) == out && Seen(es) == seen
    ensures FirstByName(es + [e]) == (if e.name in seen then out else out + [e])
    ensures Seen(es + [e]) == seen + {e.name}
  {
    FirstByNameSnoc(es, e);
    SeenSnoc(es, e);
  }

  /** First discovery over a walk that starts text, image, link: all three are new. */
  lemma TextImageLink(e0: Entry, e1: Entry, e2: Entry)
    requires e0.name == "text" && e1.name == "image" && e2.name == "link"
    ensures FirstByName([e0, e1, e2]) == [e0, e1, e2]
    ensures Seen([e0, e1, e2]) == {"text", "image", "link"}
  {
    assert FirstByName([e0]) == [e0] && Seen([e0]) == {"text"} by {
      DiscoveryStep([], e0, [], {});
      assert [] + [e0] == [e0];
    }
    assert FirstByName([e0, e1]) == [e0, e1] && Seen([e0, e1]) == {"text", "image"} by {
      DiscoveryStep([e0], e1, [e0], {"text"});
      assert [e0] + [e1] == [e0, e1];
    }
    DiscoveryStep([e0, e1], e2, [e0, e1], {"text", "image"});
    assert [e0, e1] + [e2] == [e0, e1, e2];
  }

  /** First discovery over a walk that meets text, image, link, text, image, thread. */
  lemma FacebookTwitterDiscovery(es: seq<Entry>)
    requires |es| == 6
    requires es[0].name == "text" && es[1].name == "image" && es[2].name == "link"
    requires es[3].name == "text" && es[4].name == "image" && es[5].name == "thread"
    ensures FirstByName(es) == [es[0], es[1], es[2], es[5]]
  {
    assert es == [es[0], es[1], es[2]] + [es[3]] + [es[4]] + [es[5]];
    RepeatsThenThread([es[0], es[1], es[2]], es[3], es[4], es[5]);
  }

  lemma RepeatsThenThread(three: seq<Entry>, e3: Entry, e4: Entry, e5: Entry)
    requires |three| == 3 && three[0].name == "text" && three[1].name == "image" && three[2].name == "link"
    requires e3.name == "text" && e4.name == "image" && e5.name == "thread"
    ensures FirstByName(three + [e3] + [e4] + [e5]) == three + [e5]
  {
    var seen := {"text", "image", "link"};
    assert three == [three[0], three[1], three[2]];
    TextImageLink(three[0], three[1], three[2]);
    assert e3.name in seen && e4.name in seen && e5.name !in seen;
    DiscoveryStep(three, e3, three, seen);
    DiscoveryStep(three + [e3], e4, three, seen);
    DiscoveryStep(three + [e3] + [e4], e5, three, seen);
  }

  /** `getRequiredFields(['facebook', 'twitter'])`: the shared `text` and `image`
      appear once, at their Facebook position, and Twitter adds `thread`. */
  lemma RequiredFieldsFacebookTwitter()
    ensures Names(FirstByName(Flatten(Registry.JsCopy, [Facebook, Twitter]))) == ["text", "image", "link", "thread"]
  {
    var es := Flatten(Registry.JsCopy, [Facebook, Twitter]);
    FacebookTwitterWalk();
    FacebookTwitterDiscovery(es);
    Names4(FirstByName(es), "text", "image", "link", "thread");
  }

  // ---------------------------------------------------------------------------
  // Where the two copies disagree

  /** Facebook text is required in the TypeScript copy and optional in the
      JavaScript one, so an empty Facebook post passes only the latter. */
  lemma FacebookEmptyDiffers()
    ensures "facebook" in ValidateTs.Validate([Facebook], map[])
    ensures Validate([Facebook], map[]) == map[]
  {
    var f := RegistryJs.FacebookConfig.fields;
    assert FieldsErrors(f, map[], "Facebook") == [] by {
      Unfold3(f, map[], "Facebook");
    }
    assert PlatformErrors(Facebook, map[]) == [];
    ValidateTs.FieldsErrorsFront(ValidateTs.RegistryTs.FacebookConfig.fields, map[]);
    ValidateTs.ValidateAt([Facebook], map[], Facebook);
  }

  /** A whitespace-only Twitter text is refused by the TypeScript copy (which trims)
      and accepted by the JavaScript one (which only tests truthiness). */
  lemma BlankTextDiffers(text: string)
    requires text != [] && TrimsToEmpty(text) && |text| <= 280
    ensures "twitter" in ValidateTs.Validate([Twitter], map["text" := Str(text)])
    ensures Validate([Twitter], map["text" := Str(text)]) == map[]
  {
    var data := map["text" := Str(text)];
    ValidateTsCases.TwitterBlankText(text);
    var f := RegistryJs.TwitterConfig.fields;
    assert PlatformErrors(Twitter, data) == [] by {
      Unfold3(f, data, "Twitter / X");
    }
    ValidateOne(Twitter, data);
  }
}
