/** The behaviour src/utils/__tests__/platformConfig.test.ts expects of the
    TypeScript `validatePost`, proved about the model for every input of the shape
    each test uses. */
module ValidateTsCases {
  import opened Types
  import opened Strings
  import opened RegistryTs
  import opened ValidateTs

  /** Unfolds the messages of a three-field platform. */
  lemma Unfold3(fields: seq<(string, FieldConfig)>, data: FormData)
    requires |fields| == 3
    ensures FieldsErrors(fields, data)
      == FieldErrors(fields[0].0, fields[0].1, Lookup(data, fields[0].0))
       + FieldErrors(fields[1].0, fields[1].1, Lookup(data, fields[1].0))
       + FieldErrors(fields[2].0, fields[2].1, Lookup(data, fields[2].0))
  {
    var two := fields[..2];
    assert fields[..|fields| - 1] == two;
    assert two[..|two| - 1] == [fields[0]];
    FieldsErrorsSingle(fields[0], data);
  }

  /** Unfolds the messages of a platform into its first two fields and the rest. */
  lemma Unfold2Rest(fields: seq<(string, FieldConfig)>, data: FormData)
    requires |fields| >= 2
    ensures FieldsErrors(fields, data)
      == FieldErrors(fields[0].0, fields[0].1, Lookup(data, fields[0].0))
       + FieldErrors(fields[1].0, fields[1].1, Lookup(data, fields[1].0))
       + FieldsErrors(fields[2..], data)
  {
    var two := fields[..2];
    assert fields == two + fields[2..];
    FieldsErrorsAppend(two, fields[2..], data);
    FieldsErrorsFront(two, data);
    FieldsErrorsSingle(two[1], data);
    assert two[1..] == [two[1]];
  }

  lemma TextRequired()
    ensures RequiredMessage("text") == "Text is required"
  {
    assert Capitalize("text") == "Text";
  }

  lemma ImageRequired()
    ensures RequiredMessage("image") == "Image is required"
  {
    assert Capitalize("image") == "Image";
  }

  lemma VideoRequired()
    ensures RequiredMessage("video") == "Video is required"
  {
    assert Capitalize("video") == "Video";
  }

  lemma WebhookUrlRequired()
    ensures RequiredMessage("webhookUrl") == "WebhookUrl is required"
  {
    assert Capitalize("webhookUrl") == "WebhookUrl";
  }

  lemma Print280()
    ensures NatToString(280) == "280"
  {
    assert NatToString(2) == "2";
    assert NatToString(28) == "28" by {
      assert 28 / 10 == 2 && 28 % 10 == 8;
    }
    assert 280 / 10 == 28 && 280 % 10 == 0;
  }

  lemma TextCapitalized()
    ensures Capitalize("text") == "Text"
  {
  }

  lemma ImageCapitalized()
    ensures Capitalize("image") == "Image"
  {
  }

  lemma TwitterLengthMessage()
    ensures LengthMessage("text", 280) == "Text" + " exceeds maximum length of " + "280" + " characters"
  {
    Print280();
    TextCapitalized();
  }

  lemma TwitterFilesMessage()
    ensures FilesMessage("image", 4) == "Image" + " exceeds maximum of " + "4" + " files"
  {
    ImageCapitalized();
    assert NatToString(4) == "4";
  }

  /** A non-blank Facebook text within the limit is all Facebook needs. */
  lemma FacebookTextOnlyIsValid(text: string)
    requires !TrimsToEmpty(text) && |text| <= 63206
    ensures Validate([Facebook], map["text" := Str(text)]) == map[]
  {
    var data := map["text" := Str(text)];
    assert PlatformErrors(Facebook, data) == [] by {
      Unfold3(FacebookConfig.fields, data);
    }
    ValidateOne(Facebook, data);
  }

  /** Instagram without an image reports exactly the missing image. */
  lemma InstagramWithoutImage(caption: string)
    requires |caption| <= 2200
    ensures Validate([Instagram], map["caption" := Str(caption)]) == map["instagram" := ["Image is required"]]
  {
    var data := map["caption" := Str(caption)];
    assert PlatformErrors(Instagram, data) == ["Image is required"] by {
      Unfold3(InstagramConfig.fields, data);
      ImageRequired();
    }
    ValidateOne(Instagram, data);
  }

  /** Twitter without a text (and without images) reports exactly the missing text. */
  lemma TwitterWithoutText(data: FormData)
    requires "text" !in data && "image" !in data
    ensures Validate([Twitter], data) == map["twitter" := ["Text is required"]]
  {
    assert PlatformErrors(Twitter, data) == ["Text is required"] by {
      Unfold3(TwitterConfig.fields, data);
      TextRequired();
    }
    ValidateOne(Twitter, data);
  }

  /** A text longer than 280 characters (the test uses 281 `a`s) exceeds Twitter's
      limit, and the only message says so. */
  lemma TwitterTextTooLong(text: string)
    requires |text| > 280 && !TrimsToEmpty(text)
    ensures Validate([Twitter], map["text" := Str(text)])
      == map["twitter" := ["Text" + " exceeds maximum length of " + "280" + " characters"]]
  {
    var data := map["text" := Str(text)];
    assert PlatformErrors(Twitter, data) == [LengthMessage("text", 280)] by {
      Unfold3(TwitterConfig.fields, data);
    }
    TwitterLengthMessage();
    ValidateOne(Twitter, data);
  }

  /** TikTok without a video reports exactly the missing video. */
  lemma TiktokWithoutVideo(caption: string)
    requires |caption| <= 2200
    ensures Validate([Tiktok], map["caption" := Str(caption)]) == map["tiktok" := ["Video is required"]]
  {
    var data := map["caption" := Str(caption)];
    assert PlatformErrors(Tiktok, data) == ["Video is required"] by {
      Unfold3(TiktokConfig.fields, data);
      VideoRequired();
    }
    ValidateOne(Tiktok, data);
  }

  /** Both selected platforms report on an empty form, each its own missing field. */
  lemma TwitterAndInstagramEmpty()
    ensures var errors := Validate([Twitter, Instagram], map[]);
      && "twitter" in errors && "instagram" in errors
      && errors["twitter"] == ["Text is required"]
      && errors["instagram"] == ["Image is required"]
  {
    assert PlatformErrors(Twitter, map[]) == ["Text is required"] by {
      Unfold3(TwitterConfig.fields, map[]);
      TextRequired();
    }
    assert PlatformErrors(Instagram, map[]) == ["Image is required"] by {
      Unfold3(InstagramConfig.fields, map[]);
      ImageRequired();
    }
    ValidateAt([Twitter, Instagram], map[], Instagram);
    ValidateAt([Twitter, Instagram], map[], Twitter);
  }

  /** A non-blank webhook URL and a message within the limit are all Discord needs. */
  lemma DiscordWithWebhookIsValid(url: string, text: string)
    requires !TrimsToEmpty(url) && |text| <= 2000
    ensures Validate([Discord], map["webhookUrl" := Str(url), "text" := Str(text)]) == map[]
  {
    var data := map["webhookUrl" := Str(url), "text" := Str(text)];
    var f := DiscordConfig.fields;
    assert FieldsErrors(f[2..], data) == [] by {
      Unfold3(f[2..], data);
    }
    assert PlatformErrors(Discord, data) == [] by {
      Unfold2Rest(f, data);
    }
    ValidateOne(Discord, data);
  }

  /** Discord without a webhook URL reports exactly the missing URL. */
  lemma DiscordWithoutWebhook(text: string)
    requires |text| <= 2000
    ensures Validate([Discord], map["text" := Str(text)]) == map["discord" := ["WebhookUrl is required"]]
  {
    var data := map["text" := Str(text)];
    var f := DiscordConfig.fields;
    assert FieldsErrors(f[2..], data) == [] by {
      Unfold3(f[2..], data);
    }
    assert PlatformErrors(Discord, data) == ["WebhookUrl is required"] by {
      Unfold2Rest(f, data);
      WebhookUrlRequired();
    }
    ValidateOne(Discord, data);
  }

  /** This copy has no Reddit rule: a complete post with both a text and a link
      is accepted. */
  lemma RedditTextAndLinkAccepted(subreddit: string, title: string, text: string, link: string)
    requires !TrimsToEmpty(subreddit) && !TrimsToEmpty(title) && |title| <= 300 && |text| <= 40000
    ensures Validate([Reddit], map["subreddit" := Str(subreddit), "title" := Str(title),
                                    "text" := Str(text), "link" := Str(link)]) == map[]
  {
    var data := map["subreddit" := Str(subreddit), "title" := Str(title),
                    "text" := Str(text), "link" := Str(link)];
    var f := RedditConfig.fields;
    assert FieldsErrors(f[2..], data) == [] by {
      FieldsErrorsFront(f[2..], data);
      FieldsErrorsSingle(f[3], data);
      assert f[2..][1..] == [f[3]];
    }
    assert PlatformErrors(Reddit, data) == [] by {
      Unfold2Rest(f, data);
    }
    ValidateOne(Reddit, data);
  }

  /** A whitespace-only required text is reported as missing. */
  lemma TwitterBlankText(text: string)
    requires TrimsToEmpty(text) && |text| <= 280
    ensures Validate([Twitter], map["text" := Str(text)]) == map["twitter" := ["Text is required"]]
  {
    var data := map["text" := Str(text)];
    assert PlatformErrors(Twitter, data) == ["Text is required"] by {
      Unfold3(TwitterConfig.fields, data);
      TextRequired();
    }
    ValidateOne(Twitter, data);
  }

  /** More than four images exceed Twitter's limit. */
  lemma TwitterTooManyImages(text: string, images: seq<File>)
    requires !TrimsToEmpty(text) && |text| <= 280 && |images| > 4
    ensures Validate([Twitter], map["text" := Str(text), "image" := Files(images)])
      == map["twitter" := ["Image" + " exceeds maximum of " + "4" + " files"]]
  {
    var data := map["text" := Str(text), "image" := Files(images)];
    assert PlatformErrors(Twitter, data) == [FilesMessage("image", 4)] by {
      Unfold3(TwitterConfig.fields, data);
    }
    TwitterFilesMessage();
    ValidateOne(Twitter, data);
  }
}
