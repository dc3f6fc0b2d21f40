/** The `platforms` registry and `platformKeys` of src/utils/platformConfig.ts. */
module RegistryTs {
  import opened Types

  /** `platforms[p]`: total over the eight keys, as `Record<PlatformKey, PlatformConfig>`. */
  function Platform(p: PlatformKey): PlatformConfig
  {
    match p
    case Facebook => FacebookConfig
    case Instagram => InstagramConfig
    case Twitter => TwitterConfig
    case Threads => ThreadsConfig
    case Bluesky => BlueskyConfig
    case Reddit => RedditConfig
    case Tiktok => TiktokConfig
    case Discord => DiscordConfig
  }

  const FacebookConfig: PlatformConfig :=
    PlatformConfig("Facebook", [
        ("text", Unset.(required := Some(true), maxLength := Some(63206), placeholder := Some("What's on your mind?"))),
        ("image", Unset.(fieldType := Some(FileType), accept := Some("image/*"), multiple := Some(true), maxFiles := Some(10))),
        ("link", Unset.(placeholder := Some("https://example.com")))
      ])

  const InstagramConfig: PlatformConfig :=
    PlatformConfig("Instagram", [
        ("caption", Unset.(maxLength := Some(2200), placeholder := Some("Write a caption..."))),
        ("image", Unset.(fieldType := Some(FileType), required := Some(true), accept := Some("image/*"), multiple := Some(true), maxFiles := Some(10))),
        ("hashtags", Unset.(maxLength := Some(30), placeholder := Some("#example #hashtag")))
      ])

  const TwitterConfig: PlatformConfig :=
    PlatformConfig("Twitter / X", [
        ("text", Unset.(required := Some(true), maxLength := Some(280), placeholder := Some("What's happening?"))),
        ("image", Unset.(fieldType := Some(FileType), accept := Some("image/*"), multiple := Some(true), maxFiles := Some(4))),
        ("thread", Unset.(fieldType := Some(BooleanType), labelText := Some("Post as thread")))
      ])

  const ThreadsConfig: PlatformConfig :=
    PlatformConfig("Threads", [
        ("text", Unset.(required := Some(true), maxLength := Some(500), placeholder := Some("Start a thread..."))),
        ("image", Unset.(fieldType := Some(FileType), accept := Some("image/*"), multiple := Some(true), maxFiles := Some(10)))
      ])

  const BlueskyConfig: PlatformConfig :=
    PlatformConfig("BlueSky", [
        ("text", Unset.(required := Some(true), maxLength := Some(300), placeholder := Some("What's up?"))),
        ("image", Unset.(fieldType := Some(FileType), accept := Some("image/*"), multiple := Some(true), maxFiles := Some(4)))
      ])

  const RedditConfig: PlatformConfig :=
    PlatformConfig("Reddit", [
        ("title", Unset.(required := Some(true), maxLength := Some(300), placeholder := Some("An interesting title"))),
        ("text", Unset.(maxLength := Some(40000), placeholder := Some("Text (optional)"))),
        ("subreddit", Unset.(required := Some(true), placeholder := Some("r/subreddit"))),
        ("link", Unset.(placeholder := Some("https://example.com (for link posts)")))
      ])

  const TiktokConfig: PlatformConfig :=
    PlatformConfig("TikTok", [
        ("caption", Unset.(maxLength := Some(2200), placeholder := Some("Describe your video..."))),
        ("video", Unset.(fieldType := Some(FileType), required := Some(true), accept := Some("video/*"))),
        ("hashtags", Unset.(placeholder := Some("#fyp #trending")))
      ])

  const DiscordConfig: PlatformConfig :=
    PlatformConfig("Discord", [
        ("text", Unset.(maxLength := Some(2000), placeholder := Some("Message content"))),
        ("webhookUrl", Unset.(required := Some(true), placeholder := Some("https://discord.com/api/webhooks/..."))),
        ("embed", Unset.(fieldType := Some(BooleanType), labelText := Some("Use embed"))),
        ("embedTitle", Unset.(maxLength := Some(256), placeholder := Some("Embed title (if using embed)"))),
        ("embedDescription", Unset.(maxLength := Some(4096), placeholder := Some("Embed description (if using embed)")))
      ])

  /** The `icon`, `color` and `notes` of `platforms[p]`. */
  function AppearanceOf(p: PlatformKey): Appearance
  {
    match p
    case Facebook => Appearance("\U{1F464}", "#1877F2",
      "Text posts can be up to 63,206 characters. Up to 10 images supported.")
    case Instagram => Appearance("\U{1F4F7}", "#E4405F",
      "Image required. Captions up to 2,200 characters. Max 30 hashtags.")
    case Twitter => Appearance("\U{1F426}", "#1DA1F2",
      "Max 280 characters per tweet. Up to 4 images. Thread option for longer posts.")
    case Threads => Appearance("\U{1F9F5}", "#000000",
      "Max 500 characters. Up to 10 images supported.")
    case Bluesky => Appearance("\U{1F98B}", "#0085ff",
      "Max 300 characters. Up to 4 images supported.")
    case Reddit => Appearance("\U{1F916}", "#FF4500",
      "Title required (max 300 chars). Text up to 40,000 characters. Specify subreddit.")
    case Tiktok => Appearance("\U{1F3B5}", "#000000",
      "Video required. Caption up to 2,200 characters. Hashtags recommended.")
    case Discord => Appearance("\U{1F4AC}", "#5865F2",
      "Webhook URL required. Message up to 2,000 chars. Embeds support rich formatting.")
  }

  /** `platformKeys`, in the declared order. */
  const PlatformKeys: seq<PlatformKey> :=
    [Facebook, Instagram, Twitter, Threads, Bluesky, Reddit, Tiktok, Discord]

  /** The registry holds exactly eight platforms, each listed once in `platformKeys`. */
  lemma PlatformKeysComplete()
    ensures |PlatformKeys| == 8 && NoDuplicates(PlatformKeys)
    ensures forall p :: p in PlatformKeys
  {
    forall p ensures p in PlatformKeys {
      match p
      case Facebook => assert PlatformKeys[0] == p;
      case Instagram => assert PlatformKeys[1] == p;
      case Twitter => assert PlatformKeys[2] == p;
      case Threads => assert PlatformKeys[3] == p;
      case Bluesky => assert PlatformKeys[4] == p;
      case Reddit => assert PlatformKeys[5] == p;
      case Tiktok => assert PlatformKeys[6] == p;
      case Discord => assert PlatformKeys[7] == p;
    }
  }
}
