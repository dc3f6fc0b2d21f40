/** The `platforms` registry and `platformKeys` of src/utils/platformConfig.js.
    Its data differs from the TypeScript copy: Facebook text is optional; no
    field carries `type: 'file'`; Facebook and Instagram images have no
    `maxFiles`; the Facebook, Instagram, Twitter and Threads media fields accept
    videos as well as images; Reddit, TikTok and Discord declare
    their fields in another order (so their messages come in another order); and
    most placeholders and notes are worded differently. */
module RegistryJs {
  import opened Types

  /** `platforms[p]`. */
  function Platform(p: PlatformKey): PlatformConfig
  {
    match p
    case Facebook => FacebookConfig
    case Instagram => InstagramConfig
    case Twitter => TwitterConfig
    case Threads => ThreadsConfig
    case Bluesky => BlueskyConfig
    case Reddit => RedditConfig
    case Tiktok => TiktokConfig
    case Discord => DiscordConfig
  }

  const FacebookConfig: PlatformConfig :=
    PlatformConfig("Facebook", [
        ("text", Unset.(required := Some(false), maxLength := Some(63206), placeholder := Some("What's on your mind?"))),
        ("image", Unset.(required := Some(false), accept := Some("image/*,video/*"), multiple := Some(true))),
        ("link", Unset.(required := Some(false), placeholder := Some("https://...")))
      ])

  const InstagramConfig: PlatformConfig :=
    PlatformConfig("Instagram", [
        ("caption", Unset.(required := Some(false), maxLength := Some(2200), placeholder := Some("Write a caption..."))),
        ("image", Unset.(required := Some(true), accept := Some("image/*,video/*"), multiple := Some(true))),
        ("hashtags", Unset.(required := Some(false), maxLength := Some(30), placeholder := Some("#hashtag1 #hashtag2")))
      ])

  const TwitterConfig: PlatformConfig :=
    PlatformConfig("Twitter / X", [
        ("text", Unset.(required := Some(true), maxLength := Some(280), placeholder := Some("What's happening?"))),
        ("image", Unset.(required := Some(false), accept := Some("image/*,video/*"), multiple := Some(true), maxFiles := Some(4))),
        ("thread", Unset.(required := Some(false), fieldType := Some(BooleanType), labelText := Some("Post as thread")))
      ])

  const ThreadsConfig: PlatformConfig :=
    PlatformConfig("Threads", [
        ("text", Unset.(required := Some(true), maxLength := Some(500), placeholder := Some("Start a thread..."))),
        ("image", Unset.(required := Some(false), accept := Some("image/*,video/*"), multiple := Some(true), maxFiles := Some(10)))
      ])

  const BlueskyConfig: PlatformConfig :=
    PlatformConfig("BlueSky", [
        ("text", Unset.(required := Some(true), maxLength := Some(300), placeholder := Some("What's up?"))),
        ("image", Unset.(required := Some(false), accept := Some("image/*"), multiple := Some(true), maxFiles := Some(4)))
      ])

  const RedditConfig: PlatformConfig :=
    PlatformConfig("Reddit", [
        ("subreddit", Unset.(required := Some(true), placeholder := Some("r/subreddit"))),
        ("title", Unset.(required := Some(true), maxLength := Some(300), placeholder := Some("Post title"))),
        ("text", Unset.(required := Some(false), maxLength := Some(40000), placeholder := Some("Text content (optional)"))),
        ("link", Unset.(required := Some(false), placeholder := Some("https://... (text OR link, not both)")))
      ])

  const TiktokConfig: PlatformConfig :=
    PlatformConfig("TikTok", [
        ("video", Unset.(required := Some(true), accept := Some("video/*"))),
        ("caption", Unset.(required := Some(false), maxLength := Some(2200), placeholder := Some("Describe your video..."))),
        ("hashtags", Unset.(required := Some(false), placeholder := Some("#FYP #trending")))
      ])

  const DiscordConfig: PlatformConfig :=
    PlatformConfig("Discord", [
        ("webhookUrl", Unset.(required := Some(true), placeholder := Some("Discord webhook URL"))),
        ("text", Unset.(required := Some(false), maxLength := Some(2000), placeholder := Some("Message content"))),
        ("embed", Unset.(required := Some(false), fieldType := Some(BooleanType), labelText := Some("Use embed format"))),
        ("embedTitle", Unset.(required := Some(false), maxLength := Some(256), placeholder := Some("Embed title"))),
        ("embedDescription", Unset.(required := Some(false), maxLength := Some(4096), placeholder := Some("Embed description")))
      ])

  /** The `icon`, `color` and `notes` of `platforms[p]`. */
  function AppearanceOf(p: PlatformKey): Appearance
  {
    match p
    case Facebook => Appearance("\U{1F464}", "#1877F2",
      "Supports text, images, videos, and links. No character limit for text.")
    case Instagram => Appearance("\U{1F4F7}", "#E4405F",
      "Image or video required. Max 30 hashtags. Caption max 2,200 characters.")
    case Twitter => Appearance("\U{1F426}", "#1DA1F2",
      "Max 280 characters per tweet. Up to 4 images per tweet. Thread option for multiple tweets.")
    case Threads => Appearance("\U{1F9F5}", "#000000",
      "Max 500 characters. Up to 10 images/videos.")
    case Bluesky => Appearance("\U{1F98B}", "#0085FF",
      "Max 300 characters. Up to 4 images.")
    case Reddit => Appearance("\U{1F916}", "#FF4500",
      "Title required. Choose text OR link post. Max 300 chars for title.")
    case Tiktok => Appearance("\U{1F3B5}", "#000000",
      "Video required. Max 2,200 characters for caption.")
    case Discord => Appearance("\U{1F4AC}", "#5865F2",
      "Webhook URL required. Max 2,000 characters for message. Embeds support rich formatting.")
  }

  /** `platformKeys = Object.keys(platforms)`: the keys in the literal's order. */
  const PlatformKeys: seq<PlatformKey> :=
    [Facebook, Instagram, Twitter, Threads, Bluesky, Reddit, Tiktok, Discord]

  /** `Object.keys(platforms)` lists each of the eight platforms exactly once. */
  lemma PlatformKeysComplete()
    ensures |PlatformKeys| == 8 && NoDuplicates(PlatformKeys)
    ensures forall p :: p in PlatformKeys
  {
    forall p ensures p in PlatformKeys {
      match p
      case Facebook => assert PlatformKeys[0] == p;
      case Instagram => assert PlatformKeys[1] == p;
      case Twitter => assert PlatformKeys[2] == p;
      case Threads => assert PlatformKeys[3] == p;
      case Bluesky => assert PlatformKeys[4] == p;
      case Reddit => assert PlatformKeys[5] == p;
      case Tiktok => assert PlatformKeys[6] == p;
      case Discord => assert PlatformKeys[7] == p;
    }
  }
}
