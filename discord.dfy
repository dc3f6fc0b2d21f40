/** The Discord adapter (src/services/discord.ts): a webhook URL taken from the
    configuration, the credential check, the webhook payload and the mapping of
    the webhook's answer to a `PostResult`. The HTTP exchange itself is outside
    the model: `Request` says what would be sent and `Post` takes what came back. */
module Discord {
  import opened Types
  import opened Strings
  import opened ServiceBase

  datatype DiscordService = DiscordService(webhookUrl: string)

  /** `new DiscordService(config)`: `config.webhookUrl || ''`. */
  function NewDiscordService(config: ServiceConfig): (s: DiscordService)
    ensures Given(config.webhookUrl) ==> s.webhookUrl == config.webhookUrl.value
    ensures !Given(config.webhookUrl) ==> s.webhookUrl == []
  {
    DiscordService(Or(config.webhookUrl, ""))
  }

  const WebhookPath: string := "discord.com/api/webhooks"

  /** `validateCredentials`: a non-empty URL that mentions Discord's webhook path. */
  predicate ValidateCredentials(s: DiscordService)
  {
    s.webhookUrl != [] && Contains(s.webhookUrl, WebhookPath)
  }

  /** The embed colour, Discord blue. */
  const DiscordBlue: nat := 0x5865F2

  datatype Embed = Embed(title: Option<Value>, description: Option<Value>, color: nat)

  /** `DiscordWebhookPayload`; the content is whatever `data.text` holds. */
  datatype Payload = Payload(content: Option<Value>, embeds: Option<seq<Embed>>)

  /** The payload `post` sends: the text as content, and one embed exactly when the
      embed checkbox is ticked and a title or a description is filled in. */
  function BuildPayload(data: FormData): (p: Payload)
    ensures p.content == Lookup(data, "text")
    ensures p.embeds.Some? <==> TruthyAt(data, "embed") && (TruthyAt(data, "embedTitle") || TruthyAt(data, "embedDescription"))
    ensures p.embeds.Some? ==> p.embeds.value == [Embed(Lookup(data, "embedTitle"), Lookup(data, "embedDescription"), DiscordBlue)]
  {
    var embeds :=
      if TruthyAt(data, "embed") && (TruthyAt(data, "embedTitle") || TruthyAt(data, "embedDescription"))
      then Some([Embed(Lookup(data, "embedTitle"), Lookup(data, "embedDescription"), DiscordBlue)])
      else None;
    Payload(Lookup(data, "text"), embeds)
  }

  /** The `fetch` call: a JSON POST of the payload to the webhook URL. */
  datatype Request = Request(url: string, httpMethod: string, contentType: string, body: Payload)

  /** What `post` sends, if anything: nothing when the credentials are refused. */
  function RequestFor(s: DiscordService, data: FormData): (r: Option<Request>)
    ensures r.Some? <==> ValidateCredentials(s)
    ensures r.Some? ==> r.value == Request(s.webhookUrl, "POST", "application/json", BuildPayload(data))
  {
    if ValidateCredentials(s) then Some(Request(s.webhookUrl, "POST", "application/json", BuildPayload(data))) else None
  }

  /** How the request ended: a response (`ok`, `status`, the body text) or a
      rejected `fetch`. */
  datatype FetchOutcome = Response(ok: bool, status: nat, text: string) | FetchFailed(thrown: Thrown)

  const NotConfiguredMessage: string := "Discord webhook URL not configured or invalid"

  function ApiErrorMessage(status: nat, text: string): string
  {
    "Discord API returned " + NatToString(status) + ": " + text
  }

  /** `post`, given the outcome of its request and the clock reading `now`. */
  function Post(s: DiscordService, data: FormData, outcome: FetchOutcome, now: nat): (r: PostResult)
    ensures r.platform == Discord && WellFormed(r)
    ensures r.success <==> ValidateCredentials(s) && outcome.Response? && outcome.ok
    ensures r.success ==> r.postId == Some("discord_" + NatToString(now)) && r.url.None?
  {
    if !ValidateCredentials(s) then HandleError(Discord, ErrorObject(NotConfiguredMessage))
    else match outcome
      case FetchFailed(thrown) => HandleError(Discord, thrown)
      case Response(ok, status, text) =>
        if !ok then HandleError(Discord, ErrorObject(ApiErrorMessage(status, text)))
        else PostResult(true, Discord, Some("discord_" + NatToString(now)), None, None)
  }

  /** The failure messages: an unusable webhook URL, a non-2xx answer (naming the
      status and the body), or the rejection of `fetch` passed through. */
  lemma PostErrors(s: DiscordService, data: FormData, outcome: FetchOutcome, now: nat)
    ensures var r := Post(s, data, outcome, now);
      && (!ValidateCredentials(s) ==> r.error == Some(NotConfiguredMessage))
      && (ValidateCredentials(s) && outcome.Response? && !outcome.ok ==>
            r.error == Some(ApiErrorMessage(outcome.status, outcome.text))
            && Contains(r.error.value, NatToString(outcome.status)))
      && (ValidateCredentials(s) && outcome.FetchFailed? ==> r == HandleError(Discord, outcome.thrown))
  {
    if ValidateCredentials(s) && outcome.Response? && !outcome.ok {
      ContainsInfix("Discord API returned ", NatToString(outcome.status), ": " + outcome.text);
      assert ApiErrorMessage(outcome.status, outcome.text)
        == "Discord API returned " + NatToString(outcome.status) + (": " + outcome.text);
    }
  }

  /** Two successful posts at different instants get different post ids. */
  lemma PostIdsDistinct(s: DiscordService, data: FormData, outcome: FetchOutcome, t1: nat, t2: nat)
    requires Post(s, data, outcome, t1).success && t1 != t2
    ensures Post(s, data, outcome, t1).postId != Post(s, data, outcome, t2).postId
  {
    if Post(s, data, outcome, t1).postId == Post(s, data, outcome, t2).postId {
      CancelAffixes("discord_", NatToString(t1), NatToString(t2), "");
      NatToStringInjective(t1, t2);
    }
  }

  /** A configuration without a webhook URL yields an adapter that sends nothing
      and fails with the not-configured message. */
  lemma MissingWebhookFails(data: FormData, outcome: FetchOutcome, now: nat)
    ensures RequestFor(NewDiscordService(EmptyConfig), data).None?
    ensures Post(NewDiscordService(EmptyConfig), data, outcome, now).error == Some(NotConfiguredMessage)
  {
  }

  /** The URL of a real webhook is accepted. */
  lemma WebhookUrlAccepted()
    ensures ValidateCredentials(DiscordService("https://discord.com/api/webhooks/123/abc"))
  {
    assert "https://discord.com/api/webhooks/123/abc" == "https://" + WebhookPath + "/123/abc";
    ContainsInfix("https://", WebhookPath, "/123/abc");
  }

  /** A URL on another host is refused. */
  lemma OtherHostRefused()
    ensures !ValidateCredentials(DiscordService("https://invalid.com"))
  {
    ShortDoesNotContain("https://invalid.com", WebhookPath);
  }

  /** A post with the embed box ticked and a title and a description carries one
      embed with both, in Discord blue. */
  lemma EmbedRequested(text: string, title: string, description: string)
    requires title != []
    ensures var data := map["text" := Str(text), "embed" := Bool(true), "embedTitle" := Str(title), "embedDescription" := Str(description)];
      BuildPayload(data) == Payload(Some(Str(text)), Some([Embed(Some(Str(title)), Some(Str(description)), DiscordBlue)]))
  {
  }

  /** Without the embed box ticked no embed is sent, whatever the title says. */
  lemma NoEmbedUnticked(data: FormData)
    requires !TruthyAt(data, "embed")
    ensures BuildPayload(data).embeds.None?
  {
  }
}
