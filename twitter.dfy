/** The Twitter adapter (src/services/twitter.ts): a stand-in whose credential
    guard tests a pending promise, which is always truthy, so the guard never
    fires and every post succeeds (`Post`, which the factory calls, as the code
    does). `PostAwaited` is the post with the check awaited, as the guard means it. */
module Twitter {
  import opened Types
  import opened Strings
  import opened ServiceBase

  datatype TwitterService = TwitterService(apiKey: string, apiSecret: string, accessToken: string, accessSecret: string)

  /** `new TwitterService(config)`: each credential from the configuration, else
      from its build-time variable, else `''`. */
  function NewTwitterService(config: ServiceConfig, env: Env): (s: TwitterService)
    ensures Given(config.apiKey) ==> s.apiKey == config.apiKey.value
    ensures !Given(config.apiKey) && Given(env.twitterApiKey) ==> s.apiKey == env.twitterApiKey.value
    ensures !Given(config.apiKey) && !Given(env.twitterApiKey) ==> s.apiKey == []
    ensures Given(config.apiSecret) ==> s.apiSecret == config.apiSecret.value
    ensures !Given(config.apiSecret) && Given(env.twitterApiSecret) ==> s.apiSecret == env.twitterApiSecret.value
    ensures !Given(config.apiSecret) && !Given(env.twitterApiSecret) ==> s.apiSecret == []
    ensures Given(config.accessToken) ==> s.accessToken == config.accessToken.value
    ensures !Given(config.accessToken) && Given(env.twitterAccessToken) ==> s.accessToken == env.twitterAccessToken.value
    ensures !Given(config.accessToken) && !Given(env.twitterAccessToken) ==> s.accessToken == []
    ensures Given(config.accessSecret) ==> s.accessSecret == config.accessSecret.value
    ensures !Given(config.accessSecret) && Given(env.twitterAccessSecret) ==> s.accessSecret == env.twitterAccessSecret.value
    ensures !Given(config.accessSecret) && !Given(env.twitterAccessSecret) ==> s.accessSecret == []
  {
    TwitterService(
      Or(config.apiKey, Or(env.twitterApiKey, "")),
      Or(config.apiSecret, Or(env.twitterApiSecret, "")),
      Or(config.accessToken, Or(env.twitterAccessToken, "")),
      Or(config.accessSecret, Or(env.twitterAccessSecret, "")))
  }

  /** `validateCredentials`: all four credentials are present. */
  predicate ValidateCredentials(s: TwitterService)
  {
    s.apiKey != [] && s.apiSecret != [] && s.accessToken != [] && s.accessSecret != []
  }

  /** `!this.validateCredentials()`: the call returns a promise, an object, and the
      negation of an object is `false` whatever the promise will resolve to. */
  predicate GuardFires(s: TwitterService)
  {
    false
  }

  const NotConfiguredMessage: string := "Twitter API credentials not configured"

  /** `post`, given its two clock readings. */
  function Post(s: TwitterService, data: FormData, now1: nat, now2: nat): (r: PostResult)
    ensures r.platform == Twitter && WellFormed(r)
    ensures r.success ==> r.postId == Some("tw_" + NatToString(now1))
    ensures r.success ==> r.url == Some("https://twitter.com/i/status/" + NatToString(now2))
  {
    if GuardFires(s) then HandleError(Twitter, ErrorObject(NotConfiguredMessage))
    else PostResult(true, Twitter, Some("tw_" + NatToString(now1)), Some("https://twitter.com/i/status/" + NatToString(now2)), None)
  }

  /** Every post succeeds, including one from an adapter with no credentials at all,
      which `validateCredentials` refuses. */
  lemma PostIgnoresCredentials(s: TwitterService, data: FormData, now1: nat, now2: nat)
    ensures Post(s, data, now1, now2).success
    ensures !ValidateCredentials(NewTwitterService(EmptyConfig, Env(None, None, None, None, None)))
    ensures Post(NewTwitterService(EmptyConfig, Env(None, None, None, None, None)), data, now1, now2).success
  {
  }

  /** `post` with the credential check awaited, as the guard evidently means it:
      a post succeeds exactly when all four credentials are present. */
  function PostAwaited(s: TwitterService, data: FormData, now1: nat, now2: nat): (r: PostResult)
    ensures r.platform == Twitter && WellFormed(r)
    ensures r.success <==> ValidateCredentials(s)
    ensures !r.success ==> r.error == Some(NotConfiguredMessage)
    ensures r.success ==> r == Post(s, data, now1, now2)
  {
    if !ValidateCredentials(s) then HandleError(Twitter, ErrorObject(NotConfiguredMessage))
    else Post(s, data, now1, now2)
  }

  /** With the check awaited, an adapter built without any credential refuses to post. */
  lemma NoCredentialsFails(data: FormData, now1: nat, now2: nat)
    ensures var r := PostAwaited(NewTwitterService(EmptyConfig, Env(None, None, None, None, None)), data, now1, now2);
      !r.success && r.error == Some(NotConfiguredMessage)
  {
  }

  /** A post's id is `tw_` followed by the first clock reading and its url names
      a status on twitter.com by the second; both readings can be read back. */
  lemma PostLinks(s: TwitterService, data: FormData, now1: nat, now2: nat)
    ensures var r := Post(s, data, now1, now2);
      && r.postId == Some("tw_" + NatToString(now1))
      && r.url == Some("https://twitter.com/i/status/" + NatToString(now2))
      && r.postId.Some? && StartsWith(r.postId.value, "tw_")
      && ParseNat(r.postId.value[|"tw_"|..]) == now1
      && r.url.Some? && StartsWith(r.url.value, "https://twitter.com/i/status/")
      && ParseNat(r.url.value[|"https://twitter.com/i/status/"|..]) == now2
  {
    var r := Post(s, data, now1, now2);
    var prefix := "https://twitter.com/i/status/";
    assert r.url.value[..|prefix|] == prefix;
    assert r.url.value[|prefix|..] == NatToString(now2);
    ParseNatToString(now2);
    assert r.postId.value[..3] == "tw_";
    assert r.postId.value[3..] == NatToString(now1);
    ParseNatToString(now1);
  }
}
