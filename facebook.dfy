/** The Facebook adapter (src/services/facebook.ts): a stand-in that succeeds
    whenever an access token is configured. */
module Facebook {
  import opened Types
  import opened Strings
  import opened ServiceBase

  datatype FacebookService = FacebookService(accessToken: string)

  /** `new FacebookService(config)`: the configured token, else the build-time
      key, else `''`. */
  function NewFacebookService(config: ServiceConfig, env: Env): (s: FacebookService)
    ensures s.accessToken != [] <==> Given(config.accessToken) || Given(env.facebookApiKey)
    ensures Given(config.accessToken) ==> s.accessToken == config.accessToken.value
    ensures !Given(config.accessToken) && Given(env.facebookApiKey) ==> s.accessToken == env.facebookApiKey.value
    ensures !Given(config.accessToken) && !Given(env.facebookApiKey) ==> s.accessToken == []
  {
    FacebookService(Or(config.accessToken, Or(env.facebookApiKey, "")))
  }

  /** `validateCredentials`: a token is present. */
  predicate ValidateCredentials(s: FacebookService)
  {
    s.accessToken != []
  }

  const NotConfiguredMessage: string := "Facebook access token not configured"

  /** `post`, given its two clock readings (the id and the url each read the clock). */
  function Post(s: FacebookService, data: FormData, now1: nat, now2: nat): (r: PostResult)
    ensures r.platform == Facebook && WellFormed(r)
    ensures r.success <==> ValidateCredentials(s)
    ensures !r.success ==> r.error == Some(NotConfiguredMessage)
    ensures r.success ==> r.postId == Some("fb_" + NatToString(now1))
    ensures r.success ==> r.url == Some("https://facebook.com/posts/" + NatToString(now2))
  {
    if s.accessToken == [] then HandleError(Facebook, ErrorObject(NotConfiguredMessage))
    else PostResult(true, Facebook, Some("fb_" + NatToString(now1)), Some("https://facebook.com/posts/" + NatToString(now2)), None)
  }

  /** A successful post's id is `fb_` followed by the first clock reading and its
      url names a post on facebook.com by the second; both readings can be read
      back from them. */
  lemma PostLinks(s: FacebookService, data: FormData, now1: nat, now2: nat)
    requires Post(s, data, now1, now2).success
    ensures var r := Post(s, data, now1, now2);
      && r.postId == Some("fb_" + NatToString(now1))
      && r.url == Some("https://facebook.com/posts/" + NatToString(now2))
      && StartsWith(r.postId.value, "fb_")
      && ParseNat(r.postId.value[|"fb_"|..]) == now1
      && r.url.Some? && StartsWith(r.url.value, "https://facebook.com/posts/")
      && ParseNat(r.url.value[|"https://facebook.com/posts/"|..]) == now2
  {
    var r := Post(s, data, now1, now2);
    var prefix := "https://facebook.com/posts/";
    assert r.url.value[..|prefix|] == prefix;
    assert r.url.value[|prefix|..] == NatToString(now2);
    ParseNatToString(now2);
    assert r.postId.value[..3] == "fb_";
    assert r.postId.value[3..] == NatToString(now1);
    ParseNatToString(now1);
  }

  /** With neither a configured token nor a build-time key the adapter fails. */
  lemma NoTokenFails(data: FormData, now1: nat, now2: nat)
    ensures !Post(NewFacebookService(EmptyConfig, Env(None, None, None, None, None)), data, now1, now2).success
  {
  }
}
