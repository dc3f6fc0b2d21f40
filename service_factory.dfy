/** The adapter factory and the fan-out of src/services/index.ts, with the
    placeholder adapter for the platforms that have no integration. */
module ServiceFactory {
  import opened Types
  import opened Strings
  import opened ServiceBase
  import Discord
  import Facebook
  import Twitter

  /** What `createService` can return. */
  datatype Service =
    | FacebookAdapter(facebook: Facebook.FacebookService)
    | TwitterAdapter(twitter: Twitter.TwitterService)
    | DiscordAdapter(discord: Discord.DiscordService)
    | PlaceholderAdapter(platformName: PlatformKey)

  /** The platform an adapter posts for. */
  function PlatformOf(svc: Service): PlatformKey
  {
    match svc
    case FacebookAdapter(_) => Facebook
    case TwitterAdapter(_) => Twitter
    case DiscordAdapter(_) => Discord
    case PlaceholderAdapter(p) => p
  }

  /** The platforms `createService` maps to a real adapter. */
  predicate Implemented(p: PlatformKey)
  {
    p == Facebook || p == Twitter || p == Discord
  }

  /** The configuration an adapter is built from: the one given, else `{}`. */
  function Settings(config: Option<ServiceConfig>): ServiceConfig
  {
    if config.Some? then config.value else EmptyConfig
  }

  /** `createService(platform, config = {})`: an absent configuration is `{}`. */
  function CreateService(platform: PlatformKey, config: Option<ServiceConfig>, env: Env): (svc: Service)
    ensures PlatformOf(svc) == platform
    ensures svc.PlaceholderAdapter? <==> !Implemented(platform)
    ensures platform == Facebook ==> svc == FacebookAdapter(Facebook.NewFacebookService(Settings(config), env))
    ensures platform == Twitter ==> svc == TwitterAdapter(Twitter.NewTwitterService(Settings(config), env))
    ensures platform == Discord ==> svc == DiscordAdapter(Discord.NewDiscordService(Settings(config)))
  {
    var cfg := Settings(config);
    match platform
    case Facebook => FacebookAdapter(Facebook.NewFacebookService(cfg, env))
    case Twitter => TwitterAdapter(Twitter.NewTwitterService(cfg, env))
    case Discord => DiscordAdapter(Discord.NewDiscordService(cfg))
    case Instagram => PlaceholderAdapter(platform)
    case Threads => PlaceholderAdapter(platform)
    case Bluesky => PlaceholderAdapter(platform)
    case Reddit => PlaceholderAdapter(platform)
    case Tiktok => PlaceholderAdapter(platform)
  }

  const NotYetImplemented: string := "not yet implemented"

  function PlaceholderMessage(p: PlatformKey): string
  {
    KeyString(p) + " integration is " + NotYetImplemented + ". This is a frontend-only demo."
  }

  /** What the outside world answers one post: two clock readings and, for a
      webhook post, how the request ended. */
  datatype Moment = Moment(now1: nat, now2: nat, fetch: Discord.FetchOutcome)

  /** `service.validateCredentials()`; the placeholder refuses. */
  predicate ValidateCredentials(svc: Service)
  {
    match svc
    case FacebookAdapter(s) => Facebook.ValidateCredentials(s)
    case TwitterAdapter(s) => Twitter.ValidateCredentials(s)
    case DiscordAdapter(s) => Discord.ValidateCredentials(s)
    case PlaceholderAdapter(_) => false
  }

  /** `service.post(data)`: the Facebook adapter succeeds exactly when it holds a
      token, the Twitter adapter always succeeds (its guard never fires), the
      Discord adapter succeeds exactly when its URL passes and the webhook answers
      ok, and the placeholder always fails. */
  function ServicePost(svc: Service, data: FormData, m: Moment): (r: PostResult)
    ensures r.platform == PlatformOf(svc) && WellFormed(r)
    ensures svc.FacebookAdapter? ==> (r.success <==> Facebook.ValidateCredentials(svc.facebook))
    ensures svc.TwitterAdapter? ==> r.success
    ensures svc.DiscordAdapter? ==>
      (r.success <==> Discord.ValidateCredentials(svc.discord) && m.fetch.Response? && m.fetch.ok)
    ensures svc.PlaceholderAdapter? ==> !r.success && r.error == Some(PlaceholderMessage(svc.platformName))
  {
    match svc
    case FacebookAdapter(s) => Facebook.Post(s, data, m.now1, m.now2)
    case TwitterAdapter(s) => Twitter.Post(s, data, m.now1, m.now2)
    case DiscordAdapter(s) => Discord.Post(s, data, m.fetch, m.now1)
    case PlaceholderAdapter(p) => PostResult(false, p, None, None, Some(PlaceholderMessage(p)))
  }

  /** `configs[platform]`. */
  function ConfigFor(configs: map<PlatformKey, ServiceConfig>, p: PlatformKey): Option<ServiceConfig>
  {
    if p in configs then Some(configs[p]) else None
  }

  /** `postToMultiplePlatforms`: one post per listed platform, each through a fresh
      adapter built from that platform's configuration; `moment(i)` is what the
      world answered the `i`-th post. The results keep the order of the list. */
  function PostToMultiplePlatforms(platforms: seq<PlatformKey>, data: FormData,
                                   configs: map<PlatformKey, ServiceConfig>, env: Env,
                                   moment: nat -> Moment): (results: seq<PostResult>)
    ensures |results| == |platforms|
    ensures forall i :: 0 <= i < |platforms| ==> results[i].platform == platforms[i] && WellFormed(results[i])
    ensures forall i :: 0 <= i < |platforms| && platforms[i] == Facebook ==>
      (results[i].success <==> Given(Settings(ConfigFor(configs, Facebook)).accessToken) || Given(env.facebookApiKey))
    ensures forall i :: 0 <= i < |platforms| && platforms[i] == Twitter ==> results[i].success
    ensures forall i :: 0 <= i < |platforms| && platforms[i] == Discord ==>
      (results[i].success <==> Discord.ValidateCredentials(Discord.NewDiscordService(Settings(ConfigFor(configs, Discord))))
                               && moment(i).fetch.Response? && moment(i).fetch.ok)
    ensures forall i :: 0 <= i < |platforms| && !Implemented(platforms[i]) ==>
      !results[i].success && results[i].error == Some(PlaceholderMessage(platforms[i]))
  {
    var results := seq(|platforms|, i requires 0 <= i < |platforms| =>
      ServicePost(CreateService(platforms[i], ConfigFor(configs, platforms[i]), env), data, moment(i)));
    assert forall i :: 0 <= i < |platforms| ==>
      results[i] == ServicePost(CreateService(platforms[i], ConfigFor(configs, platforms[i]), env), data, moment(i));
    results
  }

  /** Each result is the post of its own platform alone: posting to that platform
      by itself, with the same configuration and the same answer from the world,
      gives the same result whatever else is in the list. */
  lemma PostIndependent(platforms: seq<PlatformKey>, data: FormData, configs: map<PlatformKey, ServiceConfig>,
                        env: Env, moment: nat -> Moment, i: nat)
    requires i < |platforms|
    ensures PostToMultiplePlatforms(platforms, data, configs, env, moment)[i]
      == PostToMultiplePlatforms([platforms[i]], data, configs, env, _ => moment(i))[0]
  {
    var p := platforms[i];
    assert PostToMultiplePlatforms(platforms, data, configs, env, moment)[i]
      == ServicePost(CreateService(p, ConfigFor(configs, p), env), data, moment(i));
    assert PostToMultiplePlatforms([p], data, configs, env, _ => moment(i))[0]
      == ServicePost(CreateService(p, ConfigFor(configs, p), env), data, moment(i));
  }

  /** A platform without an integration always fails, with a message saying so,
      and its adapter refuses any credentials. */
  lemma PlaceholderFails(p: PlatformKey, config: Option<ServiceConfig>, env: Env, data: FormData, m: Moment)
    requires !Implemented(p)
    ensures !ValidateCredentials(CreateService(p, config, env))
    ensures var r := ServicePost(CreateService(p, config, env), data, m);
      !r.success && Contains(r.error.value, NotYetImplemented)
  {
    ContainsInfix(KeyString(p) + " integration is ", NotYetImplemented, ". This is a frontend-only demo.");
  }

  /** Only Facebook, Twitter and Discord posts can succeed. */
  lemma OnlyImplementedSucceed(platforms: seq<PlatformKey>, data: FormData, configs: map<PlatformKey, ServiceConfig>,
                               env: Env, moment: nat -> Moment, i: nat)
    requires i < |platforms| && PostToMultiplePlatforms(platforms, data, configs, env, moment)[i].success
    ensures Implemented(platforms[i])
  {
    var svc := CreateService(platforms[i], ConfigFor(configs, platforms[i]), env);
    assert PostToMultiplePlatforms(platforms, data, configs, env, moment)[i] == ServicePost(svc, data, moment(i));
  }

  /** Facebook then Instagram: two results in that order, the second refusing. */
  lemma FacebookInstagram(data: FormData, env: Env, moment: nat -> Moment)
    ensures var results := PostToMultiplePlatforms([Facebook, Instagram], data, map[], env, moment);
      && |results| == 2
      && results[0].platform == Facebook && results[1].platform == Instagram
      && !results[1].success && Contains(results[1].error.value, NotYetImplemented)
  {
    var results := PostToMultiplePlatforms([Facebook, Instagram], data, map[], env, moment);
    assert results[1] == ServicePost(CreateService(Instagram, None, env), data, moment(1));
    PlaceholderFails(Instagram, None, env, data, moment(1));
  }

  /** The fan-out posts through the Twitter adapter as written: a Twitter post
      from an adapter without any credential succeeds, where the post with the
      check awaited refuses. */
  lemma FanOutIgnoresTwitterCredentials(data: FormData, moment: nat -> Moment)
    ensures var noEnv := Env(None, None, None, None, None);
      && PostToMultiplePlatforms([Twitter], data, map[], noEnv, moment)[0].success
      && !Twitter.PostAwaited(Twitter.NewTwitterService(EmptyConfig, noEnv), data, moment(0).now1, moment(0).now2).success
  {
    var noEnv := Env(None, None, None, None, None);
    Twitter.NoCredentialsFails(data, moment(0).now1, moment(0).now2);
  }
}
