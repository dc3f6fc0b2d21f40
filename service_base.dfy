/** What every posting adapter of src/services shares (base.ts): the result of a
    post, the credentials a caller may pass, and the error handler that turns a
    thrown value into a failed result. Promises are not modelled: an adapter's
    `post` is a function of its inputs and of what the outside world answered. */
module ServiceBase {
  import opened Types

  /** `PostResult`; an absent optional property is `None`. */
  datatype PostResult = PostResult(
    success: bool,
    platform: PlatformKey,
    postId: Option<string>,
    url: Option<string>,
    error: Option<string>)

  /** `ServiceConfig`: every credential is optional. */
  datatype ServiceConfig = ServiceConfig(
    apiKey: Option<string>,
    apiSecret: Option<string>,
    accessToken: Option<string>,
    accessSecret: Option<string>,
    webhookUrl: Option<string>,
    handle: Option<string>,
    appPassword: Option<string>,
    clientId: Option<string>,
    clientSecret: Option<string>,
    username: Option<string>,
    password: Option<string>)

  /** The configuration `{}`. */
  const EmptyConfig: ServiceConfig := ServiceConfig(None, None, None, None, None, None, None, None, None, None, None)

  /** The build-time variables (`import.meta.env`) the adapters fall back on. */
  datatype Env = Env(
    facebookApiKey: Option<string>,
    twitterApiKey: Option<string>,
    twitterApiSecret: Option<string>,
    twitterAccessToken: Option<string>,
    twitterAccessSecret: Option<string>)

  /** A value caught by a `catch`: an `Error` carrying its message, or anything else. */
  datatype Thrown = ErrorObject(message: string) | NonError

  const UnknownErrorMessage: string := "Unknown error occurred"

  /** An optional string that is truthy: present and non-empty. */
  predicate Given(a: Option<string>)
  {
    a.Some? && a.value != []
  }

  /** JavaScript `a || b` on an optional string: a missing or empty `a` falls through. */
  function Or(a: Option<string>, b: string): (r: string)
    ensures Given(a) ==> r == a.value
    ensures !Given(a) ==> r == b
  {
    if Given(a) then a.value else b
  }

  /** A result as every adapter builds it: a success carries a post id and no
      error; a failure carries an error message and neither id nor url. */
  predicate WellFormed(r: PostResult)
  {
    if r.success then r.postId.Some? && r.error.None?
    else r.error.Some? && r.postId.None? && r.url.None?
  }

  /** `handleError`: a failed result for the adapter's platform carrying the caught
      error's message, or a fixed message when what was thrown is not an `Error`. */
  function HandleError(platform: PlatformKey, error: Thrown): (r: PostResult)
    ensures WellFormed(r) && !r.success && r.platform == platform
    ensures error.ErrorObject? ==> r.error == Some(error.message)
    ensures error.NonError? ==> r.error == Some(UnknownErrorMessage)
  {
    var message := if error.ErrorObject? then error.message else UnknownErrorMessage;
    PostResult(false, platform, None, None, Some(message))
  }
}
