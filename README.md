# Shotgun Socials Poster: the platform-rules engine in Dafny

This project models the core of the Shotgun Socials Poster, a one-page app that posts one message to several social platforms at once. The model covers:

- **The platform registry.** The `platforms` record of eight platforms. Each platform has a display name and an ordered list of field declarations: required, `maxLength`, `accept`, `maxFiles`, a `type` and so on. The registry exists in two copies, `platformConfig.ts` and `platformConfig.js`, and their data differs. Both are modelled: `RegistryTs` and `RegistryJs`. `Registry.Copy` selects one of them wherever the form reads "the" registry.
- **The validators.** `validatePost` of each copy is modelled as an imperative method. It is proved equal to a specification function, and lemmas about that function state what the report means. The TypeScript copy checks `required` (a whitespace-only string is missing), `maxLength` and `maxFiles`. The JavaScript copy checks `required` by falsiness and `maxLength` on anything that has a length. It then applies three platform rules: Reddit text-or-link, an Instagram image and a TikTok video. `getRequiredFields` of the JavaScript copy is a method proved to list each declared name once, in first-discovery order.
- **First-discovery order** (`Discovery`). The form walks the selected platforms in selection order, and each platform's fields in declaration order. A name counts the first time it is met.
- **The form** (`Form`, `Merge`).
  - The component's state and handlers form a class: platform toggling, input changes, submit and closing the preview.
  - The three rendering passes are methods, proved against specification functions. The text pass merges a field shared by several platforms: any platform's `required` wins, and the smallest positive `maxLength` wins. The media pass and the options pass come with it.
- **The services.**
  - `handleError`.
  - The Discord webhook adapter, including its payload, request and answer handling.
  - The Facebook and Twitter stand-ins.
  - The factory, with its placeholder adapter and the fan-out `postToMultiplePlatforms`.

### How the model follows the code

The model follows the code as written:

- **Registry.** The two copies differ:
  - Facebook text is required only in the TypeScript copy.
  - Only the TypeScript copy marks media fields `type: 'file'`.
  - Reddit, TikTok and Discord list their fields in different orders, so their messages come in different orders.
  - The Facebook, Instagram, Twitter and Threads media fields accept videos as well as images only in the JavaScript copy.
  - The Facebook and Instagram images have no `maxFiles` in the JavaScript copy.
  - Most placeholders and notes are worded differently.
- **Validator messages.** The messages are the code's own:
  - `"<Field> is required"` in the TypeScript copy.
  - `"<field> is required for <Platform>"` in the JavaScript copy.
  - `"Reddit: Cannot have both text and link - choose one"`, with a capital C and a hyphen.
- **Platform rules.** Only the JavaScript copy has the Reddit, Instagram and TikTok rules. The TypeScript copy accepts a Reddit post with both a text and a link.
- **The text pass shares one name set.** It uses a single `processedFields` set for every kind of field. So a name whose first declaration is a checkbox or a file input gets no text input, even when a later platform declares it as text. The media pass and the options pass each keep their own set.
- **Merged placeholder.** A merged text input takes the placeholder of its first declaration.
- **Twitter credential guard.** The Twitter adapter's guard negates a pending promise, so it never fires. `Twitter.Post` models that as written, and the factory's fan-out calls it, as the code does. `Twitter.PostAwaited` is the corrected post (see Findings).
- **The `../utils/platformConfig` import.** The form imports it, and it resolves to either copy depending on the tool. So the form and its merge lemmas are stated for both copies, through `Copy`.

### What becomes a parameter

- `fetch`'s answer is a `Discord.FetchOutcome` parameter, passed to `Discord.Post`.
- `Date.now()` readings are `nat` parameters: two readings for Facebook and Twitter, one for Discord.
- The build-time variables of `import.meta.env` are an `Env` parameter.
- In the fan-out, what the world answers the i-th post is `moment(i)`.

## Model

| member | source | states |
|---|---|---|
| Types.KeyString | src/types/index.ts:20-28 | each platform key is a non-empty lower-case literal |
| Types.KeyStringInjective | src/types/index.ts:20-30 | distinct platforms have distinct keys, and no key is `general`, so an error map never mixes two platforms or a platform with the selection error |
| Types.Lookup | src/types/index.ts:32-47 | `formData[name]` is defined exactly when the key is present, and then is its value |
| Types.Limit | src/utils/platformConfig.ts:218-221 | a `maxLength` acts as a limit exactly when it is present and positive (0 is falsy) |
| Types.FieldOf | src/types/index.ts:16 | `fields[name]` is found exactly when some declaration has that name, and is that declaration |
| Types.FieldNames | src/utils/platformConfig.js:147 | `Object.keys(platform.fields)` gives the declared names in declaration order |
| RegistryTs.PlatformKeysComplete | src/utils/platformConfig.ts:184-193 | `platformKeys` lists exactly the eight platforms, each once |
| RegistryJs.PlatformKeysComplete | src/utils/platformConfig.js:94 | `Object.keys(platforms)` lists exactly the eight platforms, each once |
| Strings.NatToString | src/utils/platformConfig.ts:224 | a number is printed as a non-empty string of decimal digits |
| Strings.ParseNatToString | src/services/facebook.ts:31 | a printed timestamp reads back as the same number |
| Strings.NatToStringInjective | src/utils/platformConfig.ts:224 | two different limits print differently |
| Strings.ToUpperChar | src/utils/platformConfig.ts:212 | `toUpperCase` on one character: a lower-case ASCII letter goes to its capital, anything else is unchanged |
| Strings.Capitalize | src/utils/platformConfig.ts:212 | `charAt(0).toUpperCase() + slice(1)`: the same length, only the first character changed |
| Discovery.EntriesOf | src/utils/platformConfig.ts:205 | `Object.entries(platform.fields)`: one entry per declaration, in order, tagged with its platform |
| Discovery.FlattenMembership | src/components/SocialPosterForm.tsx:127-130 | the walk meets exactly the declarations of the selected platforms |
| Discovery.FlattenNames | src/utils/platformConfig.js:145-148 | the names met in the walk are exactly the names the selected platforms declare |
| Discovery.Seen | src/components/SocialPosterForm.tsx:131-132 | `processedFields` holds exactly the names met so far |
| Discovery.FirstIndex | src/components/SocialPosterForm.tsx:131-132 | the first position at which a name is met |
| Discovery.FirstByNameSnoc | src/components/SocialPosterForm.tsx:131-132 | one more declaration is kept exactly when its name has not been met |
| Discovery.FirstDiscoveryOld | src/components/SocialPosterForm.tsx:131 | a declaration with a name already met changes nothing |
| Discovery.FirstDiscoveryNew | src/components/SocialPosterForm.tsx:132 | a declaration with a new name is discovered last |
| Discovery.FirstByNameIsFirstDiscovery | src/components/SocialPosterForm.tsx:127-132 | the kept declarations are, for every name met, its first declaration, in order of first meeting |
| Discovery.FirstDiscoveryNoDuplicates | src/components/SocialPosterForm.tsx:131-132 | no name is kept twice |
| Discovery.Names | src/utils/platformConfig.js:150 | `Array.from(fields)`: the names of the kept declarations, in order |
| Report.CollectSnoc | src/utils/platformConfig.ts:238-240 | one more platform adds its key exactly when its message list is non-empty |
| Report.CollectAt | src/utils/platformConfig.ts:201-241 | a platform's key is in the report exactly when it is selected and has messages, and then maps to its own messages |
| Report.CollectKeys | src/utils/platformConfig.ts:238-240 | every key in the report is a selected platform's key with its non-empty messages; `general` never appears |
| Report.CollectEmpty | src/utils/platformConfig.ts:238-243 | the report is `{}` exactly when no selected platform has a message |
| Report.ConcatMembership | src/utils/platformConfig.ts:205-236 | a message of the platform comes from one of its declarations, and all of theirs are kept |
| ValidateTs.CheckFields | src/utils/platformConfig.ts:205-236 | the field loop pushes, declaration by declaration, exactly the messages of the specification |
| ValidateTs.ValidatePost | src/utils/platformConfig.ts:195-244 | `validatePost` returns the specified report |
| ValidateTs.MessagesDistinct | src/utils/platformConfig.ts:209-235 | the three messages of one field never coincide, and a message determines its limit |
| ValidateTs.FieldErrorsExact | src/utils/platformConfig.ts:209-235 | each message appears exactly under its condition: required and missing or blank; a string over a positive limit; a file list over `maxFiles` of a `type: 'file'` field; no other message appears |
| ValidateTs.FieldsErrorsMembership | src/utils/platformConfig.ts:205-236 | a platform's field messages are exactly those of its declarations |
| ValidateTs.FieldsErrorsAppend | src/utils/platformConfig.ts:205 | messages keep declaration order: those of earlier declarations come first |
| ValidateTs.FieldsErrorsFront | src/utils/platformConfig.ts:205-236 | the first declaration's messages come first |
| ValidateTs.FieldsErrorsFrame | src/utils/platformConfig.ts:206 | a platform's messages depend only on the values of its declared fields |
| ValidateTs.ValidateNothingSelected | src/utils/platformConfig.ts:199-243 | nothing selected gives `{}` |
| ValidateTs.ValidateOne | src/utils/platformConfig.ts:238-240 | one platform gives `{}` or its key with all its messages |
| ValidateTs.ValidateAt | src/utils/platformConfig.ts:201-241 | a platform is reported exactly when selected and at fault, with its own messages |
| ValidateTs.ValidateKeys | src/utils/platformConfig.ts:238-240 | the report holds only selected platforms' keys, each with a non-empty list |
| ValidateTs.ValidateMoreSelected | src/utils/platformConfig.ts:201-241 | selecting more platforms never changes what is reported for one already selected |
| ValidateTsCases.TextRequired | src/utils/platformConfig.ts:211-213 | the required message for `text` is "Text is required" |
| ValidateTsCases.ImageRequired | src/utils/platformConfig.ts:211-213 | the required message for `image` is "Image is required" |
| ValidateTsCases.VideoRequired | src/utils/platformConfig.ts:211-213 | the required message for `video` is "Video is required" |
| ValidateTsCases.WebhookUrlRequired | src/utils/platformConfig.ts:211-213 | only the first letter is capitalised: "WebhookUrl is required" |
| ValidateTsCases.TextCapitalized | src/utils/platformConfig.ts:212 | `text` capitalises to `Text` |
| ValidateTsCases.ImageCapitalized | src/utils/platformConfig.ts:232 | `image` capitalises to `Image` |
| ValidateTsCases.TwitterLengthMessage | src/utils/platformConfig.ts:223-225 | Twitter's length message is "Text exceeds maximum length of 280 characters" |
| ValidateTsCases.TwitterFilesMessage | src/utils/platformConfig.ts:231-233 | Twitter's file message is "Image exceeds maximum of 4 files" |
| ValidateTsCases.FacebookTextOnlyIsValid | src/utils/__tests__/platformConfig.test.ts:37-43 | any non-blank Facebook text within 63206 characters is accepted |
| ValidateTsCases.InstagramWithoutImage | src/utils/__tests__/platformConfig.test.ts:45-52 | an Instagram caption without an image reports exactly "Image is required" |
| ValidateTsCases.TwitterWithoutText | src/utils/__tests__/platformConfig.test.ts:54-59 | Twitter with neither text nor image reports exactly "Text is required" |
| ValidateTsCases.TwitterTextTooLong | src/utils/__tests__/platformConfig.test.ts:61-68 | any non-blank Twitter text over 280 characters reports exactly the length message |
| ValidateTsCases.RedditTextAndLinkAccepted | src/utils/__tests__/platformConfig.test.ts:70-82 | this copy has no Reddit rule: a complete post with both a text and a link is accepted |
| ValidateTsCases.TiktokWithoutVideo | src/utils/__tests__/platformConfig.test.ts:84-91 | a TikTok caption without a video reports exactly "Video is required" |
| ValidateTsCases.TwitterAndInstagramEmpty | src/utils/__tests__/platformConfig.test.ts:93-98 | an empty form reports Twitter with exactly `["Text is required"]` and Instagram with exactly `["Image is required"]` |
| ValidateTsCases.DiscordWithWebhookIsValid | src/utils/__tests__/platformConfig.test.ts:100-107 | Discord with a non-blank webhook URL and a text within 2000 characters is accepted |
| ValidateTsCases.DiscordWithoutWebhook | src/utils/__tests__/platformConfig.test.ts:109-116 | Discord without a webhook URL reports exactly "WebhookUrl is required" |
| ValidateTsCases.TwitterBlankText | src/utils/platformConfig.ts:210 | a whitespace-only required text counts as missing |
| ValidateTsCases.TwitterTooManyImages | src/utils/platformConfig.ts:229-234 | more than four Twitter images report exactly the file message |
| ValidateJs.JsLength | src/utils/platformConfig.js:113 | `value.length` is defined for strings and file lists only |
| ValidateJs.CheckFields | src/utils/platformConfig.js:104-116 | the field loop pushes exactly the specified field messages |
| ValidateJs.CheckRules | src/utils/platformConfig.js:118-131 | the platform rules append exactly the specified rule messages, in the order Reddit, Instagram, TikTok |
| ValidateJs.ValidatePost | src/utils/platformConfig.js:97-139 | `validatePost` returns the specified report |
| ValidateJs.AddFieldNames | src/utils/platformConfig.js:147 | the inner loop adds a platform's names that have not been met yet |
| ValidateJs.GetRequiredFields | src/utils/platformConfig.js:142-151 | `getRequiredFields` returns the names in first-discovery order |
| ValidateJs.RequiredFieldsSpec | src/utils/platformConfig.js:142-151 | `getRequiredFields` lists each name declared by a selected platform exactly once, and nothing else |
| ValidateJs.NamesFirstByName | src/utils/platformConfig.js:147-150 | the returned names are exactly the names met |
| ValidateJs.MessagesDistinct | src/utils/platformConfig.js:108-115 | the required and length messages never coincide, and a length message determines its limit |
| ValidateJs.FieldErrorsExact | src/utils/platformConfig.js:108-115 | required and falsy gives the required message; a truthy value longer than a positive limit gives the length message; nothing else |
| ValidateJs.FieldErrorsStartWithName | src/utils/platformConfig.js:109-114 | every field message starts with the field's name |
| ValidateJs.FieldsErrorsMembership | src/utils/platformConfig.js:104-116 | a platform's field messages are exactly those of its declarations |
| ValidateJs.FieldsErrorsAppend | src/utils/platformConfig.js:104 | messages keep declaration order |
| ValidateJs.FieldsErrorsFront | src/utils/platformConfig.js:104-116 | the first declaration's messages come first |
| ValidateJs.FieldsErrorsFrame | src/utils/platformConfig.js:105 | field messages depend only on the values of the declared fields |
| ValidateJs.NotRedditRule | src/utils/platformConfig.js:109-121 | no field message of a field that does not start with `R` can be the Reddit rule's message |
| ValidateJs.RedditRuleExact | src/utils/platformConfig.js:119-123 | the Reddit rule message is reported exactly when both `text` and `link` are truthy |
| ValidateJs.InstagramMissingImageTwice | src/utils/platformConfig.js:125-127 | without an image, Instagram is reported twice, by the field and by the rule |
| ValidateJs.TiktokMissingVideo | src/utils/platformConfig.js:129-131 | without a video, TikTok's first message is the field's and its last is the rule's |
| ValidateJs.ValidateOne | src/utils/platformConfig.js:133-135 | one platform gives `{}` or its key with all its messages |
| ValidateJs.ValidateAt | src/utils/platformConfig.js:100-136 | a platform is reported exactly when selected and at fault, with its own messages |
| ValidateJs.ValidateKeys | src/utils/platformConfig.js:133-135 | the report holds only selected platforms' keys, each with a non-empty list |
| ValidateJsCases.InstagramWithoutImage | src/utils/platformConfig.js:104-131 | an Instagram caption without an image reports the field message, then the rule message |
| ValidateJsCases.TiktokWithoutVideo | src/utils/platformConfig.js:104-131 | a TikTok caption without a video reports the field message, then the rule message |
| ValidateJsCases.RedditTextAndLink | src/utils/__tests__/platformConfig.test.ts:70-82 | a complete Reddit post with both text and link reports exactly the rule message |
| ValidateJsCases.RequiredFieldsNone | src/utils/__tests__/platformConfig.test.ts:120-123 | no platforms gives no fields |
| ValidateJsCases.FacebookTwitterWalk | src/utils/platformConfig.js:145-148 | the walk over Facebook then Twitter meets text, image, link, text, image, thread |
| ValidateJsCases.FacebookTwitterDiscovery | src/utils/platformConfig.js:147 | of those, the first text, image and link and the thread are kept |
| ValidateJsCases.RequiredFieldsFacebookTwitter | src/utils/__tests__/platformConfig.test.ts:132-142 | Facebook and Twitter give exactly text, image, link, thread |
| ValidateJsCases.FacebookEmptyDiffers | src/utils/platformConfig.js:8 | an empty Facebook post is refused by the TypeScript copy and accepted by this one |
| ValidateJsCases.BlankTextDiffers | src/utils/platformConfig.js:108 | a whitespace-only Twitter text is refused by the TypeScript copy and accepted by this one |
| Merge.UsingPlatforms | src/components/SocialPosterForm.tsx:137 | the using platforms are exactly the selected platforms that declare the name, as a subsequence of the selection (selection order kept) |
| Merge.AnyRequired | src/components/SocialPosterForm.tsx:139 | required exactly when some using platform requires it |
| Merge.DeclaredLimits | src/components/SocialPosterForm.tsx:142-144 | the limits are exactly the positive `maxLength`s of the using platforms |
| Merge.MinLength | src/components/SocialPosterForm.tsx:145 | `Math.min(...)` of the limits: absent exactly when there are none, else one of them and at most each |
| Merge.Filter | src/components/SocialPosterForm.tsx:137 | `filter` keeps exactly the accepted platforms, as a subsequence of its input |
| Merge.SubsequenceOrder | src/components/SocialPosterForm.tsx:137 | any two elements of a subsequence appear in the whole in the same order |
| Merge.UsingPlatformsOrder | src/components/SocialPosterForm.tsx:137 | of two using platforms, the earlier one is selected earlier |
| Merge.MergeFieldSpec | src/components/SocialPosterForm.tsx:136-145 | a merged input lists exactly the selected platforms that declare it, in selection order, including its own; it is required exactly when one of them requires it; its limit is the smallest positive limit declared, absent when none is |
| Merge.TextStep | src/components/SocialPosterForm.tsx:131-134 | one declaration adds an input exactly when its name is new and it is a text field |
| Merge.FileStep | src/components/SocialPosterForm.tsx:209-211 | one declaration adds a file input exactly when it has `accept` and its name is new among file inputs |
| Merge.CheckboxStep | src/components/SocialPosterForm.tsx:227-229 | one declaration adds a checkbox exactly when it is `type: 'boolean'` and its name is new among checkboxes |
| Merge.RenderTextFieldsOf | src/components/SocialPosterForm.tsx:130-195 | the inner loop extends `processedFields` and the inputs by one platform's declarations |
| Merge.RenderTextFields | src/components/SocialPosterForm.tsx:123-199 | `renderTextFields` builds the specified inputs |
| Merge.RenderFileFieldsOf | src/components/SocialPosterForm.tsx:208-213 | the inner loop adds one platform's new file inputs |
| Merge.RenderFileFields | src/components/SocialPosterForm.tsx:201-217 | `renderFileFields` renders the first declaration of every file input name |
| Merge.RenderCheckboxFieldsOf | src/components/SocialPosterForm.tsx:226-231 | the inner loop adds one platform's new checkboxes |
| Merge.RenderCheckboxFields | src/components/SocialPosterForm.tsx:219-235 | `renderCheckboxFields` renders the first declaration of every checkbox name |
| Merge.TextsMembership | src/components/SocialPosterForm.tsx:134-147 | an input is built exactly from a kept text declaration |
| Merge.TextsNamesDistinct | src/components/SocialPosterForm.tsx:131-134 | no two inputs share a name when no two declarations do |
| Merge.TextsNames | src/components/SocialPosterForm.tsx:134-147 | each input is named after one of the declarations it is built from |
| Merge.TextsOrder | src/components/SocialPosterForm.tsx:127-147 | inputs built from declarations in first-met order come in first-met order |
| Merge.TextFieldsSound | src/components/SocialPosterForm.jsx:119-126 | every input is merged from a name's first declaration, which is a text field |
| Merge.FirstTextInTexts | src/components/SocialPosterForm.jsx:122-143 | a name whose first declaration is a text field gets the input merged from it |
| Merge.TextFieldsComplete | src/components/SocialPosterForm.jsx:119-143 | every name whose first declaration is a text field gets its merged input |
| Merge.FirstTextsDistinct | src/components/SocialPosterForm.tsx:131-134 | the text pass over any walk gives one input per name |
| Merge.FirstTextsOrder | src/components/SocialPosterForm.tsx:127-147 | the text pass gives its inputs in the order the names are first met |
| Merge.FirstTextsExact | src/components/SocialPosterForm.tsx:127-147 | the text pass gives an input exactly for each name whose first declaration is a text field, merged from it |
| Merge.TextFieldsSpec | src/components/SocialPosterForm.tsx:123-199 | the text inputs have distinct names, come in the order the names are first met, and are exactly the merged first text declarations |
| Merge.FileEntriesMembership | src/components/SocialPosterForm.jsx:201 | the media pass considers exactly the declarations with `accept` |
| Merge.CheckboxEntriesMembership | src/components/SocialPosterForm.jsx:219 | the options pass considers exactly the `type: 'boolean'` declarations |
| Merge.FileFieldsSpec | src/components/SocialPosterForm.jsx:193-209 | the file inputs are the first declaration of each file name, in discovery order, each name once |
| Merge.CheckboxFieldsSpec | src/components/SocialPosterForm.jsx:211-227 | the checkboxes are the first declaration of each checkbox name, in discovery order, each name once |
| MergeCases.FacebookTwitterText | src/components/SocialPosterForm.jsx:129-141 | Facebook and Twitter share one text input: used by both, required (Twitter), limited to 280, with Facebook's placeholder |
| MergeCases.FacebookTwitterLink | src/components/SocialPosterForm.jsx:129-141 | the link input is used by Facebook only, optional and unlimited |
| MergeCases.TwitterHasNoLink | src/utils/platformConfig.js:25-35 | Twitter declares no link |
| MergeCases.FacebookTwitterKinds | src/utils/platformConfig.js:3-35 | the kinds of the six declarations met for Facebook then Twitter |
| MergeCases.FacebookTwitterFirst | src/components/SocialPosterForm.jsx:123-124 | the kept declarations are Facebook's three and Twitter's thread |
| MergeCases.FacebookTwitterTextFields | src/components/SocialPosterForm.jsx:115-191 | Facebook and Twitter get two text inputs: text, then link |
| MergeCases.FacebookTwitterFileFields | src/components/SocialPosterForm.jsx:193-209 | one file input: Facebook's image |
| MergeCases.FacebookTwitterCheckboxFields | src/components/SocialPosterForm.jsx:211-227 | one checkbox: Twitter's thread |
| Form.ValidateReport | src/components/SocialPosterForm.tsx:57 | either copy's report holds exactly the selected platforms at fault, each with its own messages |
| Form.Without | src/components/SocialPosterForm.tsx:34 | `filter((p) => p !== platformKey)` removes exactly that platform |
| Form.WithoutAbsent | src/components/SocialPosterForm.tsx:34 | filtering out an absent platform changes nothing |
| Form.WithoutAppended | src/components/SocialPosterForm.tsx:34 | filtering out a platform just appended undoes the append |
| Form.WithoutNoDuplicates | src/components/SocialPosterForm.tsx:34 | filtering keeps a selection free of repeats |
| Form.ToggleMembership | src/components/SocialPosterForm.tsx:32-37 | a toggle flips exactly the toggled platform's membership |
| Form.ToggleNoDuplicates | src/components/SocialPosterForm.jsx:27-34 | a toggle never selects a platform twice |
| Form.ToggleTwiceAbsent | src/components/SocialPosterForm.tsx:33-35 | toggling an unselected platform twice restores the selection |
| Form.ToggleTwicePresent | src/components/SocialPosterForm.tsx:33-35 | toggling a selected platform twice keeps the same platforms, with that one moved last |
| Form.InputValue | src/components/SocialPosterForm.tsx:40-44 | a checkbox stores its `checked` flag, and any other input stores its value |
| Form.InputChangeOnlyNamedKey | src/components/SocialPosterForm.tsx:42-45 | an edit sets the named key and leaves every other key as it was |
| Form.SubmitSpec | src/components/SocialPosterForm.tsx:49-67 | submit shows the preview exactly when something is selected and nothing is at fault; the `general` error exactly when nothing is selected; otherwise exactly the faulty platforms' messages |
| Form.PosterForm.constructor | src/components/SocialPosterForm.tsx:15-30 | the initial state: nothing selected, the initial form data, no errors, no preview |
| Form.PosterForm.HandlePlatformToggle | src/components/SocialPosterForm.tsx:32-37 | toggles the platform, clears the errors, keeps the selection free of repeats |
| Form.PosterForm.HandleInputChange | src/components/SocialPosterForm.jsx:36-43 | stores the input's value under its name and clears the errors; the selection stays free of repeats |
| Form.PosterForm.HandleSubmit | src/components/SocialPosterForm.tsx:49-67 | shows the errors or the preview as `SubmitOutcome` says, and changes nothing else; the selection stays free of repeats |
| Form.PosterForm.ClosePreview | src/components/SocialPosterForm.tsx:340 | hides the preview and changes nothing else; the selection stays free of repeats |
| ServiceBase.Or | src/services/facebook.ts:10 | `a \|\| b` on strings: `a` when it is a non-empty string, otherwise `b` |
| ServiceBase.HandleError | src/services/base.ts:10-18 | a failed result for the adapter's platform, carrying the error's message or "Unknown error occurred" |
| Discord.NewDiscordService | src/services/discord.ts:8-11 | the webhook URL is the configured one when non-empty, otherwise `''` (there is no build-time fallback) |
| Discord.BuildPayload | src/services/discord.ts:24-37 | the text is the content, and one blue embed is added exactly when `embed` is ticked and a title or a description is given |
| Discord.RequestFor | src/services/discord.ts:17-45 | a JSON POST to the webhook URL is sent exactly when the credentials pass |
| Discord.Post | src/services/discord.ts:17-59 | success exactly when the credentials pass and the answer is ok; a success carries the id `discord_` followed by the clock reading, and no url |
| Discord.PostErrors | src/services/discord.ts:19-58 | the three failures: an unusable URL fails as not configured, a non-ok answer gives a message naming its status, a rejected `fetch` goes through `handleError` |
| Discord.PostIdsDistinct | src/services/discord.ts:54 | posts at different times get different ids |
| Discord.MissingWebhookFails | src/services/__tests__/discord.test.ts:119-129 | without a webhook nothing is sent, and the post fails as not configured |
| Discord.WebhookUrlAccepted | src/services/__tests__/discord.test.ts:19-22 | a discord.com webhook URL passes the check |
| Discord.OtherHostRefused | src/services/__tests__/discord.test.ts:24-28 | another host's URL fails the check |
| Discord.EmbedRequested | src/services/__tests__/discord.test.ts:63-85 | a ticked embed with a title sends that title and description |
| Discord.NoEmbedUnticked | src/services/discord.ts:29 | an unticked embed sends no embed |
| Facebook.NewFacebookService | src/services/facebook.ts:8-11 | the token is the configured one when non-empty, else the build-time key when non-empty, else `''` |
| Facebook.Post | src/services/facebook.ts:17-37 | success exactly when a token is present, with id `fb_` plus the first clock reading and url `https://facebook.com/posts/` plus the second; otherwise fails as not configured |
| Facebook.PostLinks | src/services/facebook.ts:28-33 | a success has id exactly `fb_` followed by the first clock reading and url exactly `https://facebook.com/posts/` followed by the second, and each reading parses back out of them |
| Facebook.NoTokenFails | src/services/facebook.ts:21-23 | an adapter without a token fails |
| Twitter.NewTwitterService | src/services/twitter.ts:11-17 | each credential is the configured one when non-empty, else its build-time variable when non-empty, else `''` |
| Twitter.Post | src/services/twitter.ts:23-43 | a post always yields a well-formed Twitter result; a success has id `tw_` plus the first clock reading and url `https://twitter.com/i/status/` plus the second |
| Twitter.PostIgnoresCredentials | src/services/twitter.ts:27-29 | as written, every post succeeds, even from an adapter whose check fails |
| Twitter.PostAwaited | src/services/twitter.ts:27-29 | with the check awaited, a post succeeds exactly when all four credentials are present |
| Twitter.NoCredentialsFails | src/services/twitter.ts:27-29 | with the check awaited, an adapter without credentials fails as not configured |
| Twitter.PostLinks | src/services/twitter.ts:34-39 | a post has id exactly `tw_` followed by the first clock reading and url exactly `https://twitter.com/i/status/` followed by the second, and each reading parses back out of them |
| ServiceFactory.CreateService | src/services/index.ts:9-27 | Facebook, Twitter and Discord get their adapters, each built from the given configuration or `{}`, and the other five get the placeholder for their own platform |
| ServiceFactory.ServicePost | src/services/index.ts:48-54 | every result names the adapter's platform; Facebook succeeds exactly when it holds a token; Twitter (as written) always succeeds; Discord succeeds exactly when its URL passes and the answer is ok; the placeholder always fails with its message |
| ServiceFactory.PostToMultiplePlatforms | src/services/index.ts:30-41 | one result per listed platform, in list order, each naming its platform: Facebook's succeeds exactly when a token is configured or built in, Twitter's always succeeds, Discord's exactly when the configured URL passes and its answer is ok, and any other platform's fails as not yet implemented |
| ServiceFactory.PostIndependent | src/services/index.ts:35-38 | each result is what posting to that platform alone would give |
| ServiceFactory.PlaceholderFails | src/services/index.ts:45-58 | an unimplemented platform refuses credentials and fails with "not yet implemented" |
| ServiceFactory.OnlyImplementedSucceed | src/services/index.ts:9-27 | only Facebook, Twitter and Discord posts can succeed |
| ServiceFactory.FacebookInstagram | src/services/__tests__/factory.test.ts:45-58 | Facebook then Instagram gives two results in that order, and the second fails as not yet implemented |
| ServiceFactory.FanOutIgnoresTwitterCredentials | src/services/index.ts:35-38 | the fan-out posts to Twitter successfully from an adapter without credentials, where the awaited check would refuse |

## Findings

| source | as written | input that shows it | evidently intended | confidence | as-written member | corrected member |
|---|---|---|---|---|---|---|
| src/services/twitter.ts:27 | `if (!this.validateCredentials())` negates the promise that the async check returns, and a promise is always truthy | an adapter built from `{}` with no build-time credentials: `validateCredentials` resolves to false, yet `post` succeeds | `if (!(await this.validateCredentials()))`: a post fails as "Twitter API credentials not configured" unless all four credentials are present | high (not executed) | Twitter.PostIgnoresCredentials | Twitter.PostAwaited |

## Left out

- Rendering: the JSX markup, CSS classes, animation, the preview component and the label prettifying are left out. The label prettifying is `replace(/([A-Z])/g, ' $1')`. Each pass returns the data its elements are built from.
- Error list order: the form lists the errors with `Object.entries(errors)` (src/components/SocialPosterForm.tsx:303-321), in key insertion order, which is the selection order. The model's report is a `map<string, seq<string>>`, which has no order, so that display order is not captured; each platform's own message list keeps its order.
- `icon`, `color` and `notes`: the registries keep them in a separate `Appearance` table that no rule reads.
- Network and time:
  - The HTTP exchange of the Discord adapter is a `FetchOutcome` parameter.
  - `response.text()` is read as part of that outcome, and its own failure is not modelled.
  - `JSON.stringify` of the payload is not modelled: the payload stays a value.
- Console logging is left out. So is `e.preventDefault()`.
- `Promise.all` concurrency: results are modelled as computed independently, in list order. Interleaving and timing are not modelled.
- Strings:
  - `toUpperCase` is modelled for ASCII letters only.
  - String lengths count `char`s, not UTF-16 code units.
  - `trim` uses JavaScript's ASCII and Unicode space characters, as listed in `Strings.IsJsWhitespace`.
- The `default: throw` of `createService` is not modelled: with `PlatformKey` a closed type, it cannot be reached.
- File inputs are not specially handled. `handleInputChange` stores `e.target.value` for them too, as the code does: a string, not a `FileList`.
- Only what the engine observes of a `File` is modelled: it is a value in a list.
- The test-derived lemmas generalise the tests' concrete inputs. They state the outcome for every text, caption or URL meeting the stated bounds.
- `ValidateJs.RequiredFieldsSpec` and the `Merge` lemmas are stated for the whole selection. `getRequiredFields` with the TypeScript copy is not modelled, because that function exists only in `platformConfig.js`.
