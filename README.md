# Social media post generator, modelled in Dafny

This project models the content generator behind the `POST /api/generate`
endpoint of a small Next.js application. Given a topic, a target platform
(twitter, linkedin, instagram, facebook) and a tone (professional, casual,
enthusiastic, humorous, inspirational), the endpoint returns a post made of:

- a text taken from a fixed template, with the topic spliced in;
- a short list of hashtags: up to two built from the topic's own words,
  then filler tags from a per-platform list.

Everything the generator does is total, deterministic and table-driven. The
model is written as pure functions and lemmas.

- `optional.dfy`: module `Optional`, the `Option` type used for results
  that can fail.
- `js_text.dfy`: module `JsText`, the JavaScript string and array
  operations the generator relies on:
  - `toLowerCase` and `toUpperCase`, restricted to ASCII;
  - `split` on one character, with its inverse `join`;
  - `slice(0, end)`, including a negative `end`.
- `labels.dfy`: module `Labels`. Tone and platform as datatypes, with
  parse-with-fallback functions from the free-form request strings.
- `templates.dfy`: module `Templates`:
  - a template is literal text around one or two copies of the topic;
  - rendering is proved invertible;
  - the twenty templates of the five tone functions are transcribed in full.
- `hashtags.dfy`: module `Hashtags`, `generateHashtags`: the
  filter/slice/map pipeline over the topic's words and the `commonHashtags`
  table.
- `generate.dfy`: module `Generate`:
  - `generateSocialMediaPost`: the tone `switch`;
  - the `POST` handler after JSON parsing, as a pure function from a
    request to one of three outcomes: generated (200), "Topic is required"
    (400), "Failed to generate content" (500).

Points where the model records behaviour of the code that is easy to miss:

- **Inherited property names.** `commonHashtags[platform]` with a platform
  named after an `Object.prototype` property behaves differently from other
  unknown names. Examples are `constructor`, `toString` and `__proto__`.
  - The lookup yields a truthy value, so the `|| commonHashtags.twitter`
    fallback is not taken.
  - That value has no `slice` method, so the call throws.
  - The handler's `catch` then answers "Failed to generate content".
  - `Hashtags.ObjectPrototypeKeys` lists these names.
    `Generate.HandlePost` states exactly when this outcome occurs.
- **Counts below the number of base tags.** `slice(0, count - base.length)`
  with a negative end counts back from the end of the six-entry list.
  - So a count below the number of base tags still appends filler tags:
    `6 + count - base.length` of them, or none once that is zero or less.
  - `Hashtags.CountBelowBaseCountsFromEnd` states the resulting lengths.
  - From `generateSocialMediaPost` the count is always 3 to 5, so this
    case cannot arise there.
- **Result length.** The filler slice makes up for a topic with fewer than
  two qualifying words. For counts 2 to 6 the list always has exactly
  `count` entries (`Hashtags.HashtagCountExact`).
- **Word splitting.** `split(' ')` splits on the space character only, so
  tabs and newlines stay inside words.
- **Blank topics.** A topic of spaces only passes the `!topic` check and is
  generated for (`Generate.BlankTopicIsAccepted`). Trimming happens only
  in the browser client.

## Model

| member | source | states |
|---|---|---|
| JsText.LowerChar | app/api/generate/route.ts:258 | an ASCII upper-case letter becomes the lower-case letter at the same alphabet position; every other character is unchanged; the result is never an upper-case letter |
| JsText.UpperChar | app/api/generate/route.ts:260 | the ASCII upper-case mapping never yields a lower-case letter and agrees with the original character once lower-cased |
| JsText.ToLower | app/api/generate/route.ts:258 | `toLowerCase` keeps the length and lower-cases every character independently |
| JsText.ToLowerIsLower | app/api/generate/route.ts:258 | the result of `toLowerCase` has no upper-case letter, and lower-casing again changes nothing |
| JsText.ToLowerConcat | app/api/generate/route.ts:258 | lower-casing distributes over concatenation |
| JsText.Split | app/api/generate/route.ts:258 | `split(sep)` always yields at least one piece and at most one more piece than there are characters |
| JsText.SplitPiecesOmitSeparator | app/api/generate/route.ts:258 | no piece of a split contains the separator |
| JsText.JoinSplit | app/api/generate/route.ts:258 | joining the pieces with the separator gives back the split string |
| JsText.SplitWithoutSeparator | app/api/generate/route.ts:258 | a string without the separator splits into itself alone |
| JsText.SplitAround | app/api/generate/route.ts:258 | splitting `a + sep + b` gives the pieces of `a` followed by the pieces of `b` |
| JsText.SplitJoin | app/api/generate/route.ts:258 | separator-free pieces (at least one) are recovered by splitting their join: split and join are inverse |
| JsText.SliceTo | app/api/generate/route.ts:272 | `slice(0, end)` is a prefix; it is the first `end` entries for `0 <= end <= length`, the whole array past the length, and `length + end` entries (at least 0) for a negative end |
| Labels.ToneOf | app/api/generate/route.ts:47-71 | a recognised tone name selects the tone of that name; any other string selects the professional tone (the `default` arm) |
| Labels.PlatformOf | app/api/generate/route.ts:264-271 | a recognised platform name selects the platform of that name; any other string selects the given fallback |
| Labels.ToneNameRoundTrip | app/api/generate/route.ts:47-67 | each tone's name is recognised as that tone and no other recognised name maps to it |
| Labels.PlatformNameRoundTrip | app/api/generate/route.ts:264-268 | each platform's name is recognised as that platform, whatever the fallback, and no other recognised name maps to it |
| Templates.Render | app/api/generate/route.ts:85-253 | the rendered text has the template's length plus one topic length per slot, starts with the template's leading text followed by the topic verbatim, and so contains the topic |
| Templates.RenderLayout | app/api/generate/route.ts:85-253 | the rendered text ends with the template's closing text; in a two-slot template the middle text follows the first copy of the topic and the second copy follows the middle text |
| Templates.Unrender | app/api/generate/route.ts:85-253 | a topic read back from a text renders to exactly that text |
| Templates.UnrenderRender | app/api/generate/route.ts:85-253 | the topic spliced into any template is always read back unchanged |
| Templates.RenderInjective | app/api/generate/route.ts:85-253 | two different topics never give the same text from one template |
| Templates.TemplatePlatform | app/api/generate/route.ts:85-109 | the template `if`/`else` chains test only twitter, linkedin and instagram; every other name, facebook included, reaches the final `else` (the facebook text) |
| Templates.ProfessionalContent | app/api/generate/route.ts:80-110 | the professional text contains the topic and is the professional template of the platform with the topic spliced in (reading the topic back gives it) |
| Templates.CasualContent | app/api/generate/route.ts:112-140 | the casual text contains the topic and is the casual template of the platform with the topic spliced in |
| Templates.EnthusiasticContent | app/api/generate/route.ts:142-179 | the enthusiastic text contains the topic and is the enthusiastic template of the platform with the topic spliced in |
| Templates.HumorousContent | app/api/generate/route.ts:181-211 | the humorous text contains the topic and is the humorous template of the platform with the topic spliced in |
| Templates.InspirationalContent | app/api/generate/route.ts:213-254 | the inspirational text contains the topic and is the inspirational template of the platform with the topic spliced in |
| Templates.ProfessionalContentFallback | app/api/generate/route.ts:107-109 | an unrecognised platform name gets the facebook professional text |
| Templates.CasualContentFallback | app/api/generate/route.ts:137-139 | an unrecognised platform name gets the facebook casual text |
| Templates.EnthusiasticContentFallback | app/api/generate/route.ts:176-178 | an unrecognised platform name gets the facebook enthusiastic text |
| Templates.HumorousContentFallback | app/api/generate/route.ts:208-210 | an unrecognised platform name gets the facebook humorous text |
| Templates.InspirationalContentFallback | app/api/generate/route.ts:251-253 | an unrecognised platform name gets the facebook inspirational text |
| Hashtags.PlatformTags | app/api/generate/route.ts:264-269 | every platform list has six entries, each `#` followed by at least one character |
| Hashtags.PlatformNamesAreOwnKeys | app/api/generate/route.ts:264-269 | the four platform names are own keys of the table, not inherited property names |
| Hashtags.TagListFor | app/api/generate/route.ts:271 | the lookup fails exactly for inherited property names; the four platform names get their own list, every other name the twitter list |
| Hashtags.TopicWords | app/api/generate/route.ts:258 | the words are lower-case, contain no space, and joined with spaces give the lower-cased topic back |
| Hashtags.SplitKeepsLower | app/api/generate/route.ts:258 | splitting a lower-case string gives lower-case pieces |
| Hashtags.LongWords | app/api/generate/route.ts:258 | the filter never lengthens the list |
| Hashtags.LongWordsKeepsLong | app/api/generate/route.ts:258 | a word is kept if and only if it is in the list and longer than three characters, so the empty words left by repeated spaces are never kept |
| Hashtags.LongWordsAppend | app/api/generate/route.ts:258 | the filter keeps order: it distributes over concatenation |
| Hashtags.Capitalize | app/api/generate/route.ts:260 | same length, first character not a lower-case letter, the rest unchanged, and the same word once lower-cased |
| Hashtags.Hashtag | app/api/generate/route.ts:259-261 | the tag is `#` followed by the word with its first character no longer a lower-case letter and the rest unchanged; it is one character longer and spells the word once lower-cased |
| Hashtags.BaseHashtags | app/api/generate/route.ts:259-261 | at most two base tags; two, or one per qualifying word when there are fewer; the i-th is the hashtag of the i-th qualifying word |
| Hashtags.GenerateHashtags | app/api/generate/route.ts:256-275 | fails exactly for inherited property names; otherwise the base tags come first and the rest is a prefix of the platform's list |
| Hashtags.BaseHashtagSpellsWord | app/api/generate/route.ts:258-261 | each base tag is `#`, then the first character of a lower-cased topic word longer than three characters, not a lower-case letter, then the rest of that word verbatim |
| Hashtags.QualifyingWordsInTopicOrder | app/api/generate/route.ts:258-261 | the qualifying words of `a + " " + b` are those of `a` followed by those of `b`: they keep topic order |
| Hashtags.HashtagCountExact | app/api/generate/route.ts:259-274 | for counts 2 to 6 the result has exactly `count` hashtags |
| Hashtags.NoQualifyingWordsGivesListPrefix | app/api/generate/route.ts:271-274 | a topic without qualifying words gets exactly the first `count` entries of the platform's list |
| Hashtags.CountBelowBaseCountsFromEnd | app/api/generate/route.ts:272 | for `-4 <= count < base.length` the result has `6 + count` entries: the base tags, then the first `6 + count - base.length` entries of the platform's list (none when `count == base.length - 6`) |
| Hashtags.UnknownPlatformUsesTwitterTags | app/api/generate/route.ts:271 | an unrecognised, non-inherited platform name gets the same hashtags as `twitter` |
| Generate.HashtagCount | app/api/generate/route.ts:47-71 | each tone asks for between three and five hashtags |
| Generate.ToneContent | app/api/generate/route.ts:47-71 | the text chosen by the tone `switch` contains the topic |
| Generate.ToneContentFallback | app/api/generate/route.ts:47-71 | whatever the tone, an unrecognised platform name gets the facebook text of that tone |
| Generate.GenerateSocialMediaPost | app/api/generate/route.ts:27-78 | fails exactly for inherited property names; otherwise it echoes the platform, the text contains the topic, the base tags come first, and there are exactly as many hashtags as the tone asks for |
| Generate.UnknownToneIsProfessional | app/api/generate/route.ts:68-70 | an unrecognised tone gives exactly the professional post, with three hashtags |
| Generate.UnknownPlatformFallbacks | app/api/generate/route.ts:40-77 | an unrecognised platform name is echoed back, gets the facebook text of its tone and the hashtags of a `twitter` request |
| Generate.HashtagsPerTone | app/api/generate/route.ts:47-67 | professional, casual, enthusiastic, humorous and inspirational give 3, 4, 5, 3 and 4 hashtags |
| Generate.HandlePost | app/api/generate/route.ts:3-25 | "Topic is required" exactly when the topic is absent or empty; "Failed to generate content" exactly for a present topic with an inherited property name as platform; otherwise the post echoes the platform, contains the topic, is non-empty and has the tone's hashtag count |
| Generate.BlankTopicIsAccepted | app/api/generate/route.ts:7-12 | a topic of spaces only is not rejected and a post is generated |

## Left out

- HTTP plumbing is left out because it is framework I/O. This covers
  `request.json()`, `NextResponse`, HTTP status codes and `console.error`
  (app/api/generate/route.ts:3-25). The handler is modelled from the
  parsed body to one of three outcomes.
- `Generate.HandlePost` does not model a malformed JSON body, which also
  ends in "Failed to generate content". JSON parsing is not modelled.
- `Generate.HandlePost` takes `platform` and `tone` as strings.
  - A missing field (`undefined`) is not modelled. It would select the
    facebook text, the twitter tags and the default tone, and be omitted
    from the JSON reply.
  - A `topic` that is present but not a string is not modelled either.
    A falsy one such as `0` or `false` is rejected by `!topic` with "Topic
    is required"; a truthy one makes `toLowerCase` throw.
- `platformConfig` and the `config` argument (app/api/generate/route.ts:33-40)
  are left out. They are computed and passed on, but never read, so no
  length limit is enforced.
- `JsText.ToLower`, `JsText.UpperChar` and `JsText.LowerChar` map ASCII
  letters only. JavaScript's full Unicode case mapping is not modelled,
  including mappings that change length, such as `ß` to `SS`.
- `JsText.Split` and `Templates.Render` count lengths in Unicode code points.
  JavaScript strings count UTF-16 code units, so for emoji and other
  non-BMP characters the lengths stated here differ from JavaScript's
  `length`.
- `Hashtags.LongWords` measures a word in code points, where `word.length > 3`
  counts UTF-16 code units. A word of two emoji or other non-BMP
  characters qualifies in JavaScript but not in the model.
- The emoji in the templates are written as the characters they stand
  for. The source file's character encoding is not modelled.
- The browser client (`app/page.tsx`) and the page layout
  (`app/layout.tsx`) are UI code and not part of this model. This includes
  the client-side trim check, the newest-first list and the copy-to-clipboard
  text.
