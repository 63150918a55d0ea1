# TweetAlchemy optimize core, in Dafny

TweetAlchemy is a one-page tool that rewrites a tweet through a hosted
language model. This project models the deterministic logic around that
call and proves properties of it.

- **The `POST /api/optimize` handler** (`OptimizeRoute`, `route.dfy`). It
  refuses a missing or empty text with status 400. It builds the ordered
  list of instructions from the option flags and joins them with `", "`
  into the prompt. It turns the model's completion into
  `{original, optimized}`, falling back to the original text when the
  trimmed completion is empty. An exception becomes status 500 with the
  error's message.
- **The page** (`Page`, `page.dfy`). This covers the options record and
  `toggleOption`, the tone selector, and the `handleOptimize` action as a
  method on a `PageState` class. Its state fields are `tweet`, `optimized`,
  `copyText`, `loading` and `options`. It also covers the display
  compaction `raw.replace(/\n{2,}/g, "\n")`.
- **`String.prototype.trim`** (`JsText`, `jstext.dfy`). Both sides use it.
  The characters it removes are ECMAScript's WhiteSpace and LineTerminator,
  listed in sections 12.2 and 12.3 of ECMA-262.
- `Wrappers` (`wrappers.dfy`) holds the `Option` type for JSON fields that
  may be absent.

The model is an opaque input. `Upstream` is what the completion call yields:
the first choice's content, or `None` when it is missing, or the message of
an exception. `Transport` is how the browser's `fetch` ends. The handler is
a method, `OptimizeRoute.Post`. It returns the response together with the
prompt it hands to the model, or `None` when it answers without calling the
model. `Post` is proved equal to the specification function
`OptimizeRoute.Respond`. `Page.PageState.HandleOptimize` calls `Post`, so
the page's state after an optimize is tied to what the handler answers.

The handler pushes string literals onto `tasks`. The model pushes named
`Instruction` values instead. `Wording` gives each one's exact text, and
`WordingInjective` shows that no two wordings are alike, so no information
is lost. The list is specified feature by feature:
`Tasks(o)` is the concatenation of each feature's `Contribution`, in
grammar, spacing, tone, emojis, hashtags, algorithm order. `BuildTasks`
is the handler's imperative chain of `if`s and pushes, and is proved to
produce `Tasks`.

Behaviour worth noting:
- The page refuses a tweet that trims to nothing. The handler refuses only
  a falsy text (`!text`), so a text of spaces alone is sent on to the model
  (`WhitespaceTextAccepted`).
- A 400 or 500 from the handler is not a `fetch` failure. The page then
  shows, and also puts into `copyText`, "⚠️ Could not optimize tweet.".
  Only a failed `fetch` shows "❌ Error optimizing tweet.".
- The page's options record has no `emojis` field. Every request from the
  page therefore carries "Do NOT add any emojis"
  (`PageRequestsForbidEmojis`).
- The tone is read from `options.tone`. Its recognised values are
  "professional", "casual" and "hype". "none", an absent tone and any other
  value add no tone instruction.

## Model

| member | source | states |
|---|---|---|
| `JsText.Trim` | src/app/api/optimize/route.ts:81 | `trim()` returns the slice of its input left after dropping whitespace at both ends: everything dropped is whitespace, and a non-empty result neither starts nor ends with whitespace |
| `JsText.TrimStart` | src/app/api/optimize/route.ts:81 | the leading half of `trim()`: a suffix of the input preceded only by whitespace, starting with a non-whitespace character if non-empty |
| `JsText.TrimEnd` | src/app/api/optimize/route.ts:81 | the trailing half of `trim()`: a prefix of the input followed only by whitespace, ending with a non-whitespace character if non-empty |
| `JsText.TrimEmptyIff` | src/app/page.tsx:27 | a string trims to "" exactly when every character is whitespace |
| `JsText.TrimIdempotent` | src/app/api/optimize/route.ts:81 | trimming twice equals trimming once |
| `JsText.TrimKeepsTrimmed` | src/app/api/optimize/route.ts:81 | a string with no whitespace at either end is its own trim |
| `JsText.IsBlank` | src/app/page.tsx:27 | `!tweet.trim()` holds exactly when the tweet is all whitespace |
| `OptimizeRoute.Wording` | src/app/api/optimize/route.ts:22-63 | the exact text the handler pushes for each instruction; `WordingInjective` shows that no two coincide |
| `OptimizeRoute.Contribution` | src/app/api/optimize/route.ts:22-63 | the instructions one feature's `if` pushes; `ContributionRanked` and `ContributionAt` say it is at most one instruction of that feature, exactly one for emojis and hashtags |
| `OptimizeRoute.Tasks` | src/app/api/optimize/route.ts:19-63 | the list `tasks` holds once every push has run, feature by feature; `TasksOrdered`, `TaskPresence` and `TaskCount` fix its order, its members and its length |
| `OptimizeRoute.ToneInstruction` | src/app/api/optimize/route.ts:35-42 | a tone instruction exists exactly for "professional", "casual" and "hype", each with its own variant; none for an absent tone, "", "none" or any other value |
| `OptimizeRoute.WordingInjective` | src/app/api/optimize/route.ts:22-63 | two instructions have the same wording exactly when they are the same instruction |
| `OptimizeRoute.ContributionRanked` | src/app/api/optimize/route.ts:22-63 | each feature contributes at most one instruction, and always exactly one for emojis and for hashtags; every instruction contributed belongs to that feature |
| `OptimizeRoute.RankedAppend` | src/app/api/optimize/route.ts:19-63 | pushing at most one instruction of a later feature onto a list ordered by feature keeps it ordered |
| `OptimizeRoute.ContributionAt` | src/app/api/optimize/route.ts:22-63 | each feature's pushes amount to nothing or one instruction ranked at that feature's place in the order |
| `OptimizeRoute.TasksOrdered` | src/app/api/optimize/route.ts:19-63 | instructions appear in strictly increasing feature order: grammar, spacing, tone, emojis, hashtags, algorithm, so no feature appears twice |
| `OptimizeRoute.TaskCount` | src/app/api/optimize/route.ts:19-63 | the list has one entry per set grammar, spacing and algo flag, one for a recognised tone, and two for emojis and hashtags, so between 2 and 6 entries |
| `OptimizeRoute.InTasks` | src/app/api/optimize/route.ts:19-63 | an instruction is in the list exactly when its own feature contributes it |
| `OptimizeRoute.TaskPresence` | src/app/api/optimize/route.ts:22-63 | an instruction is in the list exactly when the options call for it: an optional one when its flag is set, the positive or negative emoji and hashtag wording according to the flag, a tone variant exactly for its tone |
| `OptimizeRoute.WordingPresence` | src/app/api/optimize/route.ts:22-63 | the same presence law for the strings pushed |
| `OptimizeRoute.MissingOptionsTasks` | src/app/api/optimize/route.ts:12-63 | without an `options` object the list is exactly ["Do NOT add any emojis", "Do NOT add any hashtags"] |
| `OptimizeRoute.ExampleTasks` | src/app/api/optimize/route.ts:19-63 | grammar and hashtags on with a professional tone give grammar, professional tone, no emojis and hashtags, in that order |
| `OptimizeRoute.BuildTasks` | src/app/api/optimize/route.ts:19-63 | the handler's push chain produces exactly the feature-by-feature list `Tasks` of the options, a missing `options` read as all flags off |
| `OptimizeRoute.Join` | src/app/api/optimize/route.ts:69 | `tasks.join(sep)`; `JoinAt`, `JoinSeparatorAt` and `JoinLength` say which character is at every position |
| `OptimizeRoute.OffsetStep` | src/app/api/optimize/route.ts:69 | in `tasks.join(", ")` each element starts one element and one separator after the previous one |
| `OptimizeRoute.JoinAt` | src/app/api/optimize/route.ts:69 | `tasks.join(sep)` holds every element at its offset, the sum of the earlier elements' and separators' lengths |
| `OptimizeRoute.JoinSeparatorAt` | src/app/api/optimize/route.ts:69 | in `tasks.join(sep)` every element but the last is followed by the separator |
| `OptimizeRoute.JoinLength` | src/app/api/optimize/route.ts:69 | `tasks.join(sep)` ends right after its last element |
| `OptimizeRoute.DirectiveAt` | src/app/api/optimize/route.ts:69 | wherever a joined list is embedded, each element sits at its offset from where the join starts |
| `OptimizeRoute.Prompt` | src/app/api/optimize/route.ts:66-71 | the template literal, with `PromptHead`, `PromptMiddle` and `PromptTail` holding its fixed text and whitespace exactly; `PromptShape` and `PromptContains` say where the tweet and each instruction sit in it |
| `OptimizeRoute.PromptShape` | src/app/api/optimize/route.ts:66-71 | the prompt quotes the tweet verbatim after the fixed head, and the joined directive after the fixed middle |
| `OptimizeRoute.PromptContains` | src/app/api/optimize/route.ts:66-71 | every instruction appears in the prompt at its place in the directive |
| `OptimizeRoute.Optimized` | src/app/api/optimize/route.ts:81-86 | `optimized` is the trimmed completion when that is non-empty, and the original text when the completion is missing or blank |
| `OptimizeRoute.OptimizedNonEmpty` | src/app/api/optimize/route.ts:81-86 | for a non-empty text `optimized` is never empty, and it is either the text or carries no whitespace at either end |
| `OptimizeRoute.ServerError` | src/app/api/optimize/route.ts:87-93 | an exception yields status 500 with the exception's message, or "Something went wrong" when that message is empty |
| `OptimizeRoute.NoTextRejected` | src/app/api/optimize/route.ts:14-16 | a missing or empty text gets status 400 with "No text provided", whatever the model would answer |
| `OptimizeRoute.WhitespaceTextAccepted` | src/app/api/optimize/route.ts:14 | a text of whitespace alone is not refused |
| `OptimizeRoute.RespondOutcomes` | src/app/api/optimize/route.ts:10-94 | the status is 200, 400 or 500. It is 400 exactly for a parsed body without text, and 200 exactly when text is present and the model answered. A 200 carries the text verbatim as `original` and a non-empty `optimized`; any other status carries a non-empty error |
| `OptimizeRoute.Respond` | src/app/api/optimize/route.ts:10-94 | the handler's response for a body and the model's answer; `NoTextRejected`, `WhitespaceTextAccepted` and `RespondOutcomes` state which status and body each case gets |
| `OptimizeRoute.Post` | src/app/api/optimize/route.ts:10-94 | the handler's response is `Respond`. The model is called exactly when the body parsed and has text, and then with the prompt built from the text and `Tasks` joined by ", " |
| `Page.Toggled` | src/app/page.tsx:21-24 | `toggleOption(k)` flips exactly flag `k` and keeps every other flag and the tone; the tone key leaves the record unchanged |
| `Page.ToggleTwice` | src/app/page.tsx:21-24 | toggling the same key twice restores the record |
| `Page.PageRequestsForbidEmojis` | src/app/page.tsx:13-19 | the page's record has no `emojis` field, so every request from it gets "Do NOT add any emojis" and never the add-emojis instruction (route.ts lines 45-49) |
| `Page.PageToneInstruction` | src/app/page.tsx:18 | the page's tone "none" adds no tone instruction; each other tone adds its own variant |
| `Page.InitialTasks` | src/app/page.tsx:13-19 | with the initial options the handler asks for grammar, spacing, no emojis, hashtags and the algorithm style |
| `Page.RequestFor` | src/app/page.tsx:34-38 | the body `JSON.stringify({ text: tweet, options })` as the handler reads it: the tweet as `text`, the page's flags and tone, and `emojis` false because the record has no such field; `PageRequestsForbidEmojis` and `InitialTasks` state the instructions it yields |
| `Page.Compact` | src/app/page.tsx:44 | compaction never lengthens the string, empties only the empty string, and keeps the first character |
| `Page.CompactNoDouble` | src/app/page.tsx:44 | the compacted string has no two line feeds in a row |
| `Page.CompactKeepsText` | src/app/page.tsx:44 | compaction deletes only line feeds: removing every line feed from input and output gives the same string |
| `Page.CompactIdentity` | src/app/page.tsx:44 | compaction leaves a string unchanged exactly when it has no two line feeds in a row |
| `Page.CompactIdempotent` | src/app/page.tsx:44 | compacting twice equals compacting once |
| `Page.CompactRun` | src/app/page.tsx:44 | a run of one or more line feeds becomes exactly one line feed |
| `Page.CompactSplit` | src/app/page.tsx:44 | compaction works run by run: a non-line-feed character is kept and separates the compaction of what precedes it from that of what follows |
| `Page.Raw` | src/app/page.tsx:41 | the raw result is the response's non-empty `optimized`, and otherwise (an error body, or an empty field) "⚠️ Could not optimize tweet." |
| `Page.PageState.constructor` | src/app/page.tsx:7-19 | the page starts with empty tweet, display and copy text, not loading, and the initial options |
| `Page.PageState.SetTweet` | src/app/page.tsx:80 | typing replaces the tweet and nothing else |
| `Page.PageState.ToggleOption` | src/app/page.tsx:21-24 | a checkbox replaces the options with `Toggled` of them and changes nothing else |
| `Page.PageState.SelectTone` | src/app/page.tsx:178-183 | the selector sets the tone and nothing else |
| `Page.PageState.HandleOptimize` | src/app/page.tsx:26-54 | a blank tweet sends nothing, shows the warning and clears `copyText`. Otherwise it sends the page's request and then `loading` is false. A failed fetch shows the error message with empty `copyText`. A response puts the raw result in `copyText` and its compaction on display. Tweet and options are unchanged |
| `Page.PageNeverSendsEmptyText` | src/app/page.tsx:27-37 | a request the page sends is never refused with 400 |
| `Page.PageResult` | src/app/page.tsx:34-47 | when the model answers, the page copies the trimmed completion, or the tweet itself when the completion is missing or blank. When the model call throws, the page copies "⚠️ Could not optimize tweet." |

## Left out

- The OpenAI client and the `chat.completions.create` call (route.ts lines 5-8 and 73-79) are a network call to a hosted model. Its result is the parameter `Upstream`. The model name and the system message are part of that call and are not modelled.
- `req.json()` and the destructuring `const { text, options } = ...` (route.ts line 12) are modelled by their outcome: a body with its `text` and `options` fields (`Parsed`), or the message of the exception either throws (`Unparsable`). A body that is not JSON makes `req.json()` throw; a JSON `null` parses but makes the destructuring throw a TypeError. Both reach the catch at lines 87-93 and give status 500.
- Non-boolean JSON flag values are not modelled: each flag is reduced to its JavaScript truthiness. A non-string `text` (a number, say) and a non-string `tone` are not modelled either; both are strings or absent.
- `console.error` logging (route.ts line 88) has no effect on the response.
- `fetch`, `JSON.stringify` and `res.json()` on the page (page.tsx lines 34-40) are HTTP plumbing. The page's request is `RequestFor`. The response is the handler's, delivered or lost as `Transport` says. A response body that is not JSON is not modelled, because the handler always answers JSON.
- `Page.PageState.HandleOptimize`: `loading` is true only while the request is in flight. The method runs the request as one sequential step, so that intermediate state is not observable in its contract. Concurrent clicks are not modelled; the button is disabled while loading.
- JSX rendering, CSS, the settings modal (`showSettings`), the placeholder texts and the clipboard write (page.tsx lines 56-208) are presentation and a browser API.
- src/app/layout.tsx (page metadata and fonts) and eslint.config.mjs (lint configuration) contain no logic.
- Strings are sequences of Unicode scalar values, not UTF-16 code units. Lone surrogates are not modelled. The Zs characters that `trim()` removes are those of the current Unicode version.
