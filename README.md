# AI Fitness Coach, modelled in Dafny

A Next.js application that builds a personal fitness plan. This model covers the
application's four API routes and its home page:

- **generate-plan** (`generate_plan.dfy`) asks a language model for a plan.
  - The prompt is built from the user's form: profile lines with defaults for
    medical history and stress level, a request for the plan's parts, and a JSON
    schema naming the user.
  - Markdown code fences are stripped from the reply and the result is trimmed
    before parsing.
  - Any failure (an unreadable body, a failed generation, an unparsable reply)
    is answered with a fixed fallback plan: seven days, six meals and five tips.
- **text-to-speech** (`text_to_speech.dfy`) turns a workout or diet list into
  narration text and sends it to a speech service.
  - Workouts are read as the first three days. Each day reads the named ones
    among its first three exercises.
  - Diets are read in full. Each meal names its first three items, then a count
    of the rest, then its calories.
  - Without usable data, one of two fixed sentences is read instead.
- **generate-image** (`generate_image.dfy`) validates `{ prompt, type }` and
  answers with an image-service URL.
  - The URL carries the prompt, wrapped in a photography template chosen by
    category and percent-encoded.
  - On failure it is meant to answer with a coloured placeholder URL. As
    written, its failure path throws instead; see "## Findings".
- **motivation** (`motivation.dfy`) asks for a short quote.
  - The reply is trimmed and one quotation mark is stripped from each end.
  - On failure one of seven fixed quotes is picked by a random number.
- **the home page** (`page.dfy`, `class Home`) holds the plan on screen, a
  loading flag and the browser's local storage.
  - On startup it loads a saved plan and drops one that does not parse.
  - After a successful generation it saves the plan.
  - Regeneration clears both the screen and the saved plan.

Shared pieces:

- `text.dfy`: JavaScript string behaviour the routes rely on:
  - `||` defaults;
  - `trim` over the ECMAScript white-space and line-terminator set;
  - `join`;
  - decimal formatting of counts.
- `types.dfy`: the records of `types/index.ts`.
- `wrappers.dfy`: `Option` and `Result`.

External services are parameters:

- the language model (`generate`);
- the speech service (`synthesize`);
- `JSON.parse`/`JSON.stringify` (`parse`/`serialize`);
- `encodeURIComponent` (`encode`, percent-encoding as in section 2.1 of RFC 3986);
- `Math.random()` (a real `r` with 0 <= r < 1).

Every property holds whatever those parameters do. The one exception is the page,
which assumes that parsing a serialized plan gives the plan back and that the
empty string does not parse.

A string field the source reads for truthiness is modelled as `string`, with `""`
standing for a missing, `null` or empty value. The optional fields of
`types/index.ts` (`rest?`, `calories?`) are `Option<string>`.

## Model

| member | source | states |
|---|---|---|
| TextToSpeech.Narration | app/api/text-to-speech/route.ts:27-87 | a workout or diet request with a non-empty array starts with that kind's opening sentence and ends with its closing one; any other request reads the workout fallback when the type is "workout" and the diet fallback otherwise |
| TextToSpeech.BuildNarration | app/api/text-to-speech/route.ts:27-87 | the loops that append to the narration text produce exactly the narration |
| TextToSpeech.AppendDay | app/api/text-to-speech/route.ts:36-49 | one pass of the day loop appends exactly that day's phrase (label, then the named ones among its first three exercises) |
| TextToSpeech.AppendMeal | app/api/text-to-speech/route.ts:60-77 | one pass of the meal loop appends exactly that meal's phrase |
| TextToSpeech.WorkoutReadsFirstThreeDays | app/api/text-to-speech/route.ts:34-52 | with three or more days the narration is the opening, the first three days' phrases in order, and the closing |
| TextToSpeech.LaterDaysIgnored | app/api/text-to-speech/route.ts:35 | two workouts whose first three days agree are narrated identically |
| TextToSpeech.DayReadsFirstThreeExercises | app/api/text-to-speech/route.ts:37-48 | a labelled day with three or more exercises reads its label and exactly its first three exercises |
| TextToSpeech.LaterExercisesIgnored | app/api/text-to-speech/route.ts:42 | two days with the same label and the same first three exercises read the same |
| TextToSpeech.UnlabelledDaySkipped | app/api/text-to-speech/route.ts:37 | a day without a label contributes nothing: removing it leaves the text unchanged |
| TextToSpeech.NamelessExerciseSkipped | app/api/text-to-speech/route.ts:44 | an exercise without a name contributes nothing |
| TextToSpeech.ExercisePhraseForm | app/api/text-to-speech/route.ts:45 | a named exercise reads "<name>, <sets> sets of <reps> reps. ", and missing sets and reps read as 3 and 10 |
| TextToSpeech.WorkoutOfMealsSaysNothing | app/api/text-to-speech/route.ts:30-52 | a workout request whose array holds meals (no `day` labels) narrates only the workout opening and closing |
| TextToSpeech.DietOfDaysSaysNothing | app/api/text-to-speech/route.ts:54-80 | a diet request whose array holds workout days (no `meal` labels) narrates only the diet opening and closing |
| TextToSpeech.DietReadsEveryMeal | app/api/text-to-speech/route.ts:58-78 | diet narration is uncapped: every meal's phrase occurs in it |
| TextToSpeech.FewItemsJoined | app/api/text-to-speech/route.ts:64-66 | one to three items are read joined by ", " with nothing after |
| TextToSpeech.ManyItemsCounted | app/api/text-to-speech/route.ts:65-69 | more than three items read the first three, then ", and N more items", where N reads back as the count of the others |
| TextToSpeech.FirstItemsNamed | app/api/text-to-speech/route.ts:65-66 | each of the first three items is named in the meal's item phrase |
| TextToSpeech.FiveItemsExample | app/api/text-to-speech/route.ts:64-69 | five items read "a, b, c, and 2 more items" |
| TextToSpeech.SynthesisCall | app/api/text-to-speech/route.ts:93-110 | no contract of its own: the request sent to the speech service (URL, key, the narration as text, model and voice settings); `TextToSpeech.Post` states that the narration built by the loops is what is sent |
| TextToSpeech.Post | app/api/text-to-speech/route.ts:13-133 | an unparsable or `null` body, a `data` object whose logging throws (positive `length`, no element 0), or a failed synthesis answers 500 "Failed to generate speech."; otherwise the audio of the narration is returned as audio/mpeg with its byte length |
| Text.Trim | app/api/motivation/route.ts:15 | the result has no leading or trailing white space, occurs in the input, and is the input itself when that was already trimmed |
| Text.TrimStartDropsWhitespace | app/api/motivation/route.ts:15 | every character removed at the front is white space |
| Text.TrimEndDropsWhitespace | app/api/motivation/route.ts:15 | every character removed at the back is white space |
| Text.TrimDropsTrailingNewline | app/api/generate-plan/route.ts:63 | trimming a trimmed text followed by a newline gives the text back |
| Text.JoinContains | app/api/text-to-speech/route.ts:66 | every joined element occurs in the joined text |
| Text.Decimal | app/api/text-to-speech/route.ts:68 | a count is written as a non-empty string of digits with no leading zero |
| Text.DecimalRoundTrip | app/api/text-to-speech/route.ts:68 | reading the written count gives the count back |
| PlanPrompt.PromptStatesPerson | app/api/generate-plan/route.ts:15-17 | the prompt has a "Name", "Age" and "Gender" line with the user's values |
| PlanPrompt.PromptStatesBody | app/api/generate-plan/route.ts:18-19 | the prompt states height in cm and weight in kg |
| PlanPrompt.PromptStatesPreferences | app/api/generate-plan/route.ts:20-23 | the prompt states goal, level, location and dietary preference |
| PlanPrompt.PromptDefaults | app/api/generate-plan/route.ts:24-25 | an empty medical history reads "None" and an empty stress level "Moderate"; otherwise the user's values are used |
| PlanPrompt.PromptRequestsParts | app/api/generate-plan/route.ts:27-31 | the prompt asks for the 7-day workout, the diet, 5 tips and a quote |
| PlanPrompt.PromptEmbedsIdentity | app/api/generate-plan/route.ts:33-38 | the prompt demands JSON only, and its schema carries the user's name and goal |
| PlanPrompt.Prompt | app/api/generate-plan/route.ts:13-56 | no contract of its own: the whole prompt template, as four blocks (opening, profile lines, requested parts, JSON format); its content is stated by `PlanPrompt.PromptStatesPerson`, `PromptStatesBody`, `PromptStatesPreferences`, `PromptDefaults`, `PromptRequestsParts` and `PromptEmbedsIdentity` |
| PlanPrompt.ProfileLineInPrompt | app/api/generate-plan/route.ts:13-25 | every profile line occurs in the prompt |
| PlanReply.StripMarker | app/api/generate-plan/route.ts:63 | removing a marker with its optional newline never lengthens the text |
| PlanReply.CleanReply | app/api/generate-plan/route.ts:63 | the cleaned reply is trimmed and no longer than the reply |
| PlanReply.StripMarkerKeepsPlainText | app/api/generate-plan/route.ts:63 | a text without backticks before the first fence passes through unchanged |
| PlanReply.NoFencesOnlyTrimmed | app/api/generate-plan/route.ts:63 | a reply without backticks is only trimmed |
| PlanReply.StripOpeningFence | app/api/generate-plan/route.ts:63 | the opening fence goes with its newline and the closing fence stays |
| PlanReply.StripClosingFence | app/api/generate-plan/route.ts:63 | the closing fence goes, leaving the newline before it |
| PlanReply.FenceRoundTrip | app/api/generate-plan/route.ts:62-63 | a trimmed JSON text wrapped in a fenced block cleans back to itself |
| PlanFallback.FallbackPlan | app/api/generate-plan/route.ts:72-173 | the fallback plan is for "User" with goal "General Fitness", has 7 days, 6 meals, 5 tips and a non-empty quote, and every day and meal is fully labelled |
| PlanFallback.FallbackWorkout | app/api/generate-plan/route.ts:77-132 | seven labelled days; every exercise has a name, sets, reps and rest |
| PlanFallback.FallbackDiet | app/api/generate-plan/route.ts:133-164 | six named meals, each with items and calories |
| PlanFallback.FallbackTips | app/api/generate-plan/route.ts:165-171 | five tips |
| GeneratePlan.PlanRoute | app/api/generate-plan/route.ts:7-177 | the route always answers with status 200 |
| GeneratePlan.UnreadableBodyFallsBack | app/api/generate-plan/route.ts:9 | an unreadable or `null` body gets the fallback plan |
| GeneratePlan.FailedGenerationFallsBack | app/api/generate-plan/route.ts:58-60 | a failed generation gets the fallback plan |
| GeneratePlan.UnparsableReplyFallsBack | app/api/generate-plan/route.ts:63-65 | a reply that does not parse once cleaned gets the fallback plan |
| GeneratePlan.ParsedReplyReturned | app/api/generate-plan/route.ts:58-67 | a reply that parses once cleaned is returned as it parsed |
| GenerateImage.EnhancedPrompt | app/api/generate-image/route.ts:20-23 | "exercise" gets the fitness template and anything else the food template; both contain the prompt |
| GenerateImage.TemplatesDiffer | app/api/generate-image/route.ts:20-23 | no fitness prompt starts like a food prompt and no food prompt starts like a fitness prompt |
| GenerateImage.ImageUrl | app/api/generate-image/route.ts:28-30 | the URL is the service base, exactly the encoded template, then the fixed size and model options |
| GenerateImage.PlaceholderText | app/api/generate-image/route.ts:47 | the placeholder text is the prompt when it is non-empty, and "Image" exactly when it is empty |
| GenerateImage.PlaceholderUrl | app/api/generate-image/route.ts:45-47 | the colour marks the category (6366f1 exercise, 10b981 otherwise) and the URL is exactly the base, that colour, "/ffffff?text=" and the encoded placeholder text, with nothing in between |
| GenerateImage.PlaceholderResponse | app/api/generate-image/route.ts:49-54 | the placeholder answer is unsuccessful, labelled "Placeholder" and carries the error's message |
| GenerateImage.ImageRoute | app/api/generate-image/route.ts:4-56 | the corrected handler never crashes |
| GenerateImage.ImageRouteAsWritten | app/api/generate-image/route.ts:41-47 | the handler as written crashes exactly when the body is not JSON or is `null`, and otherwise answers as the corrected one |
| GenerateImage.UnreadableBodyCrashesAsWritten | app/api/generate-image/route.ts:41-47 | for every failure of the body (not JSON, or `null`) and every error message, the handler as written crashes, and the intended one answers the food-coloured "Image" placeholder, unsuccessful and carrying that message |
| GenerateImage.MissingFieldsRejected | app/api/generate-image/route.ts:8-13 | a request is refused, with 400 "Missing prompt or type", if and only if its prompt or type is missing |
| GenerateImage.SuccessIffValid | app/api/generate-image/route.ts:8-39 | the answer is successful if and only if the body parsed with both fields, and then it names the image service |
| GenerateImage.ValidRequestUrl | app/api/generate-image/route.ts:20-39 | a valid request's URL carries the encoded template, which contains the prompt |
| Motivation.StripQuoteMarks | app/api/motivation/route.ts:18 | the first character goes exactly when it is a quotation mark, and the last exactly when it is one and is not that same first character; nothing else changes; the result occurs in the input |
| Motivation.OpeningMarkOnly | app/api/motivation/route.ts:18 | text quoted at the start only loses just that mark |
| Motivation.ClosingMarkOnly | app/api/motivation/route.ts:18 | text quoted at the end only loses just that mark |
| Motivation.CleanQuote | app/api/motivation/route.ts:15-18 | the cleaned quote occurs in the raw reply |
| Motivation.InnerTextKept | app/api/motivation/route.ts:18 | everything strictly between the first and last character survives |
| Motivation.UnquotedUnchanged | app/api/motivation/route.ts:18 | text without a quotation mark at either end is unchanged |
| Motivation.QuotedRoundTrip | app/api/motivation/route.ts:18 | exactly one mark goes from each end, whatever the inner text starts or ends with |
| Motivation.LoneMarkRemoved | app/api/motivation/route.ts:18 | a lone quotation mark leaves the empty string |
| Motivation.PaddedQuoteCleaned | app/api/motivation/route.ts:15-18 | a trimmed text quoted and followed by a newline cleans back to itself |
| Motivation.FallbackIndex | app/api/motivation/route.ts:37 | the picked index is within the seven quotes and is the floor of r times seven |
| Motivation.EveryFallbackReachable | app/api/motivation/route.ts:27-37 | every fallback quote is picked by some random number in [0, 1) |
| Motivation.MotivationRoute | app/api/motivation/route.ts:7-41 | the answer is always 200: the cleaned reply when generation succeeds, otherwise one of the seven fallback quotes |
| Page.LoadSynchronises | app/page.tsx:15-26 | after the startup load, a plan on screen is the saved one and a saved plan is on screen |
| Page.LoadIdempotent | app/page.tsx:15-26 | loading twice is loading once |
| Page.FailedLoadRemovesOnlyPlan | app/page.tsx:21-24 | a saved plan that does not parse is removed, and every other stored key is untouched |
| Page.GenerationKeepsInStep | app/page.tsx:28-50 | a failed request, or a successful one whose plan is saved, keeps screen and storage in step |
| Page.UnsavedPlanOutOfStep | app/page.tsx:41-46 | when `setItem` throws after `setPlan`, the plan is shown but not stored: with nothing saved before, screen and storage are out of step and a reload shows the form |
| Page.GeneratedPlanSurvivesReload | app/page.tsx:41-43 | after a successful generation, a fresh page's startup load shows exactly the generated plan |
| Page.RegenerationClears | app/page.tsx:52-55 | regeneration keeps screen and storage in step, and a reload afterwards still shows the form |
| Page.PlanRouteAnswersOk | app/page.tsx:37-39 | the plan route's status is always ok, so the page's `!response.ok` error never comes from its answers |
| Page.Home.constructor | app/page.tsx:12-13 | the page starts with no plan and not loading |
| Page.Home.LoadSaved | app/page.tsx:15-26 | the startup effect changes plan and storage as the load specification says, leaves the loading flag alone, and from an empty screen leaves screen and storage in step |
| Page.Home.StartGeneration | app/page.tsx:29 | the loading flag is set and nothing else changes |
| Page.Home.FinishGeneration | app/page.tsx:30-49 | a successful outcome shows the plan and saves it if `setItem` succeeds; a failed request changes neither; the alert is raised when the request failed or the save threw; loading ends either way; screen and storage stay in step unless the save threw |
| Page.Home.HandleGeneratePlan | app/page.tsx:28-50 | the whole handler: the generation specification, loading off at the end, an alert if and only if the request failed or the save threw, and screen and storage in step unless the save threw |
| Page.Home.Regenerate | app/page.tsx:52-55 | plan and saved plan are dropped, the loading flag is unchanged, and screen and storage are in step |
| Page.Home.CurrentView | app/page.tsx:78-82 | the form (with the loading flag) is shown if and only if there is no plan; otherwise that plan is displayed |

## Left out

- Calls to the language model and the speech service are parameters of the
  routes (the image route calls no service: it only builds a URL). The model
  captures the whole prompt the plan route passes to `generate`, and the speech
  request's URL, key, text, model id and voice settings. It does not capture
  the motivation route's prompt: that route's fixed request for a quote of at
  most 15 words (motivation/route.ts:11) is not modelled, and the route is
  modelled from the reply text onward. Nor does it capture the Gemini model name
  (`gemini-2.5-flash` in both the plan and the motivation route) or latency.
- `JSON.parse` and `JSON.stringify` are parameters, and parsed values have the
  declared record shapes. In the source, valid JSON of the wrong shape (a
  `null`, a number, a plan missing its arrays) passes through unchecked. The
  model does not capture what then happens to it, for example a stored `"null"`
  clearing the plan on load.
- In the text-to-speech route, a `data` value that is not an array is one case
  (`NotArray`), split by whether the logging at line 21 throws on it. An array
  that mixes days and meals, or holds values that are not objects, is not
  modelled. Non-string labels are treated as missing labels.
- `localStorage.getItem` and `localStorage.removeItem` are assumed not to throw.
  A failing `setItem` is modelled, as the `stored` outcome.
- `encodeURIComponent` is a parameter. Its `URIError` on lone surrogates is
  not modelled.
- `console.log` and `console.error` output is not modelled.
- The speech request's method (`POST`) and its `Accept: audio/mpeg` and
  `Content-Type: application/json` headers are not recorded; of its headers
  only `xi-api-key` is, as `SynthesisRequest.apiKey`. The request is recorded
  as a value and not sent.
- `Math.random()` is a real number in [0, 1), not a binary floating-point value.
- `alert(...)` is the alert text returned by the handler.
- React rendering, animation and the components the page renders
  (`FitnessForm`, `PlanDisplay`, `MotivationQuote`) are outside the model, apart
  from which of the form or the plan is shown.
- The page's handlers run one at a time. Interleaved asynchronous handlers (a
  regeneration while a generation is in flight) are not modelled.
- The page's `loading` flag is set and cleared around a generation with nothing
  in between. The model does not capture the time during which the form shows
  it.
- `lib/utils.ts`, `app/layout.tsx` and the components are not part of this model.
- TextToSpeech.Post: the `Content-Length` header is the decimal byte count. The
  audio body is passed through as bytes. A body that parses to something other
  than an object or `null` (a number, a string) is not distinguished from an
  object with those members missing.
- PlanReply.StripMarker: its own contract gives only a length bound. What it
  removes is stated only for texts without stray backticks. On other texts the
  left-to-right scan can leave a new marker behind: "```" + "```json" + "json"
  becomes "```json".
- PlanReply.CleanReply: its own contract gives only trimming and a length bound.
  What it removes is stated by the lemmas beside it, for texts without stray
  backticks, rather than for every reply.
- GeneratePlan.PlanRoute: its contract gives only the status. Which plan it
  returns is stated case by case in the four lemmas that follow it.

## Findings

| source | as written | input that shows it | evidently intended | confidence | as-written member | corrected member |
|---|---|---|---|---|---|---|
| app/api/generate-image/route.ts:45-47 | the `catch` block builds the placeholder from `prompt` and `type`, which are `const` declarations inside the `try` block and not in scope there, so reaching the `catch` raises a `ReferenceError` that escapes the handler | a request body that is not JSON, so `request.json()` throws; or the JSON `null`, whose destructuring at line 6 throws a `TypeError` | answer with the placeholder, built from whatever prompt and type were read (none here, so the food colour and the text "Image"), marked unsuccessful and carrying the error's message; the route's documented guarantee is that it always yields an image reference | medium, not executed | GenerateImage.ImageRouteAsWritten, GenerateImage.UnreadableBodyCrashesAsWritten | GenerateImage.ImageRoute |
