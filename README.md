# Essay coach and programme pages — a Dafny model

This project models the deterministic core of an application-coaching web app:

- **The essay-feedback handler** (`AiCoach`). It answers a CORS preflight, rejects an essay that is shorter than
  100 characters once trimmed, calls a chat-completion API, derives `overallScore` as the rounded mean of the three
  scores, locates each highlighted snippet in the essay (first occurrence, or `0/0` when absent), stores the result
  when a user id is present, and maps every thrown failure to a 500 carrying the error's message, or a fixed default message when the
  thrown value is not an `Error`.
- **The programme catalogue filter** (`Programs`): a case-insensitive search on name or description, combined with
  type and region filters for which `"all"` matches everything.
- **The dashboard carousel and greeting** (`Dashboard`): next/previous with wrap-around, jumping to a dot, the
  active dot, and the shortened wallet address.
- **The assessment wizard** (`Assessment`): a step counter held in 1..4 by Previous and Next, the form it fills one
  field at a time, the progress indicators and the submit button that replaces Next on the last step.
- **The course cards** (`Courses`): colour classes with a blue fallback, the status badge, the action button and
  the progress-bar rule.

`JsString` models the JavaScript string built-ins these rely on (`trim`, `toLowerCase`, `indexOf`, `includes`).
`Wrappers` holds `Option` and `Result`; `Numbers` holds `Min` and `Max`.

State that the pages keep in React hooks is modelled as classes (`Dashboard.Carousel`,
`Assessment.Wizard`) whose methods update fields. Everything else is functions and lemmas. The handler is a method
with early returns. The outcomes of its I/O are parameters: the parsed body, the configured API key, the
chat-completion reply and the insert. It returns the HTTP response together with the list of effects it performed,
namely the chat-completion call and the insert.

Two behaviours of the handler's code are worth noting:

- A failed store write turns a successful analysis into a 500 only when the insert's promise rejects or the client
  cannot be created. An error that the insert returns as a value is never inspected, so the response is still 200.
- The preflight answer carries the body `"ok"`, not an empty body.

## Model

| member | source | states |
|---|---|---|
| `JsString.SkipForward` | supabase/functions/ai-coach/index.ts:49 | the forward scan stops at the first character that is not whitespace, having passed only whitespace |
| `JsString.SkipBackward` | supabase/functions/ai-coach/index.ts:49 | the backward scan stops just after the last character that is not whitespace, having passed only whitespace |
| `JsString.SkipBackwardStopsAbove` | supabase/functions/ai-coach/index.ts:49 | the backward scan never passes a character that is not whitespace |
| `JsString.TrimBounds` | supabase/functions/ai-coach/index.ts:49 | `trim` cuts only whitespace: everything before the first cut and after the second is whitespace, and the kept part starts and ends with a character that is not |
| `JsString.Trim` | supabase/functions/ai-coach/index.ts:49 | the trimmed string is no longer than the input and neither starts nor ends with whitespace |
| `JsString.TrimUnique` | supabase/functions/ai-coach/index.ts:49 | any cut that removes only whitespace at both ends and keeps a part with non-whitespace ends yields exactly what `trim` yields |
| `JsString.TrimKeepsTrimmed` | supabase/functions/ai-coach/index.ts:49 | a string that neither starts nor ends with whitespace is unchanged by `trim` |
| `JsString.TrimIdempotent` | supabase/functions/ai-coach/index.ts:49 | trimming twice gives the same string as trimming once |
| `JsString.LowerChar` | frontend/src/pages/Programs.tsx:75-76 | upper-case ASCII letters are shifted to lower case; every other character is kept |
| `JsString.ToLower` | frontend/src/pages/Programs.tsx:75-76 | lower-casing keeps the length and maps each character on its own by `LowerChar` |
| `JsString.ToLowerIdempotent` | frontend/src/pages/Programs.tsx:75-76 | lower-casing twice is lower-casing once |
| `JsString.IndexOfFrom` | supabase/functions/ai-coach/index.ts:154 | the result is the first position at or after the start where the snippet occurs, or -1 exactly when there is none |
| `JsString.IndexOf` | supabase/functions/ai-coach/index.ts:154 | `indexOf` is -1 exactly when the snippet never occurs; otherwise it is an occurrence with no earlier one |
| `JsString.Includes` | frontend/src/pages/Programs.tsx:75-76 | `includes` is `indexOf` not returning -1 |
| `JsString.IncludesIff` | frontend/src/pages/Programs.tsx:75-76 | `includes` holds exactly when the substring occurs somewhere |
| `JsString.IncludesEmpty` | frontend/src/pages/Programs.tsx:75-76 | every string includes the empty string |
| `AiCoach.RoundThird` | supabase/functions/ai-coach/index.ts:145-150 | `Math.round(n / 3)` is the integer r with r - 1/2 <= n/3 < r + 1/2 |
| `AiCoach.OverallScore` | supabase/functions/ai-coach/index.ts:145-150 | the rounded mean equals (s + c + m + 1) div 3 and lies between the smallest and the largest of the three scores |
| `AiCoach.OverallScoreInScale` | supabase/functions/ai-coach/index.ts:145-150 | three scores on the 0..100 scale give an overall score on that scale |
| `AiCoach.Locate` | supabase/functions/ai-coach/index.ts:153-159 | the issue keeps its text, issue and suggestion; a snippet that occurs gets its first occurrence as start and start + length as end; an absent one gets 0/0 |
| `AiCoach.LocateAll` | supabase/functions/ai-coach/index.ts:153-160 | the located list has the reported list's length and order, and each entry is located as above |
| `AiCoach.LocateSpanShowsMatch` | supabase/functions/ai-coach/index.ts:157-158 | for a non-empty snippet, the fallback is told apart from a match by the span's length; an empty snippet always sits at 0/0 |
| `AiCoach.BuildResponse` | supabase/functions/ai-coach/index.ts:162-166 | the response copies the three scores, strengths, weaknesses and suggestions unchanged, has the rounded mean as overall score, and the located issues in order |
| `AiCoach.ErrorMessage` | supabase/functions/ai-coach/index.ts:187-190 | an `Error` gives its own message; any other thrown value gives the fixed default |
| `AiCoach.EssayAccepted` | supabase/functions/ai-coach/index.ts:49 | the gate passes a present, non-empty essay whose trimmed length is at least 100 |
| `AiCoach.EssayAcceptedIff` | supabase/functions/ai-coach/index.ts:49 | the gate is "present and at least 100 characters once trimmed"; an accepted essay has at least 100 characters; 100 or more characters without whitespace at either end pass |
| `AiCoach.HandleRequest` | supabase/functions/ai-coach/index.ts:39-202 | preflight answers 200 "ok" before the body is read; an unreadable body gives 500; status 400 with the fixed message exactly when the essay fails the gate, with no call made; a missing key gives 500 with no call; at most two effects: one chat-completion call exactly when admitted and configured, first; each upstream failure gives 500 with its message; an insert exactly when the analysis succeeded and a user id is present, carrying the response that is returned; a rejected insert gives 500; otherwise 200 with the built response |
| `Programs.MatchesSearch` | frontend/src/pages/Programs.tsx:75-76 | the lower-cased query is included in the lower-cased name or description |
| `Programs.MatchesType` | frontend/src/pages/Programs.tsx:77 | the type filter is "all" or equals the programme's type |
| `Programs.MatchesRegion` | frontend/src/pages/Programs.tsx:78 | the region filter is "all" or equals the programme's region |
| `Programs.Keep` | frontend/src/pages/Programs.tsx:74-79 | the filter callback is the conjunction of the three tests, and with an empty query and both filters on "all" every programme is kept |
| `Programs.FilterPrograms` | frontend/src/pages/Programs.tsx:74-80 | every kept programme is in the catalogue and passes the search, type and region tests (soundness); every catalogue programme that passes them is kept (completeness) |
| `Programs.FilterCounts` | frontend/src/pages/Programs.tsx:74-80 | each programme occurs in the result exactly as often as in the catalogue if it passes the tests, and not at all otherwise, so repeated entries are kept |
| `Programs.FilterIsSubsequence` | frontend/src/pages/Programs.tsx:74 | the result is a subsequence of the catalogue, in catalogue order |
| `Programs.FilterNothing` | frontend/src/pages/Programs.tsx:75-79 | an empty search with both filters on "all" keeps the whole catalogue, in order |
| `Programs.FilterMonotone` | frontend/src/pages/Programs.tsx:74-80 | a stricter choice of search and filters keeps a subsequence of what a looser one keeps |
| `Programs.TypeFilterNarrows` | frontend/src/pages/Programs.tsx:77 | choosing a type instead of "all" never adds or reorders programmes |
| `Programs.RegionFilterNarrows` | frontend/src/pages/Programs.tsx:78 | choosing a region instead of "all" never adds or reorders programmes |
| `Programs.SearchIgnoresCase` | frontend/src/pages/Programs.tsx:75-76 | lower-casing the query first never changes which programmes match |
| `Dashboard.NextIndex` | frontend/src/pages/Dashboard.tsx:65-67 | next stays in range, moves to the following slide, and wraps from the last slide to the first |
| `Dashboard.PrevIndex` | frontend/src/pages/Dashboard.tsx:69-73 | previous stays in range |
| `Dashboard.NextPrevInverse` | frontend/src/pages/Dashboard.tsx:65-73 | previous undoes next and next undoes previous |
| `Dashboard.NextTimes` | frontend/src/pages/Dashboard.tsx:65-67 | any number of next clicks stays in range |
| `Dashboard.NextTimesClimb` | frontend/src/pages/Dashboard.tsx:65-67 | below the last slide, k clicks advance by k |
| `Dashboard.NextTimesAdd` | frontend/src/pages/Dashboard.tsx:65-67 | a clicks followed by b clicks are a + b clicks |
| `Dashboard.NextFullCycle` | frontend/src/pages/Dashboard.tsx:65-67 | as many next clicks as there are slides return to the starting slide |
| `Dashboard.DotRow` | frontend/src/pages/Dashboard.tsx:335-345 | there is one dot per slide |
| `Dashboard.ActiveAmongPrefix` | frontend/src/pages/Dashboard.tsx:339-343 | among the first n dots, one is active if the current slide is among them and none otherwise |
| `Dashboard.ExactlyOneActiveDot` | frontend/src/pages/Dashboard.tsx:339-343 | exactly one dot is active, the current slide's |
| `Dashboard.Carousel.constructor` | frontend/src/pages/Dashboard.tsx:30 | the carousel starts on slide 0 of the three recommendations |
| `Dashboard.Carousel.NextSlide` | frontend/src/pages/Dashboard.tsx:65-67 | the current slide becomes the next index, and stays in range |
| `Dashboard.Carousel.PrevSlide` | frontend/src/pages/Dashboard.tsx:69-73 | the current slide becomes the previous index, and stays in range |
| `Dashboard.Carousel.SelectDot` | frontend/src/pages/Dashboard.tsx:338 | clicking dot i makes slide i current |
| `Dashboard.Carousel.Dots` | frontend/src/pages/Dashboard.tsx:335-345 | the rendered dot row has one dot per slide, and exactly one is active, the current one |
| `Dashboard.SliceHead` | frontend/src/pages/Dashboard.tsx:32 | `slice(0, 6)` is the prefix of length min(6, length) |
| `Dashboard.SliceTail` | frontend/src/pages/Dashboard.tsx:32 | `slice(-4)` is the suffix of length min(4, length) |
| `Dashboard.UserName` | frontend/src/pages/Dashboard.tsx:32 | a present address gives head, "...", tail with lengths min(6, n) + 3 + min(4, n); the name is "there" exactly when no address is present |
| `Dashboard.UserNameShape` | frontend/src/pages/Dashboard.tsx:32 | with no address the greeting says "there"; an address of 10 or more characters shows its first 6 and last 4 around "...", 13 characters in all; in general a present address shows its first min(6, length) and last min(4, length) characters around "..." |
| `Assessment.StepFields` | frontend/src/pages/Assessment.tsx:101-175 | the fields rendered on each step: goals on 1, background and experience on 2, target programmes on 3, the essay draft on 4, none elsewhere |
| `Assessment.StepsCoverForm` | frontend/src/pages/Assessment.tsx:101-175 | every form field is shown on some step, and only steps 1 to 4 show fields |
| `Assessment.HighlightedCount` | frontend/src/pages/Assessment.tsx:64-69 | of the first n indicators, min(n, step) are filled |
| `Assessment.CheckedCount` | frontend/src/pages/Assessment.tsx:71 | of the first n indicators, min(n, step - 1) carry a check mark |
| `Assessment.ProgressOnStep` | frontend/src/pages/Assessment.tsx:62-81 | on step s, s indicators are filled, s - 1 are checked, each of the three connectors is filled exactly when the indicator before it is checked, and the last indicator has none |
| `Assessment.IndicatorAt` | frontend/src/pages/Assessment.tsx:64-77 | a check mark appears only on a filled indicator; every indicator but the last has a connector, filled exactly when the indicator before it is checked |
| `Assessment.Indicators` | frontend/src/pages/Assessment.tsx:62 | one indicator per step |
| `Assessment.PrimaryButtonFor` | frontend/src/pages/Assessment.tsx:187-195 | Next is shown exactly below the last step; the submit button that replaces it is disabled exactly while loading and reads "Analyzing..." then, "Complete Assessment" otherwise |
| `Assessment.Wizard.constructor` | frontend/src/pages/Assessment.tsx:13-24 | the wizard starts on step 1, not loading, with the five fields empty |
| `Assessment.Wizard.Previous` | frontend/src/pages/Assessment.tsx:181-182 | the step becomes max(1, step - 1) and stays in 1..4, exactly one step back where Previous is enabled; the form is unchanged |
| `Assessment.PreviousDisabled` | frontend/src/pages/Assessment.tsx:182 | Previous is disabled on step 1 |
| `Assessment.PreviousDisabledIff` | frontend/src/pages/Assessment.tsx:181-182 | Previous is disabled exactly where a click would leave the step unchanged, and elsewhere it goes back one step |
| `Assessment.Wizard.Next` | frontend/src/pages/Assessment.tsx:187-189 | offered only below the last step, it adds 1 and the step stays in 1..4; the form is unchanged |
| `Assessment.Wizard.HandleInputChange` | frontend/src/pages/Assessment.tsx:26-28 | the named field gets the value, and every other field keeps its presence and value |
| `Assessment.Wizard.BeginSubmit` | frontend/src/pages/Assessment.tsx:30-31 | clicking the enabled submit button on the last step starts loading |
| `Assessment.Wizard.FinishSubmit` | frontend/src/pages/Assessment.tsx:36-41 | at the end of the submission loading stops and the route is the results page |
| `Courses.TableKeys` | frontend/src/pages/Courses.tsx:108-140 | the colour table has exactly the six colours blue, green, purple, orange, yellow and pink |
| `Courses.ColorClassesFor` | frontend/src/pages/Courses.tsx:107-142 | a known colour gets its own table entry, and any other string gets the blue entry |
| `Courses.StatusBadge` | frontend/src/pages/Courses.tsx:144-167 | the badge's caption is the status for the four course statuses and "Not Started" for anything else; the check icon marks "Completed" and the lock icon marks "Locked" |
| `Courses.ActionButton` | frontend/src/pages/Courses.tsx:272-298 | the button is disabled, secondary and shows the unlock message exactly when the course is locked; an unlocked course reads "Start Course" at progress 0, "Review Course" with the check icon at 100, and "Continue Learning" otherwise |
| `Courses.LockedButtonIgnoresProgress` | frontend/src/pages/Courses.tsx:274-281 | a locked course's button is the same whatever its progress |
| `Courses.UnlockedButtonByProgress` | frontend/src/pages/Courses.tsx:282-296 | an unlocked course's button is decided by its progress alone |
| `Courses.ShowsProgressBar` | frontend/src/pages/Courses.tsx:260 | the progress bar is rendered for an unlocked course |
| `Courses.ProgressBarIffEnabled` | frontend/src/pages/Courses.tsx:260-276 | the progress bar is shown exactly when the button is enabled |
| `Courses.CourseListConsistent` | frontend/src/pages/Courses.tsx:26-105 | in the course list every colour is in the table, a course is locked exactly when its status is "Locked", and each button matches its status |

## Left out

- The chat-completion request itself is not modelled: the prompt text, the model name, the temperature, the token
  ceiling and the HTTP exchange. The model records the call as an effect carrying the key, the essay and the context.
  Its outcome is an input: a rejected fetch, a non-success status, or a reply whose content parsed or failed to.
- Reading the error text of a non-success reply is not modelled. If that read itself failed, the 500 would carry
  that failure's message instead.
- `req.json()` and `JSON.parse` are not modelled. Their outcome is an input, and the parsed reply is a typed record.
  A reply that is missing fields or has fields of the wrong type is therefore outside the model. In the source such
  a reply can either throw a `TypeError` (turned into a 500) or send `undefined` fields to the caller. Extra fields
  that the model adds to its reply are also not modelled; the source copies them into the response.
- `AiCoach.OverallScore`: the scores are integers, not JavaScript numbers. Fractional scores, and sums too large
  for floating point to divide exactly, are not modelled.
- Environment lookups are not modelled; the API key is a parameter. Creating the database client and inserting the
  row form one effect whose outcome is an input. The `created_at` timestamp, the CORS header values and logging are
  not modelled.
- `JsString.ToLower`: only ASCII letters are lower-cased. JavaScript applies full Unicode case mapping.
- `AiCoach.EssayAccepted` and `AiCoach.HandleRequest`: the 100-character gate counts characters, while
  JavaScript's `length` counts UTF-16 code units. An essay of characters outside the Basic Multilingual Plane (60
  emoji are 120 code units) can pass the gate in JavaScript and be rejected with a 400 by the model.
- `JsString.IndexOf`: lengths and positions count characters, not UTF-16 code units. Text outside the Basic
  Multilingual Plane would therefore get different offsets.
- `Courses.ColorClassesFor`: a string that names a member inherited from `Object.prototype` (such as "toString") is
  treated as an unknown colour and gets blue. In JavaScript the lookup would return the inherited member.
- `Dashboard.Carousel`: only the number of recommendations (three) is modelled, not their content. The carousel's
  sliding offset and all styling are not modelled.
- `Assessment.Wizard`: the two-second timer, the toast and the navigation of the submit handler are not modelled.
  Its two halves are separate methods, and the route is returned.
- The programme catalogue's five entries are not reproduced; the filter is proved for every catalogue.
- All JSX rendering and styling, the authentication pages, the profile page, the navigation bar, the wallet and
  social widgets, routing, and the static pages are not part of this model.
