# Nagorik lesson pipeline — a Dafny model

Nagorik is a civics-lesson viewer for primary-school children in Bangladesh. A lesson is five
illustrated slides, either taken from a bundled preset library or generated for a free topic by a
text model, with one illustration per slide. This project models the pipeline that produces and
plays a lesson, and proves properties of it:

- `Lesson` (App.tsx) — the orchestrator `handleStartLesson`. It builds the slide text from the
  preset library in the display language, or from a generated plan. It stamps slide ids
  `preset-<presetId>-<i>` or `custom-<time>-<i>`, resolves every slide's image with a placeholder
  on failure, reports progress, and moves the application between its screens (`class App`, with
  ghost logs of every `setState`/`setProgress` call). `handleExit` and the initial state are modelled too.
- `AssetStore` (utils/db.ts) — the on-device image cache: a class over a map of
  `{id, data, timestamp}` records, with upsert writes and null on a miss. Write and open failures
  are swallowed; a failing get request rejects.
- `Gemini` (services/geminiService.ts) — the response handling of the generation gateway. It covers
  the language directive, the plan prompt, the error mapping of the plan call, the image prompt,
  the first-image-part scan, the `data:` URL and the fallback image.
- `Player` (components/LessonPlayer.tsx) — slide navigation: a guarded index, the forward control,
  the progress bar and the set of failed image URLs (`class LessonPlayer`).
- `Presets` (data/presets.ts) — the menu and the six bundled lessons, transcribed, with the
  invariants the orchestrator relies on.
- `Types` (types.ts) and `Decimal` (how a template literal prints a non-negative integer below
  10^21, which covers every index and timestamp the code prints) support the others.

The remote calls become inputs:
- the plan generator is a function `(topic, language) -> Result`;
- the image resolver `getOrGenerateSlideImage` is a function `(key, prompt) -> Resolved(url) | Threw`;
- the clock read by `Date.now()` while slide i is built is a function `clock(i)`;
- a model response is a value (`TextResponse`, `ImageResponse`);
- `JSON.parse` with its unchecked cast is a function `parse` from text to a list of slide texts;
- whether IndexedDB lets an access through is a `Fault`.

One behaviour of the code is stated as it is rather than corrected. The media-phase baseline is 10
whenever the call is flagged as a preset, whichever branch produced the text. A preset-flagged call
with a missing or unknown id therefore generates a plan at 20 and then drops to 10
(`ReportedProgressMonotone`).

The comment at data/presets.ts:55 announces preset ids of the form
`preset-<lessonId>-slide-<index>`. The code at App.tsx:32 builds `preset-<presetId>-<index>`, and
the model follows the code.

## Model

| member | source | states |
|---|---|---|
| Decimal.NatToString | App.tsx:32 | `${idx}` of a non-negative integer: non-empty, digits only, no leading zero |
| Decimal.NatToStringRoundTrip | App.tsx:44 | reading the printed digits back gives the number |
| Decimal.NatToStringInjective | App.tsx:44 | distinct numbers print differently |
| Presets.WashingHandsWellFormed | data/presets.ts:58-123 | washing-hands has 5 English and 5 Bangla slides, equal illustration prompts index by index, all bare image slides |
| Presets.RoadSafetyWellFormed | data/presets.ts:124-189 | the same for road-safety |
| Presets.SchoolCleanWellFormed | data/presets.ts:190-255 | the same for school-clean |
| Presets.RespectEldersWellFormed | data/presets.ts:256-321 | the same for respect-elders |
| Presets.WastingWaterWellFormed | data/presets.ts:322-387 | the same for wasting-water |
| Presets.StandingLineWellFormed | data/presets.ts:388-453 | the same for standing-line |
| Presets.LibraryWellFormed | data/presets.ts:57-454 | every lesson of the library is well formed: 5+5 slides, same prompts across languages, image slides with no id and no media URL |
| Presets.MenuIdsInOrder | data/presets.ts:15-52 | the menu's ids are `MENU_IDS`, entry by entry |
| Presets.MenuIdsDistinct | data/presets.ts:15-52 | the menu has six entries with pairwise distinct ids |
| Presets.CoverFollowsId0 | data/presets.ts:16-21 | the first cover path is `/covers/<id>.png` |
| Presets.CoverFollowsId1 | data/presets.ts:22-27 | the same for the second entry |
| Presets.CoverFollowsId2 | data/presets.ts:28-33 | the same for the third entry |
| Presets.CoverFollowsId3 | data/presets.ts:34-39 | the same for the fourth entry |
| Presets.CoverFollowsId4 | data/presets.ts:40-45 | the same for the fifth entry |
| Presets.CoverFollowsId5 | data/presets.ts:46-51 | the same for the sixth entry |
| Presets.CoversFollowIds | data/presets.ts:15-52 | every cover path is derived from its entry's id |
| Presets.MenuAgreesWithLibrary | data/presets.ts:15-454 | the menu's ids are exactly the library's keys |
| AssetStore.ReadAfterUpsert | utils/db.ts:35 | after a put, a get of that id returns the data just written |
| AssetStore.UpsertReplaces | utils/db.ts:35 | a second put with the same id replaces the first; the newest data is read |
| AssetStore.UpsertLeavesOthers | utils/db.ts:35 | a put leaves every other id's record and read result unchanged |
| AssetStore.Upsert | utils/db.ts:35 | `store.put` of `{id, data, timestamp}` on a store keyed by id: the record for `id` is added or replaced |
| AssetStore.Read | utils/db.ts:52-54 | `request.result?.data`: the record's data, or null when there is no record for the id |
| AssetStore.Replay | utils/db.ts:19-35 | the records after a history of successful puts, starting from the empty store |
| AssetStore.ReplayKeyedById | utils/db.ts:19-35 | every record a history of puts leaves is stored under its own id |
| AssetStore.ReadOfUnwritten | utils/db.ts:52-54 | after any history of puts, an id that no put wrote reads as null |
| AssetStore.ReadOfLatest | utils/db.ts:35-54 | after any history of puts, an id reads as the data of the latest put that wrote it |
| AssetStore.ImageStore.constructor | utils/db.ts:19-24 | the store starts empty, with records keyed by id and no id written |
| AssetStore.ImageStore.Save | utils/db.ts:28-42 | a write that goes through upserts `{id, data, now}` and records `id` as written; any failure is swallowed and leaves the records and the written ids as they were |
| AssetStore.ImageStore.Get | utils/db.ts:44-62 | the stored data or null; null when opening fails; rejection when the request fails; returned data is the record's; an id never written since the store was created resolves to null unless the request fails |
| Gemini.LangInstruction | services/geminiService.ts:7-9 | the Bengali-text directive exactly for Bangla, the English-only directive exactly for English |
| Gemini.DirectivesDiffer | services/geminiService.ts:8-9 | the two directives differ |
| Gemini.PlanPrompt | services/geminiService.ts:11-22 | the topic and the directive sit at fixed places of the template and can be read back |
| Gemini.PlanPromptDependsOnLanguage | services/geminiService.ts:11-22 | for one topic, two prompts are equal exactly when the languages are |
| Gemini.GenerateLessonText | services/geminiService.ts:44-53 | a thrown call propagates; absent or empty text is "Failed to generate lesson plan"; unparseable text is "Invalid response format from AI"; otherwise the parsed slides, unchecked |
| Gemini.ImagePrompt | services/geminiService.ts:59 | the description followed by the style suffix |
| Gemini.ImagePromptInjective | services/geminiService.ts:59 | distinct descriptions give distinct image prompts |
| Gemini.ResponseParts | services/geminiService.ts:72 | `candidates?.[0]?.content?.parts` is present exactly when every link is |
| Gemini.FirstImageFrom | services/geminiService.ts:74-79 | the scan returns the first part with non-empty inline data, or none when no such part remains |
| Gemini.MimeText | services/geminiService.ts:76 | the mime type as a template literal prints it: the string itself, or "undefined" when absent |
| Gemini.DataUrl | services/geminiService.ts:76 | `data:<mimeType>;base64,<data>`: the `data:` prefix, the mime type, the `;base64,` separator and the data, each at its place |
| Gemini.DataUrlIsNotFallback | services/geminiService.ts:76-85 | an image URL is never the fallback URL |
| Gemini.GenerateSlideImage | services/geminiService.ts:56-87 | never fails: the fallback exactly when no image part is available, otherwise the data URL of the first image part |
| Player.NextIndex | components/LessonPlayer.tsx:16-20 | forward only when a later slide exists, otherwise unchanged |
| Player.PrevIndex | components/LessonPlayer.tsx:22-26 | back only when an earlier slide exists, otherwise unchanged |
| Player.NavigateStaysInRange | components/LessonPlayer.tsx:13-26 | any sequence of presses keeps the index of a non-empty lesson on a slide |
| Player.NextReachesLast | components/LessonPlayer.tsx:16-20 | from slide i, `count-1-i` presses of next reach the last slide |
| Player.ProgressPercent | components/LessonPlayer.tsx:34 | the bar width is in (0, 100] and is 100 exactly on the last slide |
| Player.MarkingAffectsOnlyThatUrl | components/LessonPlayer.tsx:28-37 | marking a URL changes the error display only for slides showing that URL |
| Player.LessonPlayer.constructor | components/LessonPlayer.tsx:13-14 | starts on slide 0 with no failed images |
| Player.LessonPlayer.NextSlide | components/LessonPlayer.tsx:16-20 | the index moves as `NextIndex`; the error set is unchanged |
| Player.LessonPlayer.PrevSlide | components/LessonPlayer.tsx:22-26 | the index moves as `PrevIndex`; the error set is unchanged |
| Player.LessonPlayer.HandleImageError | components/LessonPlayer.tsx:28-30 | adds exactly `url` to the failed set; the index is unchanged |
| Player.LessonPlayer.IsLastSlide | components/LessonPlayer.tsx:33 | `currentIndex === slides.length - 1` |
| Player.LessonPlayer.PressForward | components/LessonPlayer.tsx:138-158 | on the last slide it exits and leaves the index; elsewhere it is `nextSlide` |
| Player.LessonPlayer.Progress | components/LessonPlayer.tsx:34 | in (0, 100], and 100 exactly when `isLastSlide` |
| Player.LessonPlayer.HasError | components/LessonPlayer.tsx:37 | holds exactly when the current slide has a non-empty media URL that is marked as failed |
| Lesson.UsesPreset | App.tsx:24 | the preset branch is taken when the call is flagged as a preset, the id is present and non-empty, and the library has a lesson under it |
| Lesson.PresetSlideId | App.tsx:32 | `preset-<presetId>-<index>` |
| Lesson.CustomSlideId | App.tsx:44 | `custom-<time>-<index>` |
| Lesson.PresetSlideIdInjective | App.tsx:32 | a preset id and a slide index can be read back from a preset slide id |
| Lesson.CustomSlideIdInjective | App.tsx:44 | a time and a slide index can be read back from a custom slide id |
| Lesson.CustomIsNeverPreset | App.tsx:32-44 | no custom slide id equals a preset slide id |
| Lesson.PresetContent | App.tsx:26-27 | the Bangla slides exactly for Bangla, the English ones otherwise, in order |
| Lesson.PresetSlides | App.tsx:24-35 | slide i has the preset text i, id `preset-<presetId>-<i>`, media type image and no media URL |
| Lesson.CustomSlides | App.tsx:42-47 | slide i has the plan's text i, id `custom-<clock(i)>-<i>`, media type image and no media URL |
| Lesson.PresetSlidesDistinctIds | App.tsx:28-35 | the slide ids of a preset lesson are pairwise distinct |
| Lesson.CustomSlidesDistinctIds | App.tsx:42-47 | the slide ids of a custom lesson are pairwise distinct, whatever the clock reads |
| Lesson.PresetIdsDetermineIllustration | App.tsx:32-66 | in a well-formed library, two preset slides sharing an id (the cache key) share their illustration prompt, across lessons and languages |
| Lesson.BundledIdsDetermineIllustration | App.tsx:32-66 | the same for the bundled library |
| Lesson.LessonSlides | App.tsx:24-48 | the preset's slides when the preset branch is taken; otherwise the slides of the generated plan, or none when the plan fails |
| Lesson.LessonSlidesShape | App.tsx:24-66 | the lesson text is missing exactly when the preset branch is not taken and the plan fails; every lesson has pairwise distinct ids, and each slide's image key is its own id, never the `slide-<index>` fallback |
| Lesson.MediaKey | App.tsx:66 | the slide's id, or else `slide-<index>`: never empty, and the slide's id whenever that is non-empty |
| Lesson.ResolvedSlide | App.tsx:72-79 | the slide with the resolver's URL, or with the placeholder URL and media type image when the resolver threw |
| Lesson.FinalSlides | App.tsx:58-81 | same length and order; each slide keeps its text and id; its media URL is the resolver's URL, or the placeholder with media type image when the resolver threw |
| Lesson.SuccessCount | App.tsx:55-68 | the counter never exceeds the number of slides looked at |
| Lesson.SuccessCountFull | App.tsx:55-70 | the counter equals the number of slides exactly when every resolution succeeded |
| Lesson.Baseline | App.tsx:52 | the media-phase start: 10 when the call is flagged as a preset, 30 otherwise |
| Lesson.Progress | App.tsx:69-70 | `startP + (completed / total) * (100 - startP)` |
| Lesson.ProgressMonotone | App.tsx:69-70 | progress grows with the counter, strictly |
| Lesson.ProgressFull | App.tsx:69-70 | progress is at most 100, and is 100 exactly when the counter equals the number of slides |
| Lesson.ProgressProperties | App.tsx:69-70 | progress lies between the baseline and 100 and is monotone in the counter |
| Lesson.MediaTrace | App.tsx:68-70 | the k-th progress value of the media phase is the formula at k+1 completions |
| Lesson.ReportedProgressMonotone | App.tsx:38-70 | all reported progress lies in [0, 100]; it never decreases except (and always) when a preset-flagged call falls back to plan generation and drops from 20 to 10 |
| Lesson.FullProgressOnlyWhenAllResolved | App.tsx:68-80 | the last progress value of a non-empty lesson is 100 exactly when every image resolved |
| Lesson.StartLessonIsAWalk | App.tsx:38-89 | from home, the screens visited follow the screen transitions and end playing, or home when the plan fails |
| Lesson.App.constructor | App.tsx:10-14 | home screen, Bangla, empty topic, no slides, progress 0 |
| Lesson.App.SetState | App.tsx:38-89 | `setState`: the screen becomes `s` and is logged; nothing else changes |
| Lesson.App.SetProgress | App.tsx:39-70 | `setProgress`: the progress becomes `p` and is logged; nothing else changes |
| Lesson.App.SetLanguage | App.tsx:11 | changes the language and nothing else |
| Lesson.App.HandleExit | App.tsx:94-98 | home screen, no slides, empty topic |
| Lesson.App.ResolveSlide | App.tsx:58-80 | one slide's callback: the resolved slide, the counter of successes, and the progress log extended by one value exactly on success |
| Lesson.App.ResolveMedia | App.tsx:50-81 | the media screen at the baseline, then the final slides in input order, with the progress log equal to the baseline followed by the media trace |
| Lesson.App.PrepareSlides | App.tsx:23-48 | the preset branch touches no screen or progress; otherwise the planning screen at 20 and the slides from the plan, or none when it failed |
| Lesson.App.PlayLesson | App.tsx:50-84 | the media phase then the playing screen with the final slides |
| Lesson.App.HandleStartLesson | App.tsx:17-92 | without lesson text: home, empty topic, slides unchanged; with it: playing the resolved slides; the screens and progress values are exactly `StatesVisited` and `ReportedProgress` |

## Left out

- The calls to the text and image models, and `JSON.parse` with its cast (services/geminiService.ts:4, 24-42, 61-69), are foreign network and library code. Their results are inputs.
- `getOrGenerateSlideImage` is imported by App.tsx:5 but is not defined in services/geminiService.ts. It is an input function, and how it combines the cache and the generator is not part of this model.
- IndexedDB plumbing (`openDB`, the upgrade handler, transactions; utils/db.ts:12-26, 30-32, 46-48) is browser I/O. Only its effect on the records and a `Fault` input remain.
- Concurrency: the `Promise.all` fan-out and the `index*200` ms stagger (App.tsx:58-61) are a loop in slide order. The reported progress values do not depend on completion order, because each value depends only on how many resolutions have finished. Overlapping `handleStartLesson` calls are not modelled.
- Floating point: progress values are exact reals. JavaScript's double rounding and the `Math.round` display (components/LoadingScreen.tsx:33) are not modelled.
- React rendering, `alert`, `console.*`, and the components LessonVisuals, Hero, TopicInput and LoadingScreen are presentation. This includes Hero declaring `onStart` while App passes `onSubmit` (components/Hero.tsx:6, App.tsx:103-107).
- The scripts generate_images.js and generate_covers.js are file-system and network I/O outside the application.
- Lesson.App.constructor: the application reads the module constant `PRESET_LESSONS`; here the library is a constructor argument. `BundledIdsDetermineIllustration` states the id property for the bundled library itself.
- Lesson.UsesPreset: `PRESET_LESSONS[presetId]` and `imageErrors[url]` are plain-object lookups. Keys inherited from `Object.prototype` (such as "toString") would look present. The model treats both as maps of their own keys only.
- Player.LessonPlayer.Progress: the viewer reads `slides[0]` for an empty lesson and would crash. An empty generated plan (no length check in services/geminiService.ts:49) leads there, so the viewer's derived values require a non-empty lesson.
- Gemini.GenerateLessonText: `parse` yields only lists of slide texts. In the application, a parsed value that is not an array (`null`, an object) passes `generateLessonText` unchecked (services/geminiService.ts:49), and `content.map` then throws at App.tsx:42, which the catch at App.tsx:86-91 turns into a return to the home screen. In the model a `Failure` from `generatePlan` stands for that throw too. Array elements that lack a field become slides with undefined text in the application; the model has no undefined strings.
- Lesson.CustomSlidesDistinctIds: ids are distinct within one lesson only. Two custom lessons built in the same millisecond can share ids.
