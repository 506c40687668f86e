/** The lesson orchestrator (App.tsx): builds a lesson's slides from the preset library or from a
    generated plan, resolves every slide's image, reports progress, and moves the application
    between its screens. The plan generator, the image resolver `getOrGenerateSlideImage` and the
    clock are inputs; the concurrent fan-out of image requests is a loop in slide order. */
module Lesson {
  import opened Types
  import opened Decimal
  import Presets
  import Gemini

  /** The image shown for a slide whose image could not be resolved. */
  const PLACEHOLDER_URL: string := "https://placehold.co/800x600/f3f8f6/006a4e.png?text=Image+Error"

  /** The progress shown while the plan is generated. */
  const PLANNING_PROGRESS: real := 20.0

  /** What one call `getOrGenerateSlideImage(key, prompt)` does: it yields a URL or it throws. How it
      obtains the URL is not part of this model. */
  datatype Resolution = Resolved(url: string) | Threw

  // ---------------------------------------------------------------- slide text and ids

  /** A preset library: lesson id to slides per language (`PRESET_LESSONS` in the application). */
  type Library = map<string, Presets.PresetData>

  /** The preset branch is taken when `isPreset && presetId && PRESET_LESSONS[presetId]` holds. */
  predicate UsesPreset(library: Library, isPreset: bool, presetId: Option<string>) {
    isPreset && Truthy(presetId) && presetId.value in library
  }

  /** `preset-<presetId>-<index>`: stable across sessions, so it can key the image cache. */
  function PresetSlideId(presetId: string, index: nat): string {
    "preset-" + presetId + "-" + NatToString(index)
  }

  /** `custom-<time>-<index>`, with the time read from the clock while slide `index` is built. */
  function CustomSlideId(time: nat, index: nat): string {
    "custom-" + NatToString(time) + "-" + NatToString(index)
  }

  /** A preset id and index can be read back from a preset slide id. */
  lemma PresetSlideIdInjective(p1: string, i: nat, p2: string, j: nat)
    requires PresetSlideId(p1, i) == PresetSlideId(p2, j)
    ensures p1 == p2 && i == j
  {
    var s1, s2 := PresetSlideId(p1, i), PresetSlideId(p2, j);
    assert s1[7..] == p1 + "-" + NatToString(i);
    assert s2[7..] == p2 + "-" + NatToString(j);
    DashSplitLast(p1, NatToString(i), p2, NatToString(j));
    NatToStringInjective(i, j);
  }

  /** A time and index can be read back from a custom slide id. */
  lemma CustomSlideIdInjective(t1: nat, i: nat, t2: nat, j: nat)
    requires CustomSlideId(t1, i) == CustomSlideId(t2, j)
    ensures t1 == t2 && i == j
  {
    var s1, s2 := CustomSlideId(t1, i), CustomSlideId(t2, j);
    assert s1[7..] == NatToString(t1) + "-" + NatToString(i);
    assert s2[7..] == NatToString(t2) + "-" + NatToString(j);
    DashSplit(NatToString(t1), NatToString(i), NatToString(t2), NatToString(j));
    NatToStringInjective(t1, t2);
    NatToStringInjective(i, j);
  }

  /** No custom slide id is ever a preset slide id. */
  lemma CustomIsNeverPreset(time: nat, i: nat, presetId: string, j: nat)
    ensures CustomSlideId(time, i) != PresetSlideId(presetId, j)
  {
    assert CustomSlideId(time, i)[0] == 'c';
    assert PresetSlideId(presetId, j)[0] == 'p';
  }

  /** `{...c, id, mediaType: 'image', mediaUrl: undefined}`: a fresh image slide with the given text. */
  function Stamp(c: SlideContent, id: string): Slide {
    Slide(c.title, c.explanation, c.visualPrompt, Some(id), Image, None)
  }

  /** `slides` is `content` with slide i stamped with id `ids[i]`: same length, same text, in order,
      image slides without a media URL. */
  ghost predicate StampedFrom(content: seq<SlideContent>, slides: seq<Slide>, idOf: nat -> string) {
    && |slides| == |content|
    && forall i :: 0 <= i < |slides| ==>
         slides[i].Content() == content[i] && slides[i].id == Some(idOf(i))
         && slides[i].mediaType == Image && slides[i].mediaUrl.None?
  }

  /** The text of a preset lesson in the display language: Bangla slides for Bangla, English
      otherwise. */
  function PresetContent(library: Library, presetId: string, language: Language): (content: seq<SlideContent>)
    requires presetId in library
    ensures var d := library[presetId];
            var source := if language == Bangla then d.bn else d.en;
            |content| == |source| && forall i :: 0 <= i < |content| ==> content[i] == source[i].Content()
  {
    var d := library[presetId];
    var source := if language == Bangla then d.bn else d.en;
    seq(|source|, i requires 0 <= i < |source| => source[i].Content())
  }

  /** The slides of the preset branch. */
  function PresetSlides(library: Library, presetId: string, language: Language): (slides: seq<Slide>)
    requires presetId in library
    ensures StampedFrom(PresetContent(library, presetId, language), slides, (i: nat) => PresetSlideId(presetId, i))
  {
    var content := PresetContent(library, presetId, language);
    seq(|content|, i requires 0 <= i < |content| => Stamp(content[i], PresetSlideId(presetId, i)))
  }

  /** The slides of the custom branch, built from the generated plan. */
  function CustomSlides(plan: seq<SlideContent>, clock: nat -> nat): (slides: seq<Slide>)
    ensures StampedFrom(plan, slides, (i: nat) => CustomSlideId(clock(i), i))
  {
    var slides := seq(|plan|, i requires 0 <= i < |plan| => Stamp(plan[i], CustomSlideId(clock(i), i)));
    assert forall i: nat :: i < |slides| ==> slides[i].id == Some(CustomSlideId(clock(i), i));
    slides
  }

  /** The slide ids of a lesson are pairwise distinct. */
  ghost predicate DistinctIds(slides: seq<Slide>) {
    forall i, j :: 0 <= i < j < |slides| ==> slides[i].id != slides[j].id
  }

  lemma PresetSlidesDistinctIds(library: Library, presetId: string, language: Language)
    requires presetId in library
    ensures DistinctIds(PresetSlides(library, presetId, language))
  {
    var slides := PresetSlides(library, presetId, language);
    forall i, j | 0 <= i < j < |slides| ensures slides[i].id != slides[j].id {
      if slides[i].id == slides[j].id {
        PresetSlideIdInjective(presetId, i, presetId, j);
      }
    }
  }

  lemma CustomSlidesDistinctIds(plan: seq<SlideContent>, clock: nat -> nat)
    ensures DistinctIds(CustomSlides(plan, clock))
  {
    var slides := CustomSlides(plan, clock);
    forall i, j | 0 <= i < j < |slides| ensures slides[i].id != slides[j].id {
      if slides[i].id == slides[j].id {
        CustomSlideIdInjective(clock(i), i, clock(j), j);
      }
    }
  }

  /** The id is the only cache key, so it must never stand for two illustrations: two preset slides,
      of any lessons and in any languages, that share an id share their illustration prompt. */
  lemma PresetIdsDetermineIllustration(library: Library, p1: string, l1: Language, i: nat,
                                       p2: string, l2: Language, j: nat)
    requires forall id :: id in library ==> Presets.WellFormedLesson(library[id])
    requires p1 in library && p2 in library
    requires i < |PresetSlides(library, p1, l1)| && j < |PresetSlides(library, p2, l2)|
    requires PresetSlides(library, p1, l1)[i].id == PresetSlides(library, p2, l2)[j].id
    ensures PresetSlides(library, p1, l1)[i].visualPrompt == PresetSlides(library, p2, l2)[j].visualPrompt
  {
    PresetSlideIdInjective(p1, i, p2, j);
    assert Presets.WellFormedLesson(library[p1]);
  }

  /** The same holds of the bundled library. */
  lemma BundledIdsDetermineIllustration(p1: string, l1: Language, i: nat, p2: string, l2: Language, j: nat)
    requires p1 in Presets.PRESET_LESSONS && p2 in Presets.PRESET_LESSONS
    requires i < |PresetSlides(Presets.PRESET_LESSONS, p1, l1)| && j < |PresetSlides(Presets.PRESET_LESSONS, p2, l2)|
    requires PresetSlides(Presets.PRESET_LESSONS, p1, l1)[i].id == PresetSlides(Presets.PRESET_LESSONS, p2, l2)[j].id
    ensures PresetSlides(Presets.PRESET_LESSONS, p1, l1)[i].visualPrompt
         == PresetSlides(Presets.PRESET_LESSONS, p2, l2)[j].visualPrompt
  {
    Presets.LibraryWellFormed();
    PresetIdsDetermineIllustration(Presets.PRESET_LESSONS, p1, l1, i, p2, l2, j);
  }

  // ---------------------------------------------------------------- images and progress

  /** The key the resolver is called with: `slide.id || slide-<index>`. */
  function MediaKey(slide: Slide, index: nat): (key: string)
    ensures |key| > 0
    ensures Truthy(slide.id) ==> key == slide.id.value
  {
    if Truthy(slide.id) then slide.id.value else "slide-" + NatToString(index)
  }

  /** The resolver's outcome for slide `index`. */
  function Outcome(slides: seq<Slide>, index: nat, resolve: (string, string) -> Resolution): Resolution
    requires index < |slides|
  {
    resolve(MediaKey(slides[index], index), slides[index].visualPrompt)
  }

  /** Slide `index` once its image is resolved: the resolver's URL, or the placeholder image if the
      resolver threw. */
  function ResolvedSlide(slides: seq<Slide>, index: nat, resolve: (string, string) -> Resolution): Slide
    requires index < |slides|
  {
    match Outcome(slides, index, resolve)
    case Resolved(url) => slides[index].(mediaUrl := Some(url))
    case Threw => slides[index].(mediaType := Image, mediaUrl := Some(PLACEHOLDER_URL))
  }

  /** `finalSlides`: every slide with its image resolved, in the order of the input. */
  function FinalSlides(slides: seq<Slide>, resolve: (string, string) -> Resolution): (r: seq<Slide>)
    ensures |r| == |slides|
    ensures forall i :: 0 <= i < |r| ==>
              && r[i].Content() == slides[i].Content() && r[i].id == slides[i].id
              && (Outcome(slides, i, resolve).Resolved? ==>
                    r[i].mediaUrl == Some(Outcome(slides, i, resolve).url) && r[i].mediaType == slides[i].mediaType)
              && (Outcome(slides, i, resolve).Threw? ==>
                    r[i].mediaUrl == Some(PLACEHOLDER_URL) && r[i].mediaType == Image)
  {
    seq(|slides|, i requires 0 <= i < |slides| => ResolvedSlide(slides, i, resolve))
  }

  lemma ResolvedAll(slides: seq<Slide>, resolve: (string, string) -> Resolution, r: seq<Slide>)
    requires |r| == |slides|
    requires forall i :: 0 <= i < |r| ==> r[i] == ResolvedSlide(slides, i, resolve)
    ensures r == FinalSlides(slides, resolve)
  {
  }

  /** How many of the first n slides the resolver resolved (the `completedMedia` counter). */
  function SuccessCount(slides: seq<Slide>, resolve: (string, string) -> Resolution, n: nat): (k: nat)
    requires n <= |slides|
    ensures k <= n
  {
    if n == 0 then 0
    else SuccessCount(slides, resolve, n - 1) + (if Outcome(slides, n - 1, resolve).Resolved? then 1 else 0)
  }

  /** The counter reaches the number of slides exactly when every slide was resolved. */
  lemma {:induction false} SuccessCountFull(slides: seq<Slide>, resolve: (string, string) -> Resolution, n: nat)
    requires n <= |slides|
    ensures SuccessCount(slides, resolve, n) == n <==>
              forall i :: 0 <= i < n ==> Outcome(slides, i, resolve).Resolved?
  {
    if n > 0 {
      SuccessCountFull(slides, resolve, n - 1);
    }
  }

  /** The baseline of the media phase: 10 when the call was flagged as a preset, 30 otherwise,
      whichever branch produced the text. */
  function Baseline(isPreset: bool): real {
    if isPreset then 10.0 else 30.0
  }

  /** `startP + (completed / total) * (100 - startP)`. */
  function Progress(startP: real, completed: nat, total: nat): real
    requires total > 0
  {
    startP + (completed as real / total as real) * (100.0 - startP)
  }

  lemma DivideMonotone(x: real, y: real, t: real)
    requires x <= y && t > 0.0
    ensures x / t <= y / t
    ensures x < y ==> x / t < y / t
  {
  }

  lemma ScaleMonotone(f: real, g: real, d: real)
    requires f <= g && d > 0.0
    ensures f * d <= g * d
    ensures f < g ==> f * d < g * d
  {
  }

  /** Progress grows with the counter, strictly. */
  lemma ProgressMonotone(startP: real, a: nat, b: nat, total: nat)
    requires startP < 100.0 && a <= b && total > 0
    ensures Progress(startP, a, total) <= Progress(startP, b, total)
    ensures a < b ==> Progress(startP, a, total) < Progress(startP, b, total)
  {
    var t, d := total as real, 100.0 - startP;
    DivideMonotone(a as real, b as real, t);
    ScaleMonotone(a as real / t, b as real / t, d);
  }

  /** Progress is 100 exactly when the counter has reached the number of slides. */
  lemma ProgressFull(startP: real, b: nat, total: nat)
    requires startP < 100.0 && b <= total && total > 0
    ensures Progress(startP, b, total) <= 100.0
    ensures Progress(startP, b, total) == 100.0 <==> b == total
  {
    var t, d := total as real, 100.0 - startP;
    var g := b as real / t;
    assert Progress(startP, b, total) == startP + g * d;
    if b == total {
      assert g == 1.0;
    } else {
      assert g < 1.0;
      assert g * d < 1.0 * d;
    }
  }

  /** Progress lies between the baseline and 100, grows with the counter, and is 100 exactly when
      every slide has been resolved. */
  lemma ProgressProperties(startP: real, a: nat, b: nat, total: nat)
    requires startP < 100.0 && a <= b <= total && total > 0
    ensures startP <= Progress(startP, a, total) <= Progress(startP, b, total) <= 100.0
    ensures Progress(startP, b, total) == 100.0 <==> b == total
    ensures a < b ==> Progress(startP, a, total) < Progress(startP, b, total)
  {
    ProgressMonotone(startP, 0, a, total);
    ProgressMonotone(startP, a, b, total);
    ProgressFull(startP, b, total);
  }

  /** The progress values set during the media phase after its baseline: one per resolved slide. */
  function MediaTrace(startP: real, completed: nat, total: nat): (trace: seq<real>)
    requires completed <= total
    ensures |trace| == completed
    ensures forall j :: 0 <= j < completed ==> trace[j] == Progress(startP, j + 1, total)
  {
    if completed == 0 then [] else MediaTrace(startP, completed - 1, total) + [Progress(startP, completed, total)]
  }

  /** Concatenation regroups. */
  lemma AppendAssoc<T>(a: seq<T>, b: seq<T>, c: seq<T>)
    ensures a + (b + c) == a + b + c
  {
  }

  /** One more resolved slide appends its progress value to the trace. */
  lemma TraceStep(log: seq<real>, startP: real, completed: nat, total: nat)
    requires completed < total
    ensures log + MediaTrace(startP, completed, total) + [Progress(startP, completed + 1, total)]
         == log + MediaTrace(startP, completed + 1, total)
  {
    AppendAssoc(log, MediaTrace(startP, completed, total), [Progress(startP, completed + 1, total)]);
  }

  ghost predicate NonDecreasing(s: seq<real>) {
    forall i, j :: 0 <= i < j < |s| ==> s[i] <= s[j]
  }

  /** Every progress value reported by one `handleStartLesson`, in order. */
  function ReportedProgress(usesPreset: bool, isPreset: bool, planOk: bool, completed: nat, total: nat): seq<real>
    requires completed <= total
  {
    var media := [Baseline(isPreset)] + MediaTrace(Baseline(isPreset), completed, total);
    if usesPreset then media
    else if !planOk then [PLANNING_PROGRESS]
    else [PLANNING_PROGRESS] + media
  }

  /** The reported progress never goes back, except on one path: a call flagged as a preset whose
      preset id is missing or unknown generates a plan at 20 and then drops to the preset baseline
      of 10. */
  lemma ReportedProgressMonotone(usesPreset: bool, isPreset: bool, planOk: bool, completed: nat, total: nat)
    requires completed <= total
    requires usesPreset ==> isPreset
    ensures NonDecreasing(ReportedProgress(usesPreset, isPreset, planOk, completed, total)) <==>
              !(!usesPreset && planOk && isPreset)
    ensures forall v :: v in ReportedProgress(usesPreset, isPreset, planOk, completed, total) ==> 0.0 <= v <= 100.0
  {
    var startP := Baseline(isPreset);
    var trace := MediaTrace(startP, completed, total);
    var media := [startP] + trace;
    forall j | 0 <= j < completed ensures startP <= trace[j] <= 100.0 {
      ProgressProperties(startP, 0, j + 1, total);
    }
    forall i, j | 0 <= i < j < |media| ensures media[i] <= media[j] {
      if i > 0 {
        ProgressProperties(startP, i, j, total);
      }
    }
    var r := ReportedProgress(usesPreset, isPreset, planOk, completed, total);
    if !usesPreset && planOk {
      assert r == [PLANNING_PROGRESS] + media;
      if isPreset {
        assert r[0] > r[1];
      } else {
        forall i, j | 0 <= i < j < |r| ensures r[i] <= r[j] {
          if i > 0 {
            assert r[i] == media[i - 1] && r[j] == media[j - 1];
          }
        }
      }
    }
  }

  /** The last progress value of a media phase is 100 exactly when every slide was resolved, for a
      non-empty lesson. */
  lemma FullProgressOnlyWhenAllResolved(isPreset: bool, slides: seq<Slide>, resolve: (string, string) -> Resolution)
    requires |slides| > 0
    ensures var k := SuccessCount(slides, resolve, |slides|);
            var trace := [Baseline(isPreset)] + MediaTrace(Baseline(isPreset), k, |slides|);
            trace[|trace| - 1] == 100.0 <==> forall i :: 0 <= i < |slides| ==> Outcome(slides, i, resolve).Resolved?
  {
    var k := SuccessCount(slides, resolve, |slides|);
    SuccessCountFull(slides, resolve, |slides|);
    if k > 0 {
      ProgressProperties(Baseline(isPreset), k, k, |slides|);
    }
  }

  // ---------------------------------------------------------------- the screens

  /** The screens one `handleStartLesson` passes through, in order. */
  function StatesVisited(usesPreset: bool, planOk: bool): seq<AppState> {
    if usesPreset then [GeneratingMedia, Playing]
    else if !planOk then [GeneratingPlan, Home]
    else [GeneratingPlan, GeneratingMedia, Playing]
  }

  /** The transitions of the application's screens. */
  predicate Step(a: AppState, b: AppState) {
    || (a == Home && (b == GeneratingPlan || b == GeneratingMedia))
    || (a == GeneratingPlan && (b == GeneratingMedia || b == Home))
    || (a == GeneratingMedia && b == Playing)
    || (a == Playing && b == Home)
  }

  ghost predicate IsWalk(states: seq<AppState>) {
    forall i :: 0 <= i < |states| - 1 ==> Step(states[i], states[i + 1])
  }

  /** Started from the home screen, a lesson either ends up playing or, when the plan fails, back home. */
  lemma StartLessonIsAWalk(usesPreset: bool, planOk: bool)
    ensures IsWalk([Home] + StatesVisited(usesPreset, planOk))
    ensures var v := StatesVisited(usesPreset, planOk);
            v[|v| - 1] == (if usesPreset || planOk then Playing else Home)
  {
  }

  /** The lesson text `handleStartLesson` plays: the preset's slides when the preset branch is taken,
      otherwise the slides built from the generated plan, and nothing when the plan failed. */
  function LessonSlides(library: Library, topic: string, isPreset: bool, presetId: Option<string>,
                        language: Language,
                        generatePlan: (string, Language) -> Result<seq<SlideContent>, Gemini.LessonTextError>,
                        clock: nat -> nat): Option<seq<Slide>>
  {
    if UsesPreset(library, isPreset, presetId) then Some(PresetSlides(library, presetId.value, language))
    else match generatePlan(topic, language)
      case Failure(_) => None
      case Success(plan) => Some(CustomSlides(plan, clock))
  }

  /** The lesson text fails only when the plan does; every slide it yields carries a distinct,
      non-empty id, so each image is requested under that id and never under the `slide-<index>`
      fallback key. */
  lemma LessonSlidesShape(library: Library, topic: string, isPreset: bool, presetId: Option<string>,
                          language: Language,
                          generatePlan: (string, Language) -> Result<seq<SlideContent>, Gemini.LessonTextError>,
                          clock: nat -> nat)
    ensures var r := LessonSlides(library, topic, isPreset, presetId, language, generatePlan, clock);
            r.None? <==> !UsesPreset(library, isPreset, presetId) && generatePlan(topic, language).Failure?
    ensures var r := LessonSlides(library, topic, isPreset, presetId, language, generatePlan, clock);
            r.Some? ==> DistinctIds(r.value) && forall i :: 0 <= i < |r.value| ==> MediaKey(r.value[i], i) == r.value[i].id.value
  {
    var r := LessonSlides(library, topic, isPreset, presetId, language, generatePlan, clock);
    if UsesPreset(library, isPreset, presetId) {
      PresetSlidesDistinctIds(library, presetId.value, language);
      forall i | 0 <= i < |r.value| ensures MediaKey(r.value[i], i) == r.value[i].id.value {
        assert r.value[i].id == Some(PresetSlideId(presetId.value, i));
      }
    } else if generatePlan(topic, language).Success? {
      var plan := generatePlan(topic, language).value;
      CustomSlidesDistinctIds(plan, clock);
      forall i | 0 <= i < |r.value| ensures MediaKey(r.value[i], i) == r.value[i].id.value {
        assert r.value[i].id == Some(CustomSlideId(clock(i), i));
      }
    }
  }

  /** The application's state. `progressLog` and `stateLog` record every value handed to
      `setProgress` and `setState`. */
  class App {
    /** The preset library the application reads (`PRESET_LESSONS`). */
    const library: Library
    var state: AppState
    var language: Language
    var currentTopic: string
    var slides: seq<Slide>
    var progress: real
    ghost var progressLog: seq<real>
    ghost var stateLog: seq<AppState>

    /** The initial state: home screen, Bangla, no topic, no slides, progress 0. The application
        reads the bundled library `Presets.PRESET_LESSONS`; it is passed in here. */
    constructor (lessons: Library)
      ensures library == lessons
      ensures state == Home && language == Bangla && currentTopic == "" && slides == [] && progress == 0.0
      ensures progressLog == [] && stateLog == []
    {
      library := lessons;
      state := Home;
      language := Bangla;
      currentTopic := "";
      slides := [];
      progress := 0.0;
      progressLog := [];
      stateLog := [];
    }

    method SetState(s: AppState)
      modifies this
      ensures state == s && stateLog == old(stateLog) + [s]
      ensures language == old(language) && currentTopic == old(currentTopic) && slides == old(slides)
      ensures progress == old(progress) && progressLog == old(progressLog)
    {
      state := s;
      stateLog := stateLog + [s];
    }

    method SetProgress(p: real)
      modifies this
      ensures progress == p && progressLog == old(progressLog) + [p]
      ensures state == old(state) && language == old(language) && currentTopic == old(currentTopic)
      ensures slides == old(slides) && stateLog == old(stateLog)
    {
      progress := p;
      progressLog := progressLog + [p];
    }

    /** The language chosen on the home screen. */
    method SetLanguage(l: Language)
      modifies this
      ensures language == l
      ensures state == old(state) && currentTopic == old(currentTopic) && slides == old(slides)
      ensures progress == old(progress) && progressLog == old(progressLog) && stateLog == old(stateLog)
    {
      language := l;
    }

    /** `handleExit`: back to the home screen, dropping the lesson and its topic. */
    method HandleExit()
      modifies this
      ensures state == Home && slides == [] && currentTopic == ""
      ensures stateLog == old(stateLog) + [Home]
      ensures language == old(language) && progress == old(progress) && progressLog == old(progressLog)
    {
      SetState(Home);
      slides := [];
      currentTopic := "";
    }

    /** The callback run for slide `index`: ask the resolver for its image; on success count it and
        report the new progress, on a throw fall back to the placeholder image. The counter stays
        the number of resolved slides so far, and the progress log after the baseline `log0` stays
        their trace. */
    method ResolveSlide(initialSlides: seq<Slide>, index: nat, startP: real, completed: nat,
                        resolve: (string, string) -> Resolution, ghost log0: seq<real>)
      returns (slide: Slide, nowCompleted: nat)
      requires index < |initialSlides| && completed == SuccessCount(initialSlides, resolve, index)
      requires progressLog == log0 + MediaTrace(startP, completed, |initialSlides|)
      requires |progressLog| > 0 && progress == progressLog[|progressLog| - 1]
      modifies this
      ensures slide == ResolvedSlide(initialSlides, index, resolve)
      ensures nowCompleted == SuccessCount(initialSlides, resolve, index + 1)
      ensures progressLog == log0 + MediaTrace(startP, nowCompleted, |initialSlides|)
      ensures |progressLog| > 0 && progress == progressLog[|progressLog| - 1]
      ensures state == old(state) && stateLog == old(stateLog)
      ensures language == old(language) && currentTopic == old(currentTopic) && slides == old(slides)
    {
      var s := initialSlides[index];
      nowCompleted := completed;
      match resolve(MediaKey(s, index), s.visualPrompt) {
        case Resolved(url) =>
          nowCompleted := completed + 1;
          SetProgress(Progress(startP, nowCompleted, |initialSlides|));
          TraceStep(log0, startP, completed, |initialSlides|);
          slide := s.(mediaUrl := Some(url));
        case Threw =>
          slide := s.(mediaType := Image, mediaUrl := Some(PLACEHOLDER_URL));
      }
    }

    /** The media phase of `handleStartLesson`: show the media screen at the baseline, resolve every
        slide's image, and count and report each successful resolution. */
    method ResolveMedia(initialSlides: seq<Slide>, isPreset: bool, resolve: (string, string) -> Resolution)
      returns (finalSlides: seq<Slide>)
      modifies this
      ensures finalSlides == FinalSlides(initialSlides, resolve)
      ensures state == GeneratingMedia && stateLog == old(stateLog) + [GeneratingMedia]
      ensures progressLog == old(progressLog) + [Baseline(isPreset)] +
                MediaTrace(Baseline(isPreset), SuccessCount(initialSlides, resolve, |initialSlides|), |initialSlides|)
      ensures progress == progressLog[|progressLog| - 1]
      ensures language == old(language) && currentTopic == old(currentTopic) && slides == old(slides)
    {
      SetState(GeneratingMedia);
      var startP := Baseline(isPreset);
      SetProgress(startP);
      ghost var log0 := progressLog;

      var totalSlides := |initialSlides|;
      var completedMedia := 0;
      finalSlides := [];
      var index := 0;
      while index < totalSlides
        invariant 0 <= index <= totalSlides
        invariant completedMedia == SuccessCount(initialSlides, resolve, index)
        invariant |finalSlides| == index
        invariant forall i :: 0 <= i < index ==> finalSlides[i] == ResolvedSlide(initialSlides, i, resolve)
        invariant progressLog == log0 + MediaTrace(startP, completedMedia, totalSlides)
        invariant |progressLog| > 0 && progress == progressLog[|progressLog| - 1]
        invariant state == GeneratingMedia && stateLog == old(stateLog) + [GeneratingMedia]
        invariant language == old(language) && currentTopic == old(currentTopic) && slides == old(slides)
      {
        var slide;
        slide, completedMedia := ResolveSlide(initialSlides, index, startP, completedMedia, resolve, log0);
        finalSlides := finalSlides + [slide];
        index := index + 1;
      }
      ResolvedAll(initialSlides, resolve, finalSlides);
    }

    /** The first half of `handleStartLesson`: take the preset's slides when the preset branch
        applies; otherwise show the planning screen at 20 and build the slides from the generated
        plan, with nothing to show when the plan failed. */
    method PrepareSlides(topic: string, isPreset: bool, presetId: Option<string>,
                         generatePlan: (string, Language) -> Result<seq<SlideContent>, Gemini.LessonTextError>,
                         clock: nat -> nat)
      returns (initial: Option<seq<Slide>>)
      modifies this
      ensures initial == LessonSlides(library, topic, isPreset, presetId, language, generatePlan, clock)
      ensures UsesPreset(library, isPreset, presetId) ==>
                state == old(state) && stateLog == old(stateLog)
                && progress == old(progress) && progressLog == old(progressLog)
      ensures !UsesPreset(library, isPreset, presetId) ==>
                state == GeneratingPlan && stateLog == old(stateLog) + [GeneratingPlan]
                && progress == PLANNING_PROGRESS && progressLog == old(progressLog) + [PLANNING_PROGRESS]
      ensures language == old(language) && currentTopic == old(currentTopic) && slides == old(slides)
    {
      if isPreset && Truthy(presetId) && presetId.value in library {
        initial := Some(PresetSlides(library, presetId.value, language));
      } else {
        SetState(GeneratingPlan);
        SetProgress(PLANNING_PROGRESS);
        var plan := generatePlan(topic, language);
        if plan.Failure? {
          initial := None;
        } else {
          initial := Some(CustomSlides(plan.value, clock));
        }
      }
    }

    /** The second half of `handleStartLesson`: the media phase, then the lesson plays. */
    method PlayLesson(initialSlides: seq<Slide>, isPreset: bool, resolve: (string, string) -> Resolution)
      modifies this
      ensures slides == FinalSlides(initialSlides, resolve)
      ensures state == Playing && stateLog == old(stateLog) + [GeneratingMedia, Playing]
      ensures progressLog == old(progressLog) + ([Baseline(isPreset)] +
                MediaTrace(Baseline(isPreset), SuccessCount(initialSlides, resolve, |initialSlides|), |initialSlides|))
      ensures progress == progressLog[|progressLog| - 1]
      ensures language == old(language) && currentTopic == old(currentTopic)
    {
      var finalSlides := ResolveMedia(initialSlides, isPreset, resolve);
      slides := finalSlides;
      SetState(Playing);
      AppendAssoc(old(progressLog), [Baseline(isPreset)],
                  MediaTrace(Baseline(isPreset), SuccessCount(initialSlides, resolve, |initialSlides|), |initialSlides|));
    }

    /** `handleStartLesson(topic, isPreset, presetId)`, with the plan generator, the clock read by
        `Date.now()` for slide i, and the image resolver as inputs. When there is no lesson text (the
        plan failed) the application is back home with its previous slides; otherwise it plays the
        lesson text with every image resolved. The screens and progress values on the way are
        `StatesVisited` and `ReportedProgress`. */
    method HandleStartLesson(topic: string, isPreset: bool, presetId: Option<string>,
                             generatePlan: (string, Language) -> Result<seq<SlideContent>, Gemini.LessonTextError>,
                             clock: nat -> nat, resolve: (string, string) -> Resolution)
      modifies this
      ensures language == old(language)
      ensures var initial := LessonSlides(library, topic, isPreset, presetId, old(language), generatePlan, clock);
              var usesPreset := UsesPreset(library, isPreset, presetId);
              && (initial.None? ==>
                    && state == Home && currentTopic == "" && slides == old(slides)
                    && stateLog == old(stateLog) + StatesVisited(usesPreset, false)
                    && progressLog == old(progressLog) + ReportedProgress(usesPreset, isPreset, false, 0, 0))
              && (initial.Some? ==>
                    && state == Playing && currentTopic == topic
                    && slides == FinalSlides(initial.value, resolve)
                    && stateLog == old(stateLog) + StatesVisited(usesPreset, true)
                    && progressLog == old(progressLog) +
                         ReportedProgress(usesPreset, isPreset, true,
                                          SuccessCount(initial.value, resolve, |initial.value|), |initial.value|))
      ensures progress == progressLog[|progressLog| - 1]
    {
      currentTopic := topic;
      var initial := PrepareSlides(topic, isPreset, presetId, generatePlan, clock);
      if initial.None? {
        SetState(Home);
        currentTopic := "";
      } else {
        ghost var log1 := progressLog;
        PlayLesson(initial.value, isPreset, resolve);
        ghost var startP := Baseline(isPreset);
        ghost var trace := MediaTrace(startP, SuccessCount(initial.value, resolve, |initial.value|), |initial.value|);
        if !UsesPreset(library, isPreset, presetId) {
          AppendAssoc(old(progressLog), [PLANNING_PROGRESS], [startP] + trace);
        }
      }
    }
  }
}
