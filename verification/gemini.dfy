/** Response handling of the generation gateway (services/geminiService.ts). The two remote model
    calls are not modelled: what they return is an input (`TextResponse`, `ImageResponse`), and
    `JSON.parse` with its unchecked cast is an abstract partial function `parse`. */
module Gemini {
  import opened Types

  // ---------------------------------------------------------------- lesson plan

  const BANGLA_DIRECTIVE: string :=
    "The output fields 'title' and 'explanation' MUST be in Bengali (Bangla). The 'visualPrompt' MUST remain in English."
  const ENGLISH_DIRECTIVE: string := "The output must be in English."

  /** The language directive of the plan request: Bengali text with English illustration prompts
      exactly for Bangla, English only otherwise. */
  function LangInstruction(language: Language): (r: string)
    ensures r == BANGLA_DIRECTIVE <==> language == Bangla
    ensures r == ENGLISH_DIRECTIVE <==> language == English
  {
    DirectivesDiffer();
    match language
    case Bangla => BANGLA_DIRECTIVE
    case English => ENGLISH_DIRECTIVE
  }

  lemma DirectivesDiffer()
    ensures BANGLA_DIRECTIVE != ENGLISH_DIRECTIVE
  {
    assert |ENGLISH_DIRECTIVE| == 30;
    assert |BANGLA_DIRECTIVE| > 30;
  }

  const PROMPT_HEAD: string :=
    "\n    You are an expert primary school civics teacher in Bangladesh. \n    Create a 5-slide lesson plan on the topic: \""
  const PROMPT_MIDDLE: string :=
    "\".\n    The target audience is young students. Keep language simple, encouraging, and kind.\n    \n    "
  const PROMPT_TAIL: string :=
    "\n    \n    For each slide, provide:\n    1. A short, catchy title.\n    2. A simple explanation (2-3 sentences max).\n    3. A visual prompt description to generate an illustration (keep this in English, describe a flat vector art style, friendly, educational).\n  "

  /** `head + hole1 + middle + hole2 + tail`, from which both holes can be read back. */
  function Fill(head: string, hole1: string, middle: string, hole2: string, tail: string): (p: string)
    ensures |p| == |head| + |hole1| + |middle| + |hole2| + |tail|
    ensures p[|head|..|head| + |hole1|] == hole1
    ensures p[|head| + |hole1| + |middle|..|p| - |tail|] == hole2
  {
    var p := head + hole1 + middle + hole2 + tail;
    assert p[|head|..|head| + |hole1|] == hole1;
    assert p[|head| + |hole1| + |middle|..|p| - |tail|] == hole2;
    p
  }

  /** The plan request text: the topic and the language directive sit at fixed places of a fixed
      template, so both can be read back from the prompt. */
  function PlanPrompt(topic: string, language: Language): (p: string)
    ensures |p| == |PROMPT_HEAD| + |topic| + |PROMPT_MIDDLE| + |LangInstruction(language)| + |PROMPT_TAIL|
    ensures p[|PROMPT_HEAD|..|PROMPT_HEAD| + |topic|] == topic
    ensures p[|PROMPT_HEAD| + |topic| + |PROMPT_MIDDLE|..|p| - |PROMPT_TAIL|] == LangInstruction(language)
  {
    Fill(PROMPT_HEAD, topic, PROMPT_MIDDLE, LangInstruction(language), PROMPT_TAIL)
  }

  /** Two plan requests for the same topic are the same exactly when the language is. */
  lemma PlanPromptDependsOnLanguage(topic: string, l1: Language, l2: Language)
    ensures PlanPrompt(topic, l1) == PlanPrompt(topic, l2) <==> l1 == l2
  {
    if PlanPrompt(topic, l1) == PlanPrompt(topic, l2) {
      assert LangInstruction(l1) == LangInstruction(l2);
    }
  }

  /** What the text model call produced: it threw (network, quota, ...) or it answered with a
      response whose `text` may be absent. */
  datatype TextResponse = TextCallThrew(reason: string) | TextReply(text: Option<string>)

  /** The errors `generateLessonText` raises. */
  datatype LessonTextError = RemoteError(reason: string) | NoPlanText | InvalidFormat
  {
    function Message(): string {
      match this
      case RemoteError(reason) => reason
      case NoPlanText => "Failed to generate lesson plan"
      case InvalidFormat => "Invalid response format from AI"
    }
  }

  /** `generateLessonText` after the remote call: an absent or empty text is "Failed to generate
      lesson plan", text that does not parse is "Invalid response format from AI", and parsed text
      is returned as it is, with no check on the number of slides. */
  function GenerateLessonText(response: TextResponse, parse: string -> Option<seq<SlideContent>>)
    : (r: Result<seq<SlideContent>, LessonTextError>)
    ensures response.TextCallThrew? ==> r == Failure(RemoteError(response.reason))
    ensures r == Failure(NoPlanText) <==> response.TextReply? && !Truthy(response.text)
    ensures r == Failure(InvalidFormat) <==>
              response.TextReply? && Truthy(response.text) && parse(response.text.value).None?
    ensures r.Success? <==>
              response.TextReply? && Truthy(response.text) && parse(response.text.value).Some?
    ensures r.Success? ==> r.value == parse(response.text.value).value
  {
    match response
    case TextCallThrew(reason) => Failure(RemoteError(reason))
    case TextReply(text) =>
      if !Truthy(text) then Failure(NoPlanText)
      else match parse(text.value)
        case None => Failure(InvalidFormat)
        case Some(slides) => Success(slides)
  }

  // ---------------------------------------------------------------- slide image

  const STYLE_SUFFIX: string :=
    ". Style: minimalist flat vector illustration, pastel colors, educational, child-friendly, white background."

  /** The image request: the description followed by the fixed style suffix. */
  function ImagePrompt(description: string): (p: string)
    ensures |p| == |description| + |STYLE_SUFFIX|
    ensures p[..|description|] == description && p[|description|..] == STYLE_SUFFIX
  {
    description + STYLE_SUFFIX
  }

  /** Distinct descriptions give distinct image requests. */
  lemma ImagePromptInjective(a: string, b: string)
    requires ImagePrompt(a) == ImagePrompt(b)
    ensures a == b
  {
    assert |a| == |b|;
    assert a == ImagePrompt(a)[..|a|];
  }

  const FALLBACK_IMAGE_URL: string := "https://picsum.photos/800/600?blur=2"

  datatype InlineData = InlineData(mimeType: Option<string>, data: Option<string>)
  datatype Part = Part(inlineData: Option<InlineData>)
  datatype CandidateContent = CandidateContent(parts: Option<seq<Part>>)
  datatype Candidate = Candidate(content: Option<CandidateContent>)

  /** What the image model call produced: it threw, or it answered with optional candidates. */
  datatype ImageResponse = ImageCallThrew | ImageReply(candidates: Option<seq<Candidate>>)

  /** `response.candidates?.[0]?.content?.parts`: absent when any link of the chain is. */
  function ResponseParts(response: ImageResponse): (parts: Option<seq<Part>>)
    ensures parts.Some? <==>
              && response.ImageReply? && response.candidates.Some? && |response.candidates.value| > 0
              && response.candidates.value[0].content.Some?
              && response.candidates.value[0].content.value.parts.Some?
  {
    match response
    case ImageCallThrew => None
    case ImageReply(candidates) =>
      if candidates.None? || |candidates.value| == 0 then None
      else match candidates.value[0].content
        case None => None
        case Some(content) => content.parts
  }

  /** A part carries an image when it has inline data whose `data` is present and non-empty. */
  predicate HasImage(p: Part) {
    p.inlineData.Some? && Truthy(p.inlineData.value.data)
  }

  /** Index i holds the first image part. */
  predicate IsFirstImage(parts: seq<Part>, i: nat) {
    i < |parts| && HasImage(parts[i]) && forall j :: 0 <= j < i ==> !HasImage(parts[j])
  }

  /** The scan `for (const part of parts)` from position k, stopping at the first image part. */
  function FirstImageFrom(parts: seq<Part>, k: nat): (r: Option<nat>)
    requires k <= |parts|
    ensures r.Some? ==> k <= r.value < |parts| && HasImage(parts[r.value])
    ensures r.Some? ==> forall j :: k <= j < r.value ==> !HasImage(parts[j])
    ensures r.None? ==> forall j :: k <= j < |parts| ==> !HasImage(parts[j])
    decreases |parts| - k
  {
    if k == |parts| then None
    else if HasImage(parts[k]) then Some(k)
    else FirstImageFrom(parts, k + 1)
  }

  /** A template literal prints an absent `mimeType` as "undefined". */
  function MimeText(mimeType: Option<string>): string {
    match mimeType
    case Some(m) => m
    case None => "undefined"
  }

  /** `data:<mimeType>;base64,<data>` for an image part. */
  function DataUrl(d: InlineData): (url: string)
    requires Truthy(d.data)
    ensures |url| == 5 + |MimeText(d.mimeType)| + 8 + |d.data.value|
    ensures url[..5] == "data:"
    ensures url[5..5 + |MimeText(d.mimeType)|] == MimeText(d.mimeType)
    ensures url[5 + |MimeText(d.mimeType)|..|url| - |d.data.value|] == ";base64,"
    ensures url[|url| - |d.data.value|..] == d.data.value
  {
    var url := "data:" + MimeText(d.mimeType) + ";base64," + d.data.value;
    assert url[5..5 + |MimeText(d.mimeType)|] == MimeText(d.mimeType);
    assert url[5 + |MimeText(d.mimeType)|..|url| - |d.data.value|] == ";base64,";
    url
  }

  /** A data URL is never the fallback URL: they start differently. */
  lemma DataUrlIsNotFallback(d: InlineData)
    requires Truthy(d.data)
    ensures DataUrl(d) != FALLBACK_IMAGE_URL
  {
    assert DataUrl(d)[0] == 'd';
    assert FALLBACK_IMAGE_URL[0] == 'h';
  }

  /** The response holds at least one image part. */
  predicate ImageAvailable(response: ImageResponse) {
    var parts := ResponseParts(response);
    parts.Some? && exists i :: 0 <= i < |parts.value| && HasImage(parts.value[i])
  }

  /** `generateSlideImage` after the remote call. It never fails: it yields the data URL of the first
      image part, and the fixed fallback URL when the call threw, the chain to `parts` is broken, or
      no part carries image data. */
  function GenerateSlideImage(response: ImageResponse): (url: string)
    ensures url == FALLBACK_IMAGE_URL <==> !ImageAvailable(response)
    ensures url != FALLBACK_IMAGE_URL ==>
              exists i: nat :: IsFirstImage(ResponseParts(response).value, i) &&
                          url == DataUrl(ResponseParts(response).value[i].inlineData.value)
  {
    match ResponseParts(response)
    case None => FALLBACK_IMAGE_URL
    case Some(parts) =>
      match FirstImageFrom(parts, 0)
      case None => FALLBACK_IMAGE_URL
      case Some(i) =>
        DataUrlIsNotFallback(parts[i].inlineData.value);
        assert IsFirstImage(parts, i);
        DataUrl(parts[i].inlineData.value)
  }
}
