/** The entities of the lesson pipeline (types.ts). */
module Types {

  /** A value that may be absent (a TypeScript optional field or `undefined`). */
  datatype Option<+T> = None | Some(value: T)

  /** The outcome of an operation that can throw: its value or the error it raised. */
  datatype Result<+T, +E> = Success(value: T) | Failure(error: E)

  /** The two display languages (`Language.ENGLISH = 'en'`, `Language.BANGLA = 'bn'`). */
  datatype Language = English | Bangla

  /** The text of one slide as the plan generator or the preset library supplies it. */
  datatype SlideContent = SlideContent(title: string, explanation: string, visualPrompt: string)

  datatype MediaType = Image | Video

  /** A slide: its content plus an optional cache id, a media kind and an optional media URL. */
  datatype Slide = Slide(title: string, explanation: string, visualPrompt: string,
                         id: Option<string>, mediaType: MediaType, mediaUrl: Option<string>)
  {
    /** The `SlideContent` part of the slide. */
    function Content(): SlideContent {
      SlideContent(title, explanation, visualPrompt)
    }
  }

  /** The top-level screens of the application. */
  datatype AppState = Home | GeneratingPlan | GeneratingMedia | Playing

  /** JavaScript truthiness of an optional string: present and not the empty string. */
  predicate Truthy(s: Option<string>) {
    s.Some? && s.value != ""
  }
}
