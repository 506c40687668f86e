/** Slide navigation of the lesson viewer (components/LessonPlayer.tsx): a current index guarded by
    the next/previous controls, a progress bar, and the set of image URLs that failed to load. */
module Player {
  import opened Types

  /** `nextSlide`: move forward only when a later slide exists. */
  function NextIndex(i: int, count: nat): (j: int)
    ensures i < count - 1 ==> j == i + 1
    ensures i >= count - 1 ==> j == i
  {
    if i < count - 1 then i + 1 else i
  }

  /** `prevSlide`: move back only when an earlier slide exists. */
  function PrevIndex(i: int): (j: int)
    ensures i > 0 ==> j == i - 1
    ensures i <= 0 ==> j == i
  {
    if i > 0 then i - 1 else i
  }

  /** A press of the next or the previous control. */
  datatype Control = Next | Prev

  /** The index after a sequence of presses, starting from index i of a lesson of `count` slides. */
  function Navigate(i: int, count: nat, controls: seq<Control>): int
    decreases |controls|
  {
    if controls == [] then i
    else
      var j := if controls[0] == Next then NextIndex(i, count) else PrevIndex(i);
      Navigate(j, count, controls[1..])
  }

  /** Whatever the presses, the index of a non-empty lesson stays on a slide. */
  lemma {:induction false} NavigateStaysInRange(i: int, count: nat, controls: seq<Control>)
    requires 0 <= i < count
    ensures 0 <= Navigate(i, count, controls) < count
    decreases |controls|
  {
    if controls != [] {
      var j := if controls[0] == Next then NextIndex(i, count) else PrevIndex(i);
      NavigateStaysInRange(j, count, controls[1..]);
    }
  }

  /** From slide i, `count - 1 - i` presses of next reach the last slide. */
  lemma {:induction false} NextReachesLast(i: int, count: nat, k: nat)
    requires 0 <= i && i + k == count - 1
    ensures Navigate(i, count, seq(k, _ => Next)) == count - 1
    decreases k
  {
    if k > 0 {
      assert seq(k, _ => Next)[1..] == seq(k - 1, _ => Next);
      NextReachesLast(i + 1, count, k - 1);
    }
  }

  /** The progress bar width `(currentIndex + 1) / slides.length * 100`: above 0, at most 100, and
      exactly 100 on the last slide. */
  function ProgressPercent(i: int, count: nat): (p: real)
    requires 0 <= i < count
    ensures 0.0 < p <= 100.0
    ensures p == 100.0 <==> i == count - 1
  {
    var p := (i + 1) as real / count as real * 100.0;
    assert p * count as real == (i + 1) as real * 100.0;
    p
  }

  /** `hasError`: the slide has a (non-empty) media URL that is marked as failed. */
  predicate ShowsError(slide: Slide, imageErrors: set<string>) {
    Truthy(slide.mediaUrl) && slide.mediaUrl.value in imageErrors
  }

  /** Marking a URL as failed changes the error display only of slides with that URL. */
  lemma MarkingAffectsOnlyThatUrl(slide: Slide, imageErrors: set<string>, url: string)
    ensures ShowsError(slide, imageErrors + {url}) <==>
              ShowsError(slide, imageErrors) || (Truthy(slide.mediaUrl) && slide.mediaUrl.value == url)
  {
  }

  class LessonPlayer {
    const slides: seq<Slide>
    var currentIndex: int
    var imageErrors: set<string>

    /** The index is on a slide (it stays 0 for an empty lesson). */
    ghost predicate Valid()
      reads this
    {
      0 <= currentIndex && (currentIndex < |slides| || currentIndex == 0)
    }

    constructor (slides: seq<Slide>)
      ensures Valid()
      ensures this.slides == slides && currentIndex == 0 && imageErrors == {}
    {
      this.slides := slides;
      currentIndex := 0;
      imageErrors := {};
    }

    method NextSlide()
      requires Valid()
      modifies this
      ensures Valid()
      ensures currentIndex == NextIndex(old(currentIndex), |slides|)
      ensures imageErrors == old(imageErrors)
    {
      if currentIndex < |slides| - 1 {
        currentIndex := currentIndex + 1;
      }
    }

    method PrevSlide()
      requires Valid()
      modifies this
      ensures Valid()
      ensures currentIndex == PrevIndex(old(currentIndex))
      ensures imageErrors == old(imageErrors)
    {
      if currentIndex > 0 {
        currentIndex := currentIndex - 1;
      }
    }

    /** `handleImageError(url)`: marks `url`, and only `url`, as failed. */
    method HandleImageError(url: string)
      requires Valid()
      modifies this
      ensures Valid()
      ensures imageErrors == old(imageErrors) + {url}
      ensures currentIndex == old(currentIndex)
    {
      imageErrors := imageErrors + {url};
    }

    /** `isLastSlide`. */
    function IsLastSlide(): bool
      reads this
    {
      currentIndex == |slides| - 1
    }

    /** The forward control: on the last slide it is the "complete" button, which calls `onExit`
        (reported as `exit`) and leaves the viewer as it is; elsewhere it is `nextSlide`. */
    method PressForward() returns (exit: bool)
      requires Valid()
      modifies this
      ensures Valid()
      ensures exit == old(IsLastSlide())
      ensures exit ==> currentIndex == old(currentIndex)
      ensures !exit ==> currentIndex == NextIndex(old(currentIndex), |slides|)
      ensures imageErrors == old(imageErrors)
    {
      exit := IsLastSlide();
      if !exit {
        NextSlide();
      }
    }

    /** `progress` of a non-empty lesson. */
    function Progress(): (p: real)
      reads this
      requires Valid() && |slides| > 0
      ensures 0.0 < p <= 100.0
      ensures p == 100.0 <==> IsLastSlide()
    {
      ProgressPercent(currentIndex, |slides|)
    }

    /** `hasError` of a non-empty lesson. */
    function HasError(): (b: bool)
      reads this
      requires Valid() && |slides| > 0
      ensures b <==> slides[currentIndex].mediaUrl.Some? && slides[currentIndex].mediaUrl.value != ""
                     && slides[currentIndex].mediaUrl.value in imageErrors
    {
      ShowsError(slides[currentIndex], imageErrors)
    }
  }
}
