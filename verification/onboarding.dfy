/**
 * The onboarding pager of PantheonGoals: a page counter moved by the
 * "Next" button and by swiping.
 */
module Onboarding {

  const Pages: seq<string> := [
    "Collect artifacts and achieve your goals.",
    "Customize your profile.",
    "Track progress and earn achievements."]

  const NextTitle := "Next"
  const GetStartedTitle := "Get Started"

  /** `updateButtons`: the button title for a page. */
  function ButtonTitle(page: int, pageCount: int): (t: string)
    ensures t == GetStartedTitle <==> page == pageCount - 1
    ensures t == GetStartedTitle || t == NextTitle
  {
    if page == pageCount - 1 then GetStartedTitle else NextTitle
  }

  /** The page after a tap on "Next", and whether the pager is dismissed instead. */
  function NextStep(page: int, pageCount: int): (r: (int, bool))
    ensures !r.1 <==> page < pageCount - 1
    ensures !r.1 ==> r.0 == page + 1
    ensures r.1 ==> r.0 == page
  {
    if page < pageCount - 1 then (page + 1, false) else (page, true)
  }

  /** The page reached after n taps on "Next" that do not dismiss. */
  function AfterTaps(page: int, n: nat, pageCount: int): int
    decreases n
  {
    if n == 0 then page else AfterTaps(NextStep(page, pageCount).0, n - 1, pageCount)
  }

  /**
   * Starting from the first page, "Next" walks the pages in order and
   * reaches the last one, titled "Get Started", after pageCount - 1 taps.
   */
  lemma {:induction false} TapsWalkPages(page: int, n: nat, pageCount: int)
    requires 0 <= page && page + n <= pageCount - 1
    ensures AfterTaps(page, n, pageCount) == page + n
    ensures page + n == pageCount - 1 ==> ButtonTitle(AfterTaps(page, n, pageCount), pageCount) == GetStartedTitle
    decreases n
  {
    if n > 0 {
      TapsWalkPages(page + 1, n - 1, pageCount);
    }
  }

  /** `Int(x / width)`: Swift's conversion truncates toward zero. */
  function TruncatedPage(offsetX: real, width: real): (p: int)
    requires width > 0.0
    ensures offsetX >= 0.0 ==> p >= 0 && p as real * width <= offsetX < (p + 1) as real * width
    ensures offsetX < 0.0 ==> p <= 0
  {
    var q := offsetX / width;
    if q >= 0.0 then
      var p := q.Floor;
      assert q * width == offsetX;
      assert p as real <= q < (p + 1) as real;
      ScaleMonotone(p as real, q, width);
      ScaleStrict(q, (p + 1) as real, width);
      assert offsetX < (p + 1) as real * width;
      p
    else -((-q).Floor)
  }

  lemma ScaleMonotone(a: real, b: real, w: real)
    requires w > 0.0 && a <= b
    ensures a * w <= b * w
  {
  }

  lemma ScaleStrict(a: real, b: real, w: real)
    requires w > 0.0 && a < b
    ensures a * w < b * w
  {
  }

  class OnboardingPager {
    var currentPage: int
    const pages: seq<string>

    predicate Valid()
      reads this
    {
      |pages| == 3 && 0 <= currentPage < |pages|
    }

    function Title(): string
      reads this
    {
      ButtonTitle(currentPage, |pages|)
    }

    constructor()
      ensures Valid() && currentPage == 0 && pages == Pages
      ensures Title() == NextTitle
    {
      pages := Pages;
      currentPage := 0;
    }

    /** `nextButtonTapped`: returns whether the pager is dismissed. */
    method NextTapped() returns (dismissed: bool)
      requires Valid()
      modifies this
      ensures Valid()
      ensures (currentPage, dismissed) == NextStep(old(currentPage), |pages|)
    {
      if currentPage < |pages| - 1 {
        currentPage := currentPage + 1;
        dismissed := false;
      } else {
        dismissed := true;
      }
    }

    /**
     * `scrollViewDidEndDecelerating`. The collection view pages, so a
     * swipe comes to rest at an offset inside the pager, and the counter
     * stays on one of the pages.
     */
    method ScrollEnded(offsetX: real, width: real)
      requires Valid() && width > 0.0 && 0.0 <= offsetX < |pages| as real * width
      modifies this
      ensures Valid()
      ensures currentPage == TruncatedPage(offsetX, width)
    {
      ScrollInsideKeepsPageInRange(offsetX, width, |pages|);
      currentPage := TruncatedPage(offsetX, width);
    }
  }

  /** Swiping to a resting offset inside the pager keeps the page counter valid. */
  lemma ScrollInsideKeepsPageInRange(offsetX: real, width: real, pageCount: int)
    requires width > 0.0 && 0.0 <= offsetX < pageCount as real * width
    ensures 0 <= TruncatedPage(offsetX, width) < pageCount
  {
    var p := TruncatedPage(offsetX, width);
    if p >= pageCount {
      ScaleMonotone(pageCount as real, p as real, width);
    }
  }
}
