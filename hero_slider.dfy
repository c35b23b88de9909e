/**
 * The home page's hero slider: a default slide followed by the
 * advertisements, an auto-advance that leaves the default slide for good,
 * and previous/next arrows that cycle among the advertisements only.
 */
module HeroSlider {
  import opened Common

  datatype Slide = Slide(id: string, image: string, title: Option<string>, subtitle: Option<string>, link: Option<string>)

  /** The slide shown first, with the translated home title and subtitle and no image. */
  function DefaultSlide(title: string, subtitle: string): Slide {
    Slide("default", "", Some(title), Some(subtitle), None)
  }

  /** There are advertisements to show. */
  predicate HasAds(slides: Option<seq<Slide>>) {
    slides.Some? && |slides.value| > 0
  }

  /** `slideList`: the default slide, then the advertisements if any. */
  function SlideList(default: Slide, slides: Option<seq<Slide>>): (r: seq<Slide>)
    ensures |r| >= 1 && r[0] == default
    ensures HasAds(slides) ==> r[1..] == slides.value
    ensures !HasAds(slides) ==> r == [default]
    ensures HasAds(slides) <==> |r| > 1
  {
    if HasAds(slides) then [default] + slides.value else [default]
  }

  /** The auto-advance timer is set only with advertisements and more than one slide. */
  predicate AutoAdvances(hasAds: bool, total: nat) {
    hasAds && total > 1
  }

  /** The timer's delay in milliseconds: short on the default slide. */
  function AutoDelay(current: int): (ms: nat)
    ensures ms == 2000 <==> current == 0
    ensures current != 0 ==> ms == 5000
  {
    if current == 0 then 2000 else 5000
  }

  /** The timer's update: from the default slide, or from the last slide or
      beyond, to the first advertisement; otherwise one slide on. */
  function AutoNext(prev: int, total: int): (n: int)
    ensures prev >= 0 && total >= 2 ==> 1 <= n <= total - 1
    ensures prev >= total - 1 ==> n == 1
  {
    if prev == 0 then 1
    else if prev >= total - 1 then 1
    else prev + 1
  }

  /** `goToNext`'s update. */
  function Next(hasAds: bool, prev: int, total: int): (n: int)
    ensures !hasAds ==> n == prev
    ensures hasAds && total >= 2 && 0 <= prev < total ==> 1 <= n <= total - 1
    ensures hasAds && prev == total - 1 ==> n == 1
  {
    if !hasAds then prev
    else if prev == total - 1 then 1
    else prev + 1
  }

  /** `goToPrevious`'s update. */
  function Previous(hasAds: bool, prev: int, total: int): (n: int)
    ensures !hasAds ==> n == prev
    ensures hasAds && total >= 2 && 0 <= prev < total ==> 1 <= n <= total - 1
    ensures hasAds && (prev == 0 || prev == 1) ==> n == total - 1
  {
    if !hasAds then prev
    else if prev == 1 then total - 1
    else if prev == 0 then total - 1
    else prev - 1
  }

  /** Without advertisements the arrows change nothing. */
  lemma NoAdsNoMove(prev: int, total: int)
    ensures Next(false, prev, total) == prev && Previous(false, prev, total) == prev
  {
  }

  /** With advertisements, from any slide shown, next, previous and the
      timer all land on an advertisement: the default slide is reached
      again only through a dot. */
  lemma StepsLandOnAds(prev: int, total: int)
    requires total >= 2 && 0 <= prev < total
    ensures 1 <= Next(true, prev, total) <= total - 1
    ensures 1 <= Previous(true, prev, total) <= total - 1
    ensures 1 <= AutoNext(prev, total) <= total - 1
  {
  }

  /** The arrows undo each other on the advertisements. */
  lemma NextUndoesPrevious(i: int, total: int)
    requires total >= 2 && 1 <= i <= total - 1
    ensures Next(true, Previous(true, i, total), total) == i
    ensures Previous(true, Next(true, i, total), total) == i
  {
  }

  /** On the slides shown, the timer moves exactly as the next arrow does. */
  lemma AutoIsNext(i: int, total: int)
    requires total >= 2 && 0 <= i < total
    ensures AutoNext(i, total) == Next(true, i, total)
  {
  }

  /** Only past the end do they differ: the timer comes back to the first
      advertisement while the arrow keeps counting. */
  lemma AutoRecoversPastEnd(i: int, total: int)
    requires total >= 2 && i >= total
    ensures AutoNext(i, total) == 1 && Next(true, i, total) == i + 1
  {
  }

  /** `n` presses of the next arrow. */
  function NextTimes(i: int, total: int, n: nat): int
    decreases n
  {
    if n == 0 then i else Next(true, NextTimes(i, total, n - 1), total)
  }

  /** Presses can be split: `a + b` presses are `a` presses, then `b`. */
  lemma {:induction false} NextTimesSplit(i: int, total: int, a: nat, b: nat)
    ensures NextTimes(i, total, a + b) == NextTimes(NextTimes(i, total, a), total, b)
  {
    if b > 0 {
      NextTimesSplit(i, total, a, b - 1);
      assert a + b - 1 == a + (b - 1);
    }
  }

  /** Before the last advertisement each press moves one slide on. */
  lemma {:induction false} NextTimesCounts(i: int, total: int, n: nat)
    requires i >= 1 && i + n <= total - 1
    ensures NextTimes(i, total, n) == i + n
  {
    if n > 0 {
      NextTimesCounts(i, total, n - 1);
    }
  }

  /** The next arrow cycles through the `total - 1` advertisements: a full
      round of presses comes back to where it started. */
  lemma NextTimesFullRound(i: int, total: int)
    requires total >= 2 && 1 <= i <= total - 1
    ensures NextTimes(i, total, total - 1) == i
  {
    var toLast := total - 1 - i;
    NextTimesCounts(i, total, toLast);
    assert NextTimes(i, total, toLast + 1) == 1;
    NextTimesCounts(1, total, i - 1);
    NextTimesSplit(i, total, toLast + 1, i - 1);
    assert toLast + 1 + (i - 1) == total - 1;
  }

  /** The parts of a URL the image check reads. */
  datatype UrlParts = UrlParts(pathname: string, search: string, hash: string)

  /** `isValidImageUrl`: not empty or blank, parseable (the URL parser is a
      parameter; None when it throws), and more than a bare domain. */
  function IsValidImageUrl(url: string, parse: string -> Option<UrlParts>): (ok: bool)
    ensures Trim(url) == "" ==> !ok
    ensures ok <==> (Trim(url) != "" && parse(url).Some? &&
      (parse(url).value.pathname != "/" || parse(url).value.search != "" || parse(url).value.hash != ""))
  {
    if url == "" || Trim(url) == "" then false
    else match parse(url)
      case None => false
      case Some(u) => u.pathname != "/" || u.search != "" || u.hash != ""
  }

  /** The background image (and its overlay) is drawn only for a valid image URL. */
  predicate ShowsImage(s: Slide, parse: string -> Option<UrlParts>) {
    s.image != "" && IsValidImageUrl(s.image, parse)
  }

  /** The default slide never draws an image. */
  lemma DefaultSlideHasNoImage(title: string, subtitle: string, parse: string -> Option<UrlParts>)
    ensures !ShowsImage(DefaultSlide(title, subtitle), parse)
  {
  }

  /** The arrows and dots are drawn only when there is more than one slide, i.e. with advertisements. */
  function ShowsNavigation(list: seq<Slide>): (r: bool)
    ensures r <==> |list| >= 2
  {
    |list| > 1
  }

  lemma NavigationIffAds(default: Slide, slides: Option<seq<Slide>>)
    ensures ShowsNavigation(SlideList(default, slides)) <==> HasAds(slides)
  {
  }
}
