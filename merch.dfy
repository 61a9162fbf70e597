/** The image carousel of a merchandise card (`MerchItem`): the list of slides
    built from the product images and an optional Instagram reel, the index of
    the slide on screen, the next/previous controls that move it with
    wrap-around, and what is rendered for the current slide. */
module MerchCarousel {
  import opened Js

  /** The marker slide appended after the images when a reel is given. */
  const Sentinel: string := "instagram"

  /** The slides: the images, then the marker when the reel prop is truthy. */
  function CarouselItems(images: seq<string>, reel: Option<string>): (items: seq<string>)
    ensures |items| == |images| + (if Truthy(reel) then 1 else 0)
    ensures items[..|images|] == images
    ensures Truthy(reel) ==> items[|images|] == Sentinel
  {
    if Truthy(reel) then images + [Sentinel] else images
  }

  /** `nextItem`: the index one slide on, wrapping from the last to the first. */
  function NextIndex(i: int, n: int): (r: int)
    requires n > 0
    ensures 0 <= i < n ==> 0 <= r < n
    ensures 0 <= i < n ==> r == if i == n - 1 then 0 else i + 1
  {
    JsRem(i + 1, n)
  }

  /** `prevItem`: the index one slide back, wrapping from the first to the
      last; adding `n` keeps the dividend non-negative. */
  function PrevIndex(i: int, n: int): (r: int)
    requires n > 0
    ensures 0 <= i < n ==> 0 <= r < n
    ensures 0 <= i < n ==> r == if i == 0 then n - 1 else i - 1
  {
    JsRem(i - 1 + n, n)
  }

  /** Without the `+ n`, stepping back from the first slide of a carousel
      with more than one slide would give -1, an index outside the list. */
  lemma PrevNeedsOffset(n: int)
    requires n > 1
    ensures JsRem(0 - 1, n) == -1
    ensures PrevIndex(0, n) == n - 1
  {
  }

  lemma NextThenPrev(i: int, n: int)
    requires 0 <= i < n
    ensures PrevIndex(NextIndex(i, n), n) == i
  {
  }

  lemma PrevThenNext(i: int, n: int)
    requires 0 <= i < n
    ensures NextIndex(PrevIndex(i, n), n) == i
  {
  }

  /** The index after pressing "next" k times. */
  function NextTimes(i: int, k: nat, n: int): int
    requires n > 0
  {
    if k == 0 then i else NextIndex(NextTimes(i, k - 1, n), n)
  }

  /** The index after pressing "previous" k times. */
  function PrevTimes(i: int, k: nat, n: int): int
    requires n > 0
  {
    if k == 0 then i else PrevIndex(PrevTimes(i, k - 1, n), n)
  }

  /** k presses of "next" advance the index by k modulo n. */
  lemma {:induction false} NextTimesAdvances(i: int, k: nat, n: int)
    requires 0 <= i < n
    ensures NextTimes(i, k, n) == (i + k) % n
  {
    if k == 0 {
      ModUnique(i, n, 0, i);
    } else {
      NextTimesAdvances(i, k - 1, n);
      ModSucc(i + k - 1, n);
    }
  }

  /** k presses of "previous" move the index back by k modulo n. */
  lemma {:induction false} PrevTimesRetreats(i: int, k: nat, n: int)
    requires 0 <= i < n
    ensures PrevTimes(i, k, n) == (i - k) % n
  {
    if k == 0 {
      ModUnique(i, n, 0, i);
    } else {
      PrevTimesRetreats(i, k - 1, n);
      ModPred(i - k + 1, n);
    }
  }

  /** n presses of "next", or of "previous", bring back the starting slide. */
  lemma FullCycle(i: int, n: int)
    requires 0 <= i < n
    ensures NextTimes(i, n, n) == i
    ensures PrevTimes(i, n, n) == i
  {
    NextTimesAdvances(i, n, n);
    ModUnique(i + n, n, 1, i);
    PrevTimesRetreats(i, n, n);
    ModUnique(i - n, n, -1, i);
  }

  /** What the carousel area shows: the reel embed, or an image whose source
      may be undefined when the index is outside the list. */
  datatype Slide = ReelEmbed(permalink: string) | Picture(src: Option<string>, alt: string)

  /** The current slide is the reel embed when the current item is the marker
      and the reel prop is truthy; otherwise the current item as an image. */
  function RenderSlide(name: string, items: seq<string>, index: int, reel: Option<string>): (s: Slide)
    ensures s.ReelEmbed? <==> 0 <= index < |items| && items[index] == Sentinel && Truthy(reel)
    ensures s.ReelEmbed? ==> s.permalink == reel.value
    ensures s.Picture? ==> s.alt == name
    ensures s.Picture? ==> (s.src.Some? <==> 0 <= index < |items|)
    ensures s.Picture? && s.src.Some? ==> s.src.value == items[index]
  {
    if 0 <= index < |items| && items[index] == Sentinel && Truthy(reel) then
      ReelEmbed(reel.value)
    else
      Picture(if 0 <= index < |items| then Some(items[index]) else None, name)
  }

  /** The previous/next controls are rendered only for more than one slide,
      that is, exactly when pressing them would change the slide on screen. */
  predicate ShowControls(items: seq<string>): (shown: bool)
    ensures shown <==> |items| > 0 && NextIndex(0, |items|) != 0
    ensures shown <==> |items| > 0 && PrevIndex(0, |items|) != 0
  {
    |items| > 1
  }

  /** On slides built by `CarouselItems`, when no image URL is itself the
      marker, the reel is shown exactly at the slide after the images, and
      every other slide in range shows its image. */
  lemma ReelOnlyAfterImages(name: string, images: seq<string>, reel: Option<string>, index: int)
    requires Sentinel !in images
    requires 0 <= index < |CarouselItems(images, reel)|
    ensures RenderSlide(name, CarouselItems(images, reel), index, reel).ReelEmbed?
        <==> Truthy(reel) && index == |images|
    ensures index < |images| ==>
        RenderSlide(name, CarouselItems(images, reel), index, reel) == Picture(Some(images[index]), name)
  {
  }

  /** An image URL equal to the marker is rendered as the reel when a reel is
      given: the comparison is on the string, not on the slide's origin. */
  lemma MarkerImageShowsReel(name: string, reel: Option<string>)
    requires Truthy(reel)
    ensures RenderSlide(name, CarouselItems([Sentinel], reel), 0, reel) == ReelEmbed(reel.value)
  {
  }

  /** The controls appear exactly when images plus the reel slide exceed one. */
  lemma ControlsForMoreThanOneSlide(images: seq<string>, reel: Option<string>)
    ensures ShowControls(CarouselItems(images, reel))
        <==> |images| > 1 || (|images| == 1 && Truthy(reel))
  {
  }

  /** One `MerchItem` on the page. Its props are fixed for its lifetime, so
      the slide list is a constant; the current index is its only state. */
  class Carousel {
    const name: string
    const reel: Option<string>
    const items: seq<string>
    var currentIndex: int

    /** The index is on a slide, or 0 when there are no slides at all. */
    ghost predicate Valid()
      reads this
    {
      0 <= currentIndex && (currentIndex < |items| || currentIndex == 0)
    }

    constructor (name: string, images: seq<string>, reel: Option<string>)
      ensures Valid()
      ensures this.name == name && this.reel == reel
      ensures items == CarouselItems(images, reel)
      ensures currentIndex == 0
    {
      this.name := name;
      this.reel := reel;
      items := CarouselItems(images, reel);
      currentIndex := 0;
    }

    /** `nextItem`, reachable only from the controls, which need two slides. */
    method Next()
      requires Valid() && |items| > 0
      modifies this
      ensures Valid()
      ensures currentIndex == NextIndex(old(currentIndex), |items|)
    {
      currentIndex := JsRem(currentIndex + 1, |items|);
    }

    /** `prevItem`, reachable only from the controls, which need two slides. */
    method Prev()
      requires Valid() && |items| > 0
      modifies this
      ensures Valid()
      ensures currentIndex == PrevIndex(old(currentIndex), |items|)
    {
      currentIndex := JsRem(currentIndex - 1 + |items|, |items|);
    }

    /** The slide on screen; with at least one slide it never has an
        undefined image source. */
    method Current() returns (s: Slide)
      requires Valid()
      ensures s == RenderSlide(name, items, currentIndex, reel)
      ensures |items| > 0 && s.Picture? ==> s.src == Some(items[currentIndex])
    {
      if items != [] && items[currentIndex] == Sentinel && Truthy(reel) {
        s := ReelEmbed(reel.value);
      } else if items != [] {
        s := Picture(Some(items[currentIndex]), name);
      } else {
        s := Picture(None, name);
      }
    }
  }
}
