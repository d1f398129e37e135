/**
 * The Carousel's page indicator: which dot is active for the current scroll
 * offset and page width, the colour of each dot, the normalisation of image
 * sources, and the two handlers that record the scroll offset and the width.
 */
module Carousel {
  import opened Js
  import opened Theme

  /** An entry of the `images` prop: a URL string or a `{ uri }` object. */
  datatype ImageRef = Url(url: string) | UriObject(uri: string)

  /** How many placeholder images `defaultProps.images` lists. */
  const DefaultImageCount: nat := 7

  /**
   * The `images` the component renders: the prop when given, otherwise the
   * default list of `DefaultImageCount` copies of the placeholder image URL
   * (taken from `Config`, a parameter here).
   */
  function ImagesOrDefault(images: Option<seq<ImageRef>>, placeholderUrl: string): (r: seq<ImageRef>)
    ensures images.Some? ==> r == images.value
    ensures images.None? ==> |r| == DefaultImageCount
    ensures images.None? ==> forall i :: 0 <= i < |r| ==> r[i] == Url(placeholderUrl)
  {
    if images.Some? then images.value else seq(DefaultImageCount, _ => Url(placeholderUrl))
  }

  /** One indicator dot. */
  datatype Dot = Dot(color: Color, active: bool)

  /** The `source` handed to `Image`: a string becomes `{ uri }`, an object passes through. */
  function Source(image: ImageRef): (r: ImageRef)
    ensures r.UriObject?
    ensures image.UriObject? ==> r == image
    ensures image.Url? ==> r.uri == image.url
  {
    match image
    case Url(url) => UriObject(url)
    case UriObject(_) => image
  }

  /** Normalising twice is normalising once. */
  lemma SourceIdempotent(image: ImageRef)
    ensures Source(Source(image)) == Source(image)
  {
  }

  /** The sources of all images, one per image, in order. */
  function Sources(images: seq<ImageRef>): (r: seq<ImageRef>)
    ensures |r| == |images|
    ensures forall i :: 0 <= i < |images| ==> r[i] == Source(images[i])
  {
    seq(|images|, i requires 0 <= i < |images| => Source(images[i]))
  }

  /**
   * Whether dot `i` is active: `scrollOffset / width` lies in `[i - 0.5, i + 0.5)`.
   * Before the first layout `width` is undefined and the quotient is NaN; with
   * width 0 it is NaN or an infinity; in both cases no interval holds it.
   */
  predicate ActiveDot(scrollOffset: real, width: Option<real>, i: int)
    ensures ActiveDot(scrollOffset, width, i) ==> width.Some? && width.value != 0.0
    ensures ActiveDot(scrollOffset, width, i) ==> i == (scrollOffset / width.value + 0.5).Floor
  {
    match width
    case None => false
    case Some(w) =>
      w != 0.0 && (i as real) - 0.5 <= scrollOffset / w < (i as real) + 0.5
  }

  /** The active dot is the page nearest to the scroll position, halves rounding up. */
  lemma ActiveIsNearest(scrollOffset: real, w: real, i: int)
    requires w != 0.0
    ensures ActiveDot(scrollOffset, Some(w), i) <==> i == (scrollOffset / w + 0.5).Floor
  {
  }

  /** At most one dot is active. */
  lemma AtMostOneActive(scrollOffset: real, width: Option<real>, i: int, j: int)
    requires ActiveDot(scrollOffset, width, i) && ActiveDot(scrollOffset, width, j)
    ensures i == j
  {
  }

  /** With a known non-zero width, some dot of `n` is active exactly when the position is in `[-0.5, n - 0.5)`. */
  lemma SomeDotActive(scrollOffset: real, w: real, n: nat)
    requires w != 0.0
    ensures (exists i :: 0 <= i < n && ActiveDot(scrollOffset, Some(w), i)) <==>
              -0.5 <= scrollOffset / w < (n as real) - 0.5
  {
    var q := scrollOffset / w;
    if -0.5 <= q < (n as real) - 0.5 {
      var k := (q + 0.5).Floor;
      ActiveIsNearest(scrollOffset, w, k);
      assert 0 <= k < n;
      assert ActiveDot(scrollOffset, Some(w), k);
    }
  }

  /** Before the first layout, or with width 0, no dot is active. */
  lemma NoActiveDotWithoutWidth(scrollOffset: real, width: Option<real>, i: int)
    requires width == None || width == Some(0.0)
    ensures !ActiveDot(scrollOffset, width, i)
  {
  }

  /** The colour of a dot: `dotColor` when given, else by palette and activity. */
  function DotColor(dotColor: Option<string>, palette: Option<string>, active: bool): (c: Color)
    ensures Truthy(dotColor) ==> c == Css(dotColor.value)
    ensures !Truthy(dotColor) && palette == Some("surface") ==>
              c == (if active then Themed(Strong) else Themed(Light))
    ensures !Truthy(dotColor) && palette != Some("surface") ==>
              c == (if active then Themed(Background) else Themed(Surface))
  {
    if Truthy(dotColor) then Css(dotColor.value)
    else if palette == Some("surface") then
      if active then Themed(Strong) else Themed(Light)
    else
      if active then Themed(Background) else Themed(Surface)
  }

  /** The indicator: one dot per image, active by `ActiveDot`, coloured by `DotColor`. */
  function Dots(images: seq<ImageRef>, scrollOffset: real, width: Option<real>,
                dotColor: Option<string>, palette: Option<string>): (r: seq<Dot>)
    ensures |r| == |images|
    ensures forall i :: 0 <= i < |r| ==> r[i].active == ActiveDot(scrollOffset, width, i)
    ensures forall i :: 0 <= i < |r| ==> r[i].color == DotColor(dotColor, palette, r[i].active)
  {
    seq(|images|, i requires 0 <= i < |images| =>
      var active := ActiveDot(scrollOffset, width, i);
      Dot(DotColor(dotColor, palette, active), active))
  }

  /** With a `dotColor`, every dot has that colour, active or not. */
  lemma DotColorOverrides(images: seq<ImageRef>, scrollOffset: real, width: Option<real>,
                          dotColor: Option<string>, palette: Option<string>, i: nat)
    requires Truthy(dotColor) && i < |images|
    ensures Dots(images, scrollOffset, width, dotColor, palette)[i].color == Css(dotColor.value)
  {
  }

  /**
   * Without `dotColor` the active dot and the others are given different
   * theme roles (whether the theme paints those roles differently is the
   * theme's business).
   */
  lemma ActiveDotStandsOut(images: seq<ImageRef>, scrollOffset: real, width: Option<real>,
                           palette: Option<string>, i: nat, j: nat)
    requires i < |images| && j < |images|
    ensures var d := Dots(images, scrollOffset, width, None, palette);
      d[i].active != d[j].active ==> d[i].color != d[j].color
  {
  }

  /** A carousel without an `images` prop shows seven dots, whatever its scroll position. */
  lemma DefaultShowsSevenDots(placeholderUrl: string, scrollOffset: real, width: Option<real>,
                              dotColor: Option<string>, palette: Option<string>)
    ensures |Dots(ImagesOrDefault(None, placeholderUrl), scrollOffset, width, dotColor, palette)| == 7
    ensures |Sources(ImagesOrDefault(None, placeholderUrl))| == 7
  {
  }

  /** The carousel's state: the horizontal scroll offset and the measured page width. */
  class Pager {
    var scrollOffset: real
    var width: Option<real>

    constructor ()
      ensures scrollOffset == 0.0 && width == None
    {
      scrollOffset := 0.0;
      width := None;
    }

    /** `handleScroll`: records `contentOffset.x` and nothing else. */
    method HandleScroll(contentOffsetX: real)
      modifies this
      ensures scrollOffset == contentOffsetX && width == old(width)
    {
      scrollOffset := contentOffsetX;
    }

    /** `onPageLayout`: records the layout width and nothing else. */
    method OnPageLayout(layoutWidth: real)
      modifies this
      ensures width == Some(layoutWidth) && scrollOffset == old(scrollOffset)
    {
      width := Some(layoutWidth);
    }

    /** The indicator `render` draws for this state. */
    function Indicator(images: seq<ImageRef>, dotColor: Option<string>, palette: Option<string>): (r: seq<Dot>)
      reads this
      ensures |r| == |images|
      ensures forall i :: 0 <= i < |r| ==> r[i].active == ActiveDot(scrollOffset, width, i)
    {
      Dots(images, scrollOffset, width, dotColor, palette)
    }
  }
}
