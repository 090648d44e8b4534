/** Geometry of the tour: rectangles, the page the tour looks regions up in,
    the resolution of a viewport-relative rectangle into document
    coordinates, and the highlight ring drawn around the resolved box. */
module Geometry {

  datatype Option<T> = None | Some(value: T)

  /** A rectangle given by its top-left corner and its size, as a DOMRect is. */
  datatype Rect = Rect(top: real, left: real, width: real, height: real)
  {
    function Bottom(): real { top + height }
    function Right(): real { left + width }
    function CentreX(): real { left + width / 2.0 }
    function CentreY(): real { top + height / 2.0 }

    /** A rectangle a layout engine can report: no negative extent. */
    predicate WellFormed() { width >= 0.0 && height >= 0.0 }

    /** `inner` lies within this rectangle (edges may touch). */
    predicate Contains(inner: Rect)
    {
      top <= inner.top && left <= inner.left && inner.Bottom() <= Bottom() && inner.Right() <= Right()
    }

    /** This rectangle and `other` have no point in common. */
    predicate DisjointFrom(other: Rect)
    {
      Bottom() < other.top || other.Bottom() < top || Right() < other.left || other.Right() < left
    }
  }

  /** The page as the tour queries it: each rendered region by id with its
      viewport-relative rectangle, and the current scroll offsets. */
  datatype Page = Page(regions: map<string, Rect>, scrollTop: real, scrollLeft: real)

  /** Looking a region up by id; `None` when no region carries that id. */
  function FindRegion(page: Page, id: string): (r: Option<Rect>)
    ensures r.Some? <==> id in page.regions
    ensures r.Some? ==> r.value == page.regions[id]
  {
    if id in page.regions then Some(page.regions[id]) else None
  }

  /** Document coordinates back to viewport coordinates under the given
      scroll offsets: the inverse of resolution. */
  function ToViewport(box: Rect, scrollTop: real, scrollLeft: real): Rect
  {
    Rect(box.top - scrollTop, box.left - scrollLeft, box.width, box.height)
  }

  /** Scrolling the page by (dy, dx) moves every viewport rectangle by (-dy, -dx). */
  function Scrolled(page: Page, dy: real, dx: real): Page
  {
    Page(map id | id in page.regions :: ToViewport(page.regions[id], dy, dx),
         page.scrollTop + dy, page.scrollLeft + dx)
  }

  /** The resolved box of a looked-up region: its viewport rectangle moved
      into document coordinates by the scroll offsets, or nothing when the
      region is missing. Its size is the region's size and moving it back
      by the same offsets gives the viewport rectangle again. */
  function Resolve(found: Option<Rect>, scrollTop: real, scrollLeft: real): (box: Option<Rect>)
    ensures box.Some? <==> found.Some?
    ensures box.Some? ==> ToViewport(box.value, scrollTop, scrollLeft) == found.value
  {
    match found
    case None => None
    case Some(r) => Some(Rect(r.top + scrollTop, r.left + scrollLeft, r.width, r.height))
  }

  /** Resolving the region `id` on `page`. */
  function ResolveOn(page: Page, id: string): (box: Option<Rect>)
    ensures box.Some? <==> id in page.regions
  {
    Resolve(FindRegion(page, id), page.scrollTop, page.scrollLeft)
  }

  /** Document coordinates do not depend on how far the page is scrolled:
      after scrolling by any amount, every region resolves to the same box. */
  lemma ResolveIgnoresScrolling(page: Page, id: string, dy: real, dx: real)
    ensures ResolveOn(Scrolled(page, dy, dx), id) == ResolveOn(page, id)
  {
  }

  /** The margin by which the highlight ring exceeds the box on every side. */
  const HighlightMargin: real := 4.0

  /** The rectangle `r` grown by `m` on each of its four sides. */
  function Inflate(r: Rect, m: real): Rect
  {
    Rect(r.top - m, r.left - m, r.width + 2.0 * m, r.height + 2.0 * m)
  }

  /** The highlight ring: drawn exactly when there is a resolved box, and
      then it surrounds the box with the margin on every side, so it
      contains the box. */
  function Highlight(position: Option<Rect>): (ring: Option<Rect>)
    ensures ring.Some? <==> position.Some?
    ensures ring.Some? ==>
      var b, h := position.value, ring.value;
      && h.Contains(b)
      && b.top - h.top == HighlightMargin && b.left - h.left == HighlightMargin
      && h.Bottom() - b.Bottom() == HighlightMargin && h.Right() - b.Right() == HighlightMargin
  {
    match position
    case None => None
    case Some(b) => Some(Inflate(b, HighlightMargin))
  }
}
