/** Where the tooltip card goes: an anchor point next to the resolved box on
    the step's preferred side, plus a translation of the card by fractions of
    its own size, so that the card lands beside the box whatever size its
    text gives it. */
module Placement {
  import opened Geometry
  import opened Steps

  /** The distance between the box and the card. */
  const Gap: real := 16.0

  /** A self-relative translation along one axis: 0, -50% or -100% of the
      card's own extent on that axis. */
  datatype Shift = NoShift | HalfBack | FullBack

  function Fraction(s: Shift): real
  {
    match s
    case NoShift => 0.0
    case HalfBack => -0.5
    case FullBack => -1.0
  }

  /** translate(x, y) with both components self-relative. */
  datatype Translate = Translate(x: Shift, y: Shift)

  /** The style of the card: anchored in document coordinates next to the
      box, or fixed to the viewport at percentages of its size. */
  datatype TooltipStyle =
    | Absolute(top: real, left: real, transform: Translate)
    | Fixed(topPercent: real, leftPercent: real, transform: Translate)

  /** The rectangle a card of the given size occupies when it is anchored at
      (top, left) and translated by `t`. */
  function CardRect(top: real, left: real, t: Translate, width: real, height: real): Rect
  {
    Rect(top + Fraction(t.y) * height, left + Fraction(t.x) * width, width, height)
  }

  /** The card `card` sits on side `side` of `box`: Gap outside the matching
      edge and centred on the other axis; for Center, centred on the box. */
  predicate SitsOn(card: Rect, box: Rect, side: Side)
  {
    match side
    case Top => card.Bottom() == box.top - Gap && card.CentreX() == box.CentreX()
    case Bottom => card.top == box.Bottom() + Gap && card.CentreX() == box.CentreX()
    case Left => card.Right() == box.left - Gap && card.CentreY() == box.CentreY()
    case Right => card.left == box.Right() + Gap && card.CentreY() == box.CentreY()
    case Center => card.CentreX() == box.CentreX() && card.CentreY() == box.CentreY()
  }

  /** The style of the card for a resolved box and a preferred side.
      Whatever the size of the card, it sits on that side of the box. */
  function TooltipStyleFor(rect: Rect, side: Side): (s: TooltipStyle)
    ensures s.Absolute?
    ensures forall w: real, h: real {:trigger CardRect(s.top, s.left, s.transform, w, h)} ::
      SitsOn(CardRect(s.top, s.left, s.transform, w, h), rect, side)
  {
    match side
    case Top => Absolute(rect.top - Gap, rect.left + rect.width / 2.0, Translate(HalfBack, FullBack))
    case Bottom => Absolute(rect.top + rect.height + Gap, rect.left + rect.width / 2.0, Translate(HalfBack, NoShift))
    case Left => Absolute(rect.top + rect.height / 2.0, rect.left - Gap, Translate(FullBack, HalfBack))
    case Right => Absolute(rect.top + rect.height / 2.0, rect.left + rect.width + Gap, Translate(NoShift, HalfBack))
    case Center => Absolute(rect.top + rect.height / 2.0, rect.left + rect.width / 2.0, Translate(HalfBack, HalfBack))
  }

  /** The card for the current step: next to the resolved box when there is
      one, otherwise fixed at the centre of the viewport whatever the side. */
  function CardStyle(position: Option<Rect>, side: Side): (s: TooltipStyle)
    ensures s.Fixed? <==> position.None?
    ensures position.None? ==> s == Fixed(50.0, 50.0, Translate(HalfBack, HalfBack))
  {
    match position
    case Some(r) => TooltipStyleFor(r, side)
    case None => Fixed(50.0, 50.0, Translate(HalfBack, HalfBack))
  }

  /** With a box, the card sits on the step's side of it at any card size;
      in particular a centred step's card is centred on the box. */
  lemma CardSitsOnSide(position: Option<Rect>, side: Side, w: real, h: real)
    requires position.Some?
    ensures var s := CardStyle(position, side);
      s.Absolute? && SitsOn(CardRect(s.top, s.left, s.transform, w, h), position.value, side)
  {
  }

  /** On any of the four sides, the card does not cover the box it points
      at, nor the highlight ring around it, whatever the card's size. */
  lemma SideCardClearsHighlight(box: Rect, side: Side, w: real, h: real)
    requires box.WellFormed() && w >= 0.0 && h >= 0.0
    requires side != Center
    ensures var s := TooltipStyleFor(box, side);
      var card := CardRect(s.top, s.left, s.transform, w, h);
      card.DisjointFrom(Inflate(box, HighlightMargin)) && card.DisjointFrom(box)
  {
  }

  /** Example: a 800 x 50 box at (100, 0) with the card below it
      anchors the card's top centre at (166, 400). */
  lemma BottomExample()
    ensures TooltipStyleFor(Rect(100.0, 0.0, 800.0, 50.0), Bottom)
         == Absolute(166.0, 400.0, Translate(HalfBack, NoShift))
  {
  }
}
