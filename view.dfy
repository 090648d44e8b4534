/** What an open tour draws, derived from its state at render time: the
    highlight ring, the tooltip card's style, the step's text, one page
    marker per step, and the two navigation controls. */
module TourView {
  import opened Geometry
  import opened Steps
  import opened Placement
  import opened TourMachine

  /** The label of the next control. */
  datatype NextLabel = Avanti | Fine

  /** The next control: its caption and whether it shows a chevron. */
  datatype NextButton = NextButton(caption: NextLabel, chevron: bool)

  datatype View = View(
    highlight: Option<Rect>,
    card: TooltipStyle,
    title: string,
    content: string,
    markers: seq<bool>,
    prevDisabled: bool,
    next: NextButton)

  /** How many markers are lit. */
  function CountLit(markers: seq<bool>): nat
  {
    if markers == [] then 0 else (if markers[0] then 1 else 0) + CountLit(markers[1..])
  }

  /** One marker per step; a marker is lit exactly when it is the current
      step's. */
  function PageMarkers(count: nat, current: nat): (markers: seq<bool>)
    ensures |markers| == count
    ensures forall idx :: 0 <= idx < count ==> (markers[idx] <==> idx == current)
  {
    seq(count, idx => idx == current)
  }

  lemma {:induction false} NoneLit(markers: seq<bool>)
    requires forall i :: 0 <= i < |markers| ==> !markers[i]
    ensures CountLit(markers) == 0
    decreases |markers|
  {
    if markers != [] {
      NoneLit(markers[1..]);
    }
  }

  lemma {:induction false} OnlyOneLit(markers: seq<bool>, k: nat)
    requires k < |markers| && markers[k]
    requires forall i :: 0 <= i < |markers| && i != k ==> !markers[i]
    ensures CountLit(markers) == 1
    decreases |markers|
  {
    if k == 0 {
      NoneLit(markers[1..]);
    } else {
      OnlyOneLit(markers[1..], k - 1);
    }
  }

  /** On a step of the catalogue exactly one marker is lit, the current one. */
  lemma ExactlyOneMarkerLit(count: nat, current: nat)
    requires current < count
    ensures CountLit(PageMarkers(count, current)) == 1
    ensures PageMarkers(count, current)[current]
  {
    OnlyOneLit(PageMarkers(count, current), current);
  }

  /** The previous control is disabled exactly on the first step. */
  function PrevDisabled(current: nat): (disabled: bool)
    ensures disabled <==> current == 0
  {
    current == 0
  }

  /** On an open tour the previous control is disabled exactly when clicking
      it would change nothing. */
  lemma PrevDisabledIffPrevIsNoOp(s: TourState, steps: seq<TourStep>, page: Page)
    requires Inv(s, steps) && s.isOpen
    ensures PrevDisabled(s.currentStep) <==> Retreated(s, steps, page) == s
  {
  }

  /** The next control reads "Fine" (and drops its chevron) exactly on the
      last step; elsewhere it reads "Avanti" with a chevron. */
  function NextControl(count: nat, current: nat): (b: NextButton)
    ensures b.caption == Fine <==> current + 1 == count
    ensures b.chevron <==> b.caption == Avanti
  {
    if current == count - 1 then NextButton(Fine, false) else NextButton(Avanti, true)
  }

  /** The render: nothing while closed; while open, the current step's text,
      the ring around the box when there is one, the card beside the box on
      the step's side or centred in the viewport when there is no box, and
      the controls. */
  function Render(s: TourState, steps: seq<TourStep>): (v: Option<View>)
    requires Inv(s, steps)
    ensures v.Some? <==> s.isOpen
    ensures v.Some? ==>
      var step := steps[s.currentStep];
      && v.value.title == step.title && v.value.content == step.content
      && (v.value.highlight.Some? <==> s.position.Some?)
      && (v.value.card.Fixed? <==> s.position.None?)
      && v.value.highlight == Highlight(s.position)
      && v.value.card == CardStyle(s.position, step.position)
      && |v.value.markers| == |steps|
      && (forall idx :: 0 <= idx < |steps| ==> (v.value.markers[idx] <==> idx == s.currentStep))
      && CountLit(v.value.markers) == 1
      && (v.value.prevDisabled <==> s.currentStep == 0)
      && (v.value.next.caption == Fine <==> s.currentStep == |steps| - 1)
  {
    if !s.isOpen then None
    else
      var step := steps[s.currentStep];
      ExactlyOneMarkerLit(|steps|, s.currentStep);
      Some(View(
        Highlight(s.position),
        CardStyle(s.position, step.position),
        step.title,
        step.content,
        PageMarkers(|steps|, s.currentStep),
        PrevDisabled(s.currentStep),
        NextControl(|steps|, s.currentStep)))
  }

  /** The card of an open tour never covers the highlight ring on the four
      sides, whatever the card's size; with no box there is no ring and the
      card is centred in the viewport whatever the side. */
  lemma RenderedCardClearsRing(s: TourState, steps: seq<TourStep>, w: real, h: real)
    requires Inv(s, steps) && s.isOpen
    requires s.position.Some? ==> s.position.value.WellFormed()
    requires w >= 0.0 && h >= 0.0
    ensures var v := Render(s, steps).value;
      var side := steps[s.currentStep].position;
      && (s.position.Some? && side != Center ==>
            v.card.Absolute? && v.highlight.Some?
            && CardRect(v.card.top, v.card.left, v.card.transform, w, h).DisjointFrom(v.highlight.value))
      && (s.position.None? ==> v.highlight.None? && v.card == Fixed(50.0, 50.0, Translate(HalfBack, HalfBack)))
  {
  }
}
