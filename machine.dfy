/** The tour's state machine, as values: the state the tour component and
    its owner keep between renders, one function per transition (a handler
    together with the effects it sets off), and what runs of events do. The
    `Tour` class in module TourComponent is proved against these functions. */
module TourMachine {
  import opened Geometry
  import opened Steps

  /** Whether the tour is shown, the index of the current step, the box last
      resolved for it (`None` when its region was missing) and the number of
      resize listeners the tour has registered on the window. */
  datatype TourState = TourState(isOpen: bool, currentStep: nat, position: Option<Rect>, resizeListeners: nat)

  /** Before the tour is first opened. */
  const Initial: TourState := TourState(false, 0, None, 0)

  /** What every reachable state satisfies: while open the index names a
      step of the catalogue; while closed it is back at the first step; one
      resize listener is registered while open and none while closed. */
  predicate Inv(s: TourState, steps: seq<TourStep>)
  {
    && Runnable(steps)
    && (s.isOpen ==> s.currentStep < |steps|)
    && (!s.isOpen ==> s.currentStep == 0)
    && s.resizeListeners == (if s.isOpen then 1 else 0)
  }

  /** The box of step `i`'s region on `page`; absent exactly when the page
      has no region with the step's id. */
  function TargetBox(steps: seq<TourStep>, i: nat, page: Page): (box: Option<Rect>)
    requires i < |steps|
    ensures box.Some? <==> steps[i].targetId in page.regions
  {
    ResolveOn(page, steps[i].targetId)
  }

  /** The tour button: a closed tour opens on its first step, resolves that
      step's box and registers its resize listener; an open tour is left as
      it is. */
  function Opened(s: TourState, steps: seq<TourStep>, page: Page): (r: TourState)
    requires Inv(s, steps)
    ensures Inv(r, steps) && r.isOpen
    ensures !s.isOpen ==> r.currentStep == 0 && r.position == TargetBox(steps, 0, page)
    ensures s.isOpen ==> r == s
  {
    if s.isOpen then s
    else TourState(true, s.currentStep, TargetBox(steps, s.currentStep, page), s.resizeListeners + 1)
  }

  /** Closing: the listener is removed and the index goes back to the first
      step; the last resolved box stays as it was (a closed tour draws
      nothing). Closing a closed tour changes nothing. */
  function Closed(s: TourState, steps: seq<TourStep>): (r: TourState)
    requires Inv(s, steps)
    ensures Inv(r, steps) && !r.isOpen
    ensures r.currentStep == 0 && r.resizeListeners == 0 && r.position == s.position
  {
    if !s.isOpen then s
    else TourState(false, 0, s.position, s.resizeListeners - 1)
  }

  /** The next control: before the last step it moves to the following step
      and resolves that step's box (the listener is swapped for the new
      step's); on the last step it closes the tour. */
  function Advanced(s: TourState, steps: seq<TourStep>, page: Page): (r: TourState)
    requires Inv(s, steps) && s.isOpen
    ensures Inv(r, steps)
    ensures r.isOpen <==> s.currentStep < |steps| - 1
    ensures r.isOpen ==> r.currentStep == s.currentStep + 1 && r.position == TargetBox(steps, r.currentStep, page)
    ensures !r.isOpen ==> r == Closed(s, steps)
  {
    if s.currentStep < |steps| - 1 then
      var i := s.currentStep + 1;
      TourState(true, i, TargetBox(steps, i, page), s.resizeListeners - 1 + 1)
    else
      Closed(s, steps)
  }

  /** The previous control: after the first step it moves back one step and
      resolves that step's box; on the first step it does nothing at all. */
  function Retreated(s: TourState, steps: seq<TourStep>, page: Page): (r: TourState)
    requires Inv(s, steps) && s.isOpen
    ensures Inv(r, steps) && r.isOpen
    ensures s.currentStep == 0 ==> r == s
    ensures s.currentStep > 0 ==> r.currentStep == s.currentStep - 1 && r.position == TargetBox(steps, r.currentStep, page)
  {
    if s.currentStep > 0 then
      var i := s.currentStep - 1;
      TourState(true, i, TargetBox(steps, i, page), s.resizeListeners - 1 + 1)
    else
      s
  }

  /** A window resize reaches the tour only through its listener: while open
      the current step's box is resolved again and nothing else changes;
      while closed no listener is left, so nothing happens. */
  function Resized(s: TourState, steps: seq<TourStep>, page: Page): (r: TourState)
    requires Inv(s, steps)
    ensures Inv(r, steps) && r.isOpen == s.isOpen && r.currentStep == s.currentStep
    ensures !s.isOpen ==> r == s
    ensures s.isOpen ==> r.position == TargetBox(steps, s.currentStep, page)
  {
    if s.resizeListeners > 0 then s.(position := TargetBox(steps, s.currentStep, page)) else s
  }

  /** What can happen to the tour: the owner's tour button, the three
      controls of the card, and a window resize. */
  datatype Event =
    | OpenTour(page: Page)
    | ClickNext(page: Page)
    | ClickPrev(page: Page)
    | ClickClose
    | WindowResize(page: Page)

  /** One event. The card and its controls are rendered only while the tour
      is open, so a click on them cannot happen while it is closed. */
  function Apply(s: TourState, steps: seq<TourStep>, e: Event): (r: TourState)
    requires Inv(s, steps)
    ensures Inv(r, steps)
  {
    match e
    case OpenTour(page) => Opened(s, steps, page)
    case ClickNext(page) => if s.isOpen then Advanced(s, steps, page) else s
    case ClickPrev(page) => if s.isOpen then Retreated(s, steps, page) else s
    case ClickClose => if s.isOpen then Closed(s, steps) else s
    case WindowResize(page) => Resized(s, steps, page)
  }

  /** A run of events, in order. Every state it passes through keeps the
      invariant. */
  function Run(s: TourState, steps: seq<TourStep>, events: seq<Event>): (r: TourState)
    requires Inv(s, steps)
    ensures Inv(r, steps)
    decreases |events|
  {
    if events == [] then s else Run(Apply(s, steps, events[0]), steps, events[1..])
  }

  /** Running two runs one after the other is running their concatenation. */
  lemma {:induction false} RunConcat(s: TourState, steps: seq<TourStep>, a: seq<Event>, b: seq<Event>)
    requires Inv(s, steps)
    ensures Run(s, steps, a + b) == Run(Run(s, steps, a), steps, b)
    decreases |a|
  {
    if a == [] {
      assert a + b == b;
    } else {
      assert (a + b)[1..] == a[1..] + b;
      RunConcat(Apply(s, steps, a[0]), steps, a[1..], b);
    }
  }

  /** From the initial state, whatever happens: while open the index names a
      step, while closed it is 0, and at most one resize listener is ever
      registered (none while closed). */
  lemma ReachableStates(steps: seq<TourStep>, events: seq<Event>)
    requires Runnable(steps)
    ensures var r := Run(Initial, steps, events);
      && (r.isOpen ==> r.currentStep < |steps|)
      && (!r.isOpen ==> r.currentStep == 0 && r.resizeListeners == 0)
      && r.resizeListeners <= 1
  {
  }

  /** However the tour was used before, closing it and opening it again
      starts at the first step with that step's box. */
  lemma {:induction false} ReopenStartsAtFirstStep(steps: seq<TourStep>, events: seq<Event>, page: Page)
    requires Runnable(steps)
    ensures var r := Run(Initial, steps, events + [ClickClose, OpenTour(page)]);
      r.isOpen && r.currentStep == 0 && r.position == TargetBox(steps, 0, page)
  {
    var mid := Run(Initial, steps, events);
    RunConcat(Initial, steps, events, [ClickClose, OpenTour(page)]);
    assert [ClickClose, OpenTour(page)][1..] == [OpenTour(page)];
    var closed := Apply(mid, steps, ClickClose);
    assert !closed.isOpen;
    assert Run(closed, steps, [OpenTour(page)]) == Opened(closed, steps, page);
  }

  /** Next then previous, from any step but the last, comes back to the same
      state when the page has not changed in between. */
  lemma NextThenPrev(s: TourState, steps: seq<TourStep>, page: Page)
    requires Inv(s, steps) && s.isOpen && s.currentStep < |steps| - 1
    requires s.position == TargetBox(steps, s.currentStep, page)
    ensures Retreated(Advanced(s, steps, page), steps, page) == s
  {
  }

  /** Previous then next, from any step but the first, comes back to the same
      state when the page has not changed in between. */
  lemma PrevThenNext(s: TourState, steps: seq<TourStep>, page: Page)
    requires Inv(s, steps) && s.isOpen && s.currentStep > 0
    requires s.position == TargetBox(steps, s.currentStep, page)
    ensures Advanced(Retreated(s, steps, page), steps, page) == s
  {
  }

  /** Re-resolving on a resize against an unchanged page is idempotent. */
  lemma ResizeIdempotent(s: TourState, steps: seq<TourStep>, page: Page)
    requires Inv(s, steps)
    ensures Resized(Resized(s, steps, page), steps, page) == Resized(s, steps, page)
  {
  }

  /** A run of nothing but resizes never changes the step or opens or closes
      the tour, and leaves a closed tour exactly as it was. */
  lemma {:induction false} ResizesKeepStep(s: TourState, steps: seq<TourStep>, events: seq<Event>)
    requires Inv(s, steps)
    requires forall k :: 0 <= k < |events| ==> events[k].WindowResize?
    ensures var r := Run(s, steps, events);
      r.isOpen == s.isOpen && r.currentStep == s.currentStep && (!s.isOpen ==> r == s)
    decreases |events|
  {
    if events != [] {
      ResizesKeepStep(Apply(s, steps, events[0]), steps, events[1..]);
    }
  }

  /** `k` clicks on the next control, all on the same page. */
  function Nexts(page: Page, k: nat): (es: seq<Event>)
    ensures |es| == k && forall j :: 0 <= j < k ==> es[j] == ClickNext(page)
  {
    seq(k, _ => ClickNext(page))
  }

  /** From an open step, `k` clicks on next that stay within the catalogue
      walk forward exactly `k` steps. */
  lemma {:induction false} NextsWalkForward(s: TourState, steps: seq<TourStep>, page: Page, k: nat)
    requires Inv(s, steps) && s.isOpen && s.currentStep + k < |steps|
    ensures var r := Run(s, steps, Nexts(page, k));
      r.isOpen && r.currentStep == s.currentStep + k
    decreases k
  {
    if k > 0 {
      assert Nexts(page, k)[1..] == Nexts(page, k - 1);
      NextsWalkForward(Apply(s, steps, ClickNext(page)), steps, page, k - 1);
    }
  }

  /** Opening the tour and clicking next once per step finishes it: the last
      click closes the tour, back at the first step with no listener left. */
  lemma {:induction false} NextThroughEveryStepFinishes(steps: seq<TourStep>, page: Page)
    requires Runnable(steps)
    ensures var r := Run(Initial, steps, [OpenTour(page)] + Nexts(page, |steps|));
      !r.isOpen && r.currentStep == 0 && r.resizeListeners == 0
  {
    var n := |steps|;
    var first := Opened(Initial, steps, page);
    assert ([OpenTour(page)] + Nexts(page, n))[1..] == Nexts(page, n - 1) + [ClickNext(page)];
    NextsWalkForward(first, steps, page, n - 1);
    RunConcat(first, steps, Nexts(page, n - 1), [ClickNext(page)]);
  }

  /** With three steps: open, next, next shows the third step; one more next
      closes the tour; opening it again shows the first step. */
  lemma ThreeStepScenario(steps: seq<TourStep>, page: Page)
    requires |steps| == 3
    ensures var r := Run(Initial, steps, [OpenTour(page), ClickNext(page), ClickNext(page)]);
      r.isOpen && r.currentStep == 2
    ensures var r := Run(Initial, steps, [OpenTour(page), ClickNext(page), ClickNext(page), ClickNext(page)]);
      !r.isOpen && r.currentStep == 0
    ensures var r := Run(Initial, steps, [OpenTour(page), ClickNext(page), ClickNext(page), ClickNext(page), OpenTour(page)]);
      r.isOpen && r.currentStep == 0
  {
    var o, n := OpenTour(page), ClickNext(page);
    var s0 := Opened(Initial, steps, page);
    var s1 := Advanced(s0, steps, page);
    var s2 := Advanced(s1, steps, page);
    var s3 := Advanced(s2, steps, page);
    assert Run(s2, steps, [n]) == Run(s3, steps, []) == s3;
    assert Run(s1, steps, [n, n]) == Run(s2, steps, [n]);
    assert Run(s0, steps, [n, n, n]) == Run(s1, steps, [n, n]);
    assert Run(Initial, steps, [o, n, n, n]) == Run(s0, steps, [n, n, n]);
    assert Run(s1, steps, [n]) == Run(s2, steps, []) == s2;
    assert Run(s0, steps, [n, n]) == Run(s1, steps, [n]);
    assert Run(Initial, steps, [o, n, n]) == Run(s0, steps, [n, n]);
    assert Run(s3, steps, [o]) == Opened(s3, steps, page);
    assert Run(s2, steps, [n, o]) == Run(s3, steps, [o]);
    assert Run(s1, steps, [n, n, o]) == Run(s2, steps, [n, o]);
    assert Run(s0, steps, [n, n, n, o]) == Run(s1, steps, [n, n, o]);
    assert Run(Initial, steps, [o, n, n, n, o]) == Run(s0, steps, [n, n, n, o]);
  }

  /** The shipped catalogue opens on the page root with a centred card. */
  lemma CatalogueOpensOnRoot(page: Page)
    ensures var r := Opened(Initial, TourSteps, page);
      r.isOpen && TourSteps[r.currentStep].targetId == "root"
      && TourSteps[r.currentStep].position == Center
      && r.position == ResolveOn(page, "root")
  {
  }
}
