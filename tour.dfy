/** The tour component and the open flag its owner keeps for it, as one
    object whose fields the handlers and effects overwrite. Each method is
    one handler together with the effects it sets off, and is proved to move
    the object exactly as the matching transition of TourMachine does. */
module TourComponent {
  import opened Geometry
  import opened Steps
  import opened TourMachine

  class Tour {
    /** The catalogue; the tour never changes it. */
    const steps: seq<TourStep>
    /** The owner's open flag. */
    var isOpen: bool
    var currentStep: nat
    /** The box last resolved for the current step. */
    var position: Option<Rect>
    /** How many resize listeners the tour has registered on the window. */
    var resizeListeners: nat

    function State(): TourState
      reads this
    {
      TourState(isOpen, currentStep, position, resizeListeners)
    }

    ghost predicate Valid()
      reads this
    {
      Inv(State(), steps)
    }

    /** The tour as first rendered: closed, on the first step, no box. */
    constructor (steps: seq<TourStep>)
      requires Runnable(steps)
      ensures Valid() && this.steps == steps && State() == Initial
    {
      this.steps := steps;
      isOpen := false;
      currentStep := 0;
      position := None;
      resizeListeners := 0;
    }

    /** Looks up the current step's region and stores its document box, or
        nothing when the region is missing. Scrolling the region into view
        is a side effect on the page and is not part of the state. */
    method UpdatePosition(page: Page)
      requires currentStep < |steps|
      modifies this`position
      ensures position == TargetBox(steps, currentStep, page)
    {
      var found := FindRegion(page, steps[currentStep].targetId);
      if found.Some? {
        var rect := found.value;
        position := Some(Rect(rect.top + page.scrollTop, rect.left + page.scrollLeft, rect.width, rect.height));
      } else {
        position := None;
      }
    }

    /** The open/close effect's set-up: resolve now and listen for resizes. */
    method AttachEffect(page: Page)
      requires currentStep < |steps|
      modifies this`position, this`resizeListeners
      ensures position == TargetBox(steps, currentStep, page)
      ensures resizeListeners == old(resizeListeners) + 1
    {
      UpdatePosition(page);
      resizeListeners := resizeListeners + 1;
    }

    /** The open/close effect's clean-up: stop listening for resizes. */
    method DetachEffect()
      requires resizeListeners > 0
      modifies this`resizeListeners
      ensures resizeListeners == old(resizeListeners) - 1
    {
      resizeListeners := resizeListeners - 1;
    }

    /** The tour button sets the open flag; when it was clear, the effect
        resolves the current step and registers the resize listener. */
    method Open(page: Page)
      requires Valid()
      modifies this
      ensures Valid()
      ensures State() == Opened(old(State()), steps, page)
    {
      if !isOpen {
        isOpen := true;
        AttachEffect(page);
      }
    }

    /** Closing: the flag is cleared, the effect's clean-up removes the
        listener and the effect resets the index to the first step. */
    method Close()
      requires Valid()
      modifies this
      ensures Valid()
      ensures State() == Closed(old(State()), steps)
    {
      if isOpen {
        isOpen := false;
        DetachEffect();
        currentStep := 0;
      }
    }

    /** The next control: advance and re-run the effect for the new step,
        or close on the last step. */
    method Next(page: Page)
      requires Valid() && isOpen
      modifies this
      ensures Valid()
      ensures State() == Advanced(old(State()), steps, page)
    {
      if currentStep < |steps| - 1 {
        currentStep := currentStep + 1;
        DetachEffect();
        AttachEffect(page);
      } else {
        Close();
      }
    }

    /** The previous control: step back and re-run the effect, except on the
        first step, where nothing happens. */
    method Prev(page: Page)
      requires Valid() && isOpen
      modifies this
      ensures Valid()
      ensures State() == Retreated(old(State()), steps, page)
    {
      if currentStep > 0 {
        currentStep := currentStep - 1;
        DetachEffect();
        AttachEffect(page);
      }
    }

    /** A window resize: the registered listener, if any, resolves the
        current step again. */
    method Resize(page: Page)
      requires Valid()
      modifies this
      ensures Valid()
      ensures State() == Resized(old(State()), steps, page)
    {
      if resizeListeners > 0 {
        UpdatePosition(page);
      }
    }
  }

  /** The three-step walk-through on the object: after open, next, next,
      next the tour is closed, and opening it again shows the first step. */
  method ThreeStepWalk(steps: seq<TourStep>, page: Page) returns (t: Tour)
    requires |steps| == 3
    ensures fresh(t) && t.Valid() && t.isOpen && t.currentStep == 0
  {
    t := new Tour(steps);
    t.Open(page);
    t.Next(page);
    t.Next(page);
    assert t.isOpen && t.currentStep == 2;
    t.Next(page);
    assert !t.isOpen && t.currentStep == 0 && t.resizeListeners == 0;
    t.Resize(page);
    assert !t.isOpen && t.currentStep == 0;
    t.Open(page);
  }
}
