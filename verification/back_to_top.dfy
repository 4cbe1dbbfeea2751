/**
 * The back-to-top button's visibility. The listener keeps a flag of its own
 * (`isVisible`) beside the button's `visible` and `hiding` classes; hiding
 * plays an animation and removes the classes 400 ms later, unless the
 * button has been shown again in the meantime.
 */
module BackToTop {
  import opened Wrappers

  /** The button is wanted once the page is scrolled strictly past this offset. */
  const ShowAfterOffset := 300

  /**
   * The listener's flag, the button's two classes, and how many 400 ms hide
   * timers have been scheduled and not run yet.
   */
  datatype ButtonState = ButtonState(isVisible: bool, visible: bool, hiding: bool, pendingHides: nat)

  /**
   * A shown button has `visible` and not `hiding`; `hiding` only ever
   * decorates a `visible` button; and a hidden button with no timer
   * outstanding has neither class.
   */
  predicate Consistent(s: ButtonState)
  {
    (s.isVisible ==> s.visible && !s.hiding)
    && (s.hiding ==> s.visible)
    && (!s.isVisible && s.pendingHides == 0 ==> !s.visible && !s.hiding)
  }

  /**
   * A scroll event at `offset`. The flag ends up saying whether the offset
   * is past the threshold; when it already did, nothing changes at all.
   */
  function Scrolled(s: ButtonState, offset: int): (r: ButtonState)
    ensures r.isVisible == (offset > ShowAfterOffset)
    ensures s.isVisible == (offset > ShowAfterOffset) ==> r == s
    ensures r.isVisible && !s.isVisible ==> r.visible && !r.hiding && r.pendingHides == s.pendingHides
    ensures !r.isVisible && s.isVisible ==> r.hiding && r.pendingHides == s.pendingHides + 1
    ensures Consistent(s) ==> Consistent(r)
  {
    var shouldShow := offset > ShowAfterOffset;
    if shouldShow && !s.isVisible then
      s.(hiding := false, visible := true, isVisible := true)
    else if !shouldShow && s.isVisible then
      s.(hiding := true, isVisible := false, pendingHides := s.pendingHides + 1)
    else
      s
  }

  /**
   * A hide timer fires: it clears both classes only if the button is still
   * hidden, and is a no-op on the classes if it was shown again first.
   */
  function HideTimerFired(s: ButtonState): (r: ButtonState)
    requires s.pendingHides > 0
    ensures r.isVisible == s.isVisible && r.pendingHides == s.pendingHides - 1
    ensures !s.isVisible ==> !r.visible && !r.hiding
    ensures s.isVisible ==> r.visible == s.visible && r.hiding == s.hiding
    ensures Consistent(s) ==> Consistent(r)
  {
    if !s.isVisible then
      s.(visible := false, hiding := false, pendingHides := s.pendingHides - 1)
    else
      s.(pendingHides := s.pendingHides - 1)
  }

  /**
   * Shown, hidden, then shown again before the hide timer fires: when the
   * timer does fire the button stays visible.
   */
  lemma ShowHideShowStaysVisible(s: ButtonState, high: int, low: int)
    requires Consistent(s) && !s.isVisible
    requires high > ShowAfterOffset && low <= ShowAfterOffset
    ensures var shown := Scrolled(Scrolled(Scrolled(s, high), low), high);
            shown.pendingHides > 0
            && HideTimerFired(shown).isVisible
            && HideTimerFired(shown).visible
            && !HideTimerFired(shown).hiding
  {
  }

  /** An event the button's state can receive. */
  datatype ButtonEvent = Scroll(offset: int) | HideTimerFires

  /** Whether the page can deliver `e`: a hide timer fires only if one was scheduled. */
  predicate Enabled(s: ButtonState, e: ButtonEvent)
  {
    e.HideTimerFires? ==> s.pendingHides > 0
  }

  /** The state after one event. */
  function Step(s: ButtonState, e: ButtonEvent): ButtonState
    requires Enabled(s, e)
  {
    match e
    case Scroll(offset) => Scrolled(s, offset)
    case HideTimerFires => HideTimerFired(s)
  }

  /** The state after a sequence of events, or None if the page could not deliver it. */
  function Run(s: ButtonState, events: seq<ButtonEvent>): Option<ButtonState>
    decreases |events|
  {
    if events == [] then Some(s)
    else if Enabled(s, events[0]) then Run(Step(s, events[0]), events[1..])
    else None
  }

  /**
   * Whatever scrolls and hide timers arrive, in any order, a consistent
   * button stays consistent: in particular it is never left hidden with
   * a class on once every hide timer has fired.
   */
  lemma {:induction false} RunKeepsConsistent(s: ButtonState, events: seq<ButtonEvent>)
    requires Consistent(s)
    ensures Run(s, events).Some? ==> Consistent(Run(s, events).value)
    decreases |events|
  {
    if events != [] && Enabled(s, events[0]) {
      RunKeepsConsistent(Step(s, events[0]), events[1..]);
    }
  }

  /**
   * A hide timer left over from an earlier hide is not harmless: shown,
   * hidden, shown and hidden again, the first timer clears both classes
   * while the second hide's timer is still pending, so the second hide
   * animation is cut short.
   */
  lemma StaleHideEndsLaterAnimation()
    ensures Run(ButtonState(false, false, false, 0),
                [Scroll(400), Scroll(0), Scroll(400), Scroll(0), HideTimerFires])
         == Some(ButtonState(false, false, false, 1))
  {
  }

  /** The button on the page, and the closure variable its scroll listener keeps. */
  class Button {
    var isVisible: bool
    var visible: bool
    var hiding: bool
    var pendingHides: nat

    /** The abstract state the handlers are specified against. */
    function State(): ButtonState
      reads this
    {
      ButtonState(isVisible, visible, hiding, pendingHides)
    }

    /** At load time the flag is false and the button carries neither class. */
    constructor ()
      ensures State() == ButtonState(false, false, false, 0)
      ensures Consistent(State())
    {
      isVisible, visible, hiding, pendingHides := false, false, false, 0;
    }

    /** The window's scroll listener, with `offset` the current `pageYOffset`. */
    method OnScroll(offset: int)
      modifies this
      ensures State() == Scrolled(old(State()), offset)
    {
      var shouldShow := offset > ShowAfterOffset;
      if shouldShow && !isVisible {
        hiding := false;
        visible := true;
        isVisible := true;
      } else if !shouldShow && isVisible {
        hiding := true;
        isVisible := false;
        pendingHides := pendingHides + 1;
      }
    }

    /** A 400 ms timer scheduled by an earlier hide fires. */
    method HideTimer()
      requires pendingHides > 0
      modifies this
      ensures State() == HideTimerFired(old(State()))
    {
      if !isVisible {
        visible := false;
        hiding := false;
      }
      pendingHides := pendingHides - 1;
    }
  }
}
