/**
 * Keeping the page still when the skills region collapses. The collapse
 * handler captures what it needs and schedules one deferred scroll write:
 * on a narrow viewport (500 ms later) it brings the "see more" control to
 * the bottom of the viewport; on a wide one (next animation frame) it puts
 * the skills section back where it was on screen. Offsets are whole pixels;
 * the values the browser measures are parameters.
 */
module ScrollCompensation {
  import opened Wrappers

  /** Widths up to and including this take the mobile path. */
  const MobileMaxWidth := 600

  /** Gap left between the control's bottom edge and the viewport's bottom edge. */
  const SettleMargin := 20

  /**
   * The deferred step a collapse schedules, with the values its closure
   * captured: the mobile settle reads everything live, the desktop anchor
   * keeps the scroll offset and the section's document top from before
   * the collapse.
   */
  datatype Deferred = SettleControl | RestoreAnchor(scrollTop: int, skillsTop: int)

  /**
   * The step scheduled by a collapse at viewport width `width`, scroll
   * offset `scrollY`, with the skills section's top `sectionRectTop` pixels
   * below the viewport top. The desktop correction is armed exactly when
   * the section's top is above the viewport.
   */
  function CollapseTask(width: int, scrollY: int, sectionRectTop: int): (r: Deferred)
    ensures r.SettleControl? <==> width <= MobileMaxWidth
    ensures r.RestoreAnchor? ==> r.scrollTop == scrollY
    ensures r.RestoreAnchor? ==> r.skillsTop == sectionRectTop + scrollY
    ensures r.RestoreAnchor? ==> (r.scrollTop > r.skillsTop <==> sectionRectTop < 0)
  {
    if width <= MobileMaxWidth then SettleControl
    else RestoreAnchor(scrollY, sectionRectTop + scrollY)
  }

  /**
   * The desktop correction: given the captured scroll offset and section
   * top and the section's document top after reflow, the offset to scroll
   * to, or None when the viewport was not strictly past the section top.
   * When it scrolls, the section sits at the same height on screen as it
   * did before the collapse.
   */
  function AnchorTarget(scrollTop: int, skillsTop: int, newSkillsTop: int): (r: Option<int>)
    ensures r.Some? <==> scrollTop > skillsTop
    ensures r.Some? ==> newSkillsTop - r.value == skillsTop - scrollTop
  {
    var heightDiff := skillsTop - newSkillsTop;
    if scrollTop > skillsTop then Some(scrollTop - heightDiff) else None
  }

  /**
   * The mobile settle: from the current offset and the control's live
   * viewport top and height, the offset that puts the control's bottom edge
   * `SettleMargin` pixels above the viewport's bottom edge.
   */
  function SettleTarget(scrollY: int, controlTop: int, controlHeight: int, viewportHeight: int): (r: int)
    ensures (scrollY + controlTop) - r == viewportHeight - controlHeight - SettleMargin
  {
    scrollY + controlTop - viewportHeight + controlHeight + SettleMargin
  }

  /**
   * The desktop path from end to end: a collapse on a wide viewport
   * schedules a frame that scrolls exactly when the section's top was above
   * the viewport, and then puts the section's top back at the viewport
   * height it had before the collapse, whatever the live offset `liveY` and
   * the section's live viewport top `newRectTop` are when the frame runs.
   */
  lemma DesktopCollapseKeepsSection(width: int, scrollY: int, sectionRectTop: int, newRectTop: int, liveY: int)
    requires width > MobileMaxWidth
    ensures var t := CollapseTask(width, scrollY, sectionRectTop);
            t.RestoreAnchor?
            && (AnchorTarget(t.scrollTop, t.skillsTop, newRectTop + liveY).Some? <==> sectionRectTop < 0)
            && (sectionRectTop < 0 ==>
                  (newRectTop + liveY) - AnchorTarget(t.scrollTop, t.skillsTop, newRectTop + liveY).value
                  == sectionRectTop)
  {
  }

  /**
   * The desktop numbers as the code computes them, with the section's
   * document top at 400: scrolled to 1200 with the top unmoved, the offset
   * is restored to 1200; with the top moved up by 300 it becomes 900;
   * scrolled only to 100, or exactly to the top, nothing is written.
   */
  lemma DesktopScenarios()
    ensures AnchorTarget(1200, 400, 400) == Some(1200)
    ensures AnchorTarget(1200, 400, 100) == Some(900)
    ensures AnchorTarget(100, 400, 100) == None
    ensures AnchorTarget(400, 400, 100) == None
  {
  }

  /** The window's vertical scroll offset, the one scroll state the handlers write. */
  class Viewport {
    var scrollY: int

    constructor (y: int)
      ensures scrollY == y
    {
      scrollY := y;
    }

    /** `window.scrollTo` with `behavior: 'auto'`. */
    method ScrollTo(y: int)
      modifies this
      ensures scrollY == y
    {
      scrollY := y;
    }

    /**
     * Runs a step scheduled by a collapse, with what the browser measures
     * when it runs: the control's viewport top and height and the viewport
     * height for the mobile settle, the section's viewport top for the
     * desktop frame.
     */
    method Run(task: Deferred, controlTop: int, controlHeight: int, viewportHeight: int, sectionRectTop: int)
      modifies this
      ensures task.SettleControl? ==> scrollY == SettleTarget(old(scrollY), controlTop, controlHeight, viewportHeight)
      ensures task.RestoreAnchor? ==>
                match AnchorTarget(task.scrollTop, task.skillsTop, sectionRectTop + old(scrollY))
                case Some(y) => scrollY == y
                case None => scrollY == old(scrollY)
    {
      match task
      case SettleControl => RunSettle(controlTop, controlHeight, viewportHeight);
      case RestoreAnchor(scrollTop, skillsTop) => RunAnchor(scrollTop, skillsTop, sectionRectTop);
    }

    /** The mobile collapse's 500 ms timer fires. */
    method RunSettle(controlTop: int, controlHeight: int, viewportHeight: int)
      modifies this
      ensures scrollY == SettleTarget(old(scrollY), controlTop, controlHeight, viewportHeight)
    {
      var target := scrollY + controlTop - viewportHeight + controlHeight + SettleMargin;
      ScrollTo(target);
    }

    /** The desktop collapse's animation frame runs; `sectionRectTop` is the section's live viewport top. */
    method RunAnchor(scrollTop: int, skillsTop: int, sectionRectTop: int)
      modifies this
      ensures match AnchorTarget(scrollTop, skillsTop, sectionRectTop + old(scrollY))
              case Some(y) => scrollY == y
              case None => scrollY == old(scrollY)
    {
      var heightDiff := skillsTop - (sectionRectTop + scrollY);
      if scrollTop > skillsTop {
        ScrollTo(scrollTop - heightDiff);
      }
    }
  }
}
