/**
 * Where the contact panel sits: on wide but short viewports the page grid
 * gets the `contact-bottom` class and the panel moves below the content.
 */
module Layout {

  /** Widths strictly above this are the desktop layout. */
  const DesktopMinWidth := 900

  /** Desktop viewports strictly shorter than this put the panel at the bottom. */
  const ShortViewportHeight := 700

  /** The layout decision for a `width` x `height` viewport. */
  function ContactBottom(width: int, height: int): (r: bool)
    ensures r <==> width > DesktopMinWidth && height < ShortViewportHeight
  {
    if width > DesktopMinWidth then height < ShortViewportHeight else false
  }

  /**
   * Resizing a 1920-wide window from 800 to 650 high docks the panel at the
   * bottom, and resizing it back undocks it; a narrow window never docks.
   */
  lemma ResizeScenario()
    ensures !ContactBottom(1920, 800) && ContactBottom(1920, 650)
    ensures !ContactBottom(900, 650) && ContactBottom(901, 699) && !ContactBottom(901, 700)
  {
  }

  /** The page grid's `contact-bottom` class. */
  class Grid {
    var contactBottom: bool

    /** The check made once at load time. */
    constructor (width: int, height: int)
      ensures contactBottom == ContactBottom(width, height)
    {
      contactBottom := false;
      new;
      CheckPosition(width, height);
    }

    /**
     * The check made on every resize. The new class depends only on the
     * current dimensions, never on the class as it was.
     */
    method CheckPosition(width: int, height: int)
      modifies this
      ensures contactBottom == ContactBottom(width, height)
    {
      if width > DesktopMinWidth {
        if height < ShortViewportHeight {
          contactBottom := true;
        } else {
          contactBottom := false;
        }
      } else {
        contactBottom := false;
      }
    }
  }
}
