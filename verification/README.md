# Profile page behaviour: disclosure state and scroll compensation

A model of the interactive core of a single-page profile site (`web/script.js`).
It covers four things:

- **Job and project lists.** Each entry expands or collapses on a click. Each list
  has an "expand all" button whose `all-expanded` class is recomputed after every
  entry click.
- **The skills region.** The "see more" control, the grid's `skills-expanded` class,
  the skills "expand all" button and the flipping skill cards.
- **Scroll compensation.** Collapsing the skills region corrects the scroll offset
  so that the page does not jump. Narrow and wide viewports use different corrections.
- **Two viewport rules.** One puts the contact panel at the bottom of wide, short
  viewports. The other shows and hides the back-to-top button.

The page is modelled as abstract state: booleans for classes and attributes, and
integer pixel offsets. It is not a DOM. Each widget has a pure state datatype.
Each click, scroll or resize event is a step function on that state, with
contracts about what the step means. Each widget also has a class whose fields
are the page's markers. Its methods are the event listeners, and they are proved
to perform exactly those step functions. The job and project lists are fixed
node lists, so their flags live in arrays that "expand all" rewrites in a loop.

Timers and animation frames are explicit steps, not clocks:

- The 50 ms recompute and sync timers and the 400 ms hide timer are counted as
  pending in the state. A "fired" step runs one of them.
- The two scroll continuations are returned by the collapse handler as a
  `Deferred` value holding what the closure captured. `Viewport.Run` takes that
  value later and runs the step it names. These are the 500 ms mobile settle and
  the desktop animation frame.

Everything the browser measures is a parameter supplied by the caller: viewport
width and height, `pageYOffset`, and element rectangles.

Behaviour followed from the code:

- **Empty groups.** An empty list is not special-cased. `Array.every` on no
  members is true, and "expand all" on an empty list with a clear class sets it.
  `Disclosure.EmptyGroupReadsExpanded` states both. A design in which an empty
  group always reads as collapsed is not what the code does.
- **What the desktop correction measures.** It uses how far the skills section's
  document top moved, not how much height the grid lost. It keeps the section at
  the same height on screen, and it applies only when the viewport was strictly
  past the section top. If the section top did not move, it writes the captured
  offset back unchanged. `ScrollCompensation.DesktopScenarios` gives the numbers:
  at offset 1200 with the section top at 400, the offset stays 1200 unless the
  top itself moved up. Equal offsets get no correction.
- **No cancellation.** Nothing cancels a scheduled step. Every pending recompute,
  sync or hide timer runs. Each reads the live state when it fires. The
  back-to-top hide checks the flag again, so a stale hide never touches a shown
  button. But a hide timer left over from an earlier hide can end a later hide's
  animation early. `BackToTop.StaleHideEndsLaterAnimation` shows this.

## Model

| member | source | states |
|---|---|---|
| `Disclosure.Every` | web/script.js:352 | The recompute's `every` is true exactly when every member is expanded, so it is true for an empty list (also line 386) |
| `Disclosure.ItemClicked` | web/script.js:134-144 | A click on the close control collapses that entry; any other click flips it. No other entry changes, the button's class is left alone, and one recompute is scheduled (projects: lines 147-157) |
| `Disclosure.Recomputed` | web/script.js:349-359 | A fired recompute sets the button to "every entry expanded" whatever it held before, leaves the entries alone, and settles the group (projects: lines 383-394) |
| `Disclosure.ExpandAllClicked` | web/script.js:333-346 | With its class set, the button collapses every entry and clears the class. With it clear, it expands every entry and sets it. A settled group stays settled (projects: lines 367-380) |
| `Disclosure.ExpandAllIgnoresMembers` | web/script.js:334-337 | Which branch "expand all" takes depends on the button's stored class and not on the entries |
| `Disclosure.ToggleTwiceRestores` | web/script.js:134-144 | Two plain clicks on one entry, with both recomputes run, return a settled group to its exact prior state, button included. This holds whether the second click comes before or after the first recompute |
| `Disclosure.CloseIsIdempotent` | web/script.js:136-139 | A second click on the same close control changes no entry |
| `Disclosure.ThreeJobsScenario` | web/script.js:333-359 | Three collapsed jobs: "expand all" expands all three and sets the button. Closing the middle one collapses only it, and the recompute then clears the button |
| `Disclosure.EmptyGroupReadsExpanded` | web/script.js:341-353 | On an empty list both "expand all" from clear and a recompute set the button |
| `Disclosure.RunKeepsSettled` | web/script.js:333-359 | Take any sequence of entry clicks, "expand all" clicks and fired recomputes that the page can deliver, from a settled group. Whenever no recompute is outstanding, a non-empty group's button equals "every entry expanded" (projects: lines 367-394) |
| `Disclosure.Group.constructor` | web/script.js:134 | The group starts with the entries and button class the markup gives it, with nothing scheduled |
| `Disclosure.Group.ItemClick` | web/script.js:134-144 | An entry's two listeners (toggle or close, then scheduling the recompute) perform `ItemClicked` on the array in place |
| `Disclosure.Group.RecomputeFired` | web/script.js:350-358 | The fired 50 ms timer performs `Recomputed` |
| `Disclosure.Group.ExpandAllClick` | web/script.js:333-346 | The `forEach` over the entries writes every array slot and then the class, performing `ExpandAllClicked` |
| `ScrollCompensation.CollapseTask` | web/script.js:250-273 | Widths up to 600 schedule the mobile settle. Wider ones capture the offset, and the section's document top as its viewport top plus the offset. The correction is armed exactly when the section's top is above the viewport |
| `ScrollCompensation.AnchorTarget` | web/script.js:279-286 | The desktop frame scrolls only if the captured offset is strictly past the captured section top. When it does, the section sits at the same distance from the viewport top as before the collapse |
| `ScrollCompensation.SettleTarget` | web/script.js:263-268 | The mobile target puts the control's top at viewport height minus control height minus 20, so its bottom edge is 20 px above the viewport bottom |
| `ScrollCompensation.DesktopCollapseKeepsSection` | web/script.js:271-286 | On a wide viewport, the frame scheduled by a collapse scrolls exactly when the section's top was above the viewport. It then puts the section's top back at its pre-collapse viewport height, whatever the live offset and rectangle are when the frame runs |
| `ScrollCompensation.DesktopScenarios` | web/script.js:280-285 | Concrete desktop corrections: restored at 1200, 900 after a 300 px top shift, nothing at 100 or at exactly the section top |
| `ScrollCompensation.Viewport.ScrollTo` | web/script.js:260 | An instant `scrollTo` sets the offset |
| `ScrollCompensation.Viewport.Run` | web/script.js:263-286 | Running a scheduled step does what that step's closure does: `SettleTarget` for the mobile settle, and `AnchorTarget` with the captured values for the desktop frame |
| `ScrollCompensation.Viewport.RunSettle` | web/script.js:263-268 | The fired 500 ms timer scrolls to `SettleTarget` of the live offset and the control's rectangle |
| `ScrollCompensation.Viewport.RunAnchor` | web/script.js:279-286 | The animation frame scrolls to `AnchorTarget` with the section's live document top, or leaves the offset alone |
| `Skills.SeeMoreClicked` | web/script.js:246-292 | "See more" flips its `aria-expanded`, and the grid's class always ends equal to it. The skills button waits for its scheduled sync |
| `Skills.SyncFired` | web/script.js:317-326 | The fired sync copies the control's attribute into the skills button's class and keeps the region consistent |
| `Skills.ExpandAllClicked` | web/script.js:300-314 | The skills "expand all" flips the see-more attribute and writes the grid class and its own class to the same value |
| `Skills.ExpandAllIgnoresOwnClass` | web/script.js:301-303 | The skills button decides by the see-more attribute; its own stale class never matters |
| `Skills.SeeMoreThenSyncAgrees` | web/script.js:243-326 | From a consistent region, a see-more click and its sync leave all three markers at the new value |
| `Skills.RunKeepsConsistent` | web/script.js:243-326 | Take any sequence of see-more clicks, skills "expand all" clicks and fired syncs, from a consistent region. The grid class always equals the see-more attribute, and the skills button equals it whenever no sync is pending |
| `Skills.FlipClicked` | web/script.js:123-130 | A grid click flips the card it landed in, if any, and no other card |
| `Skills.FlipTwiceRestores` | web/script.js:128 | Flipping a card twice restores it |
| `Skills.SkillsRegion.constructor` | web/script.js:240-242 | The region starts with its three markers alike and no sync pending |
| `Skills.SkillsRegion.SeeMoreClick` | web/script.js:243-293 | Both see-more listeners perform `SeeMoreClicked`, leave the scroll offset where it was (the mobile path writes the captured offset back) and return the collapse's `CollapseTask`, or nothing when expanding |
| `Skills.SkillsRegion.SyncTimerFired` | web/script.js:318-325 | The fired 50 ms timer performs `SyncFired` |
| `Skills.SkillsRegion.ExpandAllClick` | web/script.js:300-314 | The skills button's listener performs `ExpandAllClicked` |
| `Skills.SkillCards.constructor` | web/script.js:121-122 | The cards start unflipped |
| `Skills.SkillCards.Click` | web/script.js:123-130 | The grid's listener performs `FlipClicked` on the array in place |
| `Layout.ContactBottom` | web/script.js:39-51 | `contact-bottom` is set exactly when width > 900 and height < 700 |
| `Layout.ResizeScenario` | web/script.js:40-50 | 1920x800 is undocked and 1920x650 docked. Width 900 never docks. 901x699 docks and 901x700 does not |
| `Layout.Grid.constructor` | web/script.js:53-54 | The load-time check sets the class from the initial dimensions |
| `Layout.Grid.CheckPosition` | web/script.js:34-51 | Each resize sets the class from the current dimensions alone, whatever it was before |
| `BackToTop.Scrolled` | web/script.js:90-102 | After a scroll the flag says whether the offset is past 300. Nothing changes unless that answer changed. Hiding adds `hiding` and schedules one timer, showing sets `visible`, and consistency is kept |
| `BackToTop.HideTimerFired` | web/script.js:103-108 | A fired hide timer clears both classes only if the button is still hidden, and otherwise leaves them; consistency is kept |
| `BackToTop.ShowHideShowStaysVisible` | web/script.js:90-110 | Show, hide, show again, then the hide timer fires: the button is still visible and not hiding |
| `BackToTop.StaleHideEndsLaterAnimation` | web/script.js:98-108 | Show, hide, show, hide, then the first timer fires: both classes are already cleared while the second hide's timer is still pending |
| `BackToTop.RunKeepsConsistent` | web/script.js:88-110 | Take any sequence of scrolls and fired hide timers, from a consistent button. A shown button has `visible` and not `hiding`, and a hidden one with no timer outstanding has neither class |
| `BackToTop.Button.constructor` | web/script.js:88 | The flag starts false; the classes start as the markup gives them, with neither set |
| `BackToTop.Button.OnScroll` | web/script.js:90-102 | The scroll listener performs `Scrolled` |
| `BackToTop.Button.HideTimer` | web/script.js:104-108 | The fired 400 ms timer performs `HideTimerFired` |

## Left out

- The mobile drawer (lines 10-32 and 56-66) is not modelled. It is show/hide plumbing with no decision beyond the width test.
- Smooth scrolling is not modelled: in-page links, `scrollIntoView`, and the back-to-top button's smooth `scrollTo` (lines 69-84, 112-117). These are browser animations.
- The contact buttons' highlight flashes and their scrolling (lines 160-220) are not modelled. They are 2 s class flashes plus browser scrolling.
- The stat tooltips (lines 223-237) are not modelled. They are static text lookups.
- Listeners are guarded by whether their elements exist. The model assumes every element exists, so every listener is registered.
- The browser clamps scroll offsets to the scrollable range. The model does not, so `scrollTo` targets are exact formulas.
- Rectangles and offsets are fractional in the browser and whole pixels here.
- Reflow and the timers' delays are not modelled. Post-reflow positions are inputs, and a timer fires when its step is called.
- Skills.SkillsRegion.constructor: assumes the markup starts with the three skills markers agreeing.
- Skills.SkillCards.constructor: assumes the markup starts with no card flipped.
- Disclosure.Group.constructor: takes the initial entries and button class from the markup as parameters; the model does not say what they are.
- BackToTop.Button.constructor: assumes the markup starts with neither `visible` nor `hiding`; the code sets only the flag.
- The order between different pending steps is left to the caller, as the browser's event loop decides it.
