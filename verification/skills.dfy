/**
 * The skills region: the "see more" control (its `aria-expanded`), the
 * grid's `skills-expanded` class, the skills "expand all" button's
 * `all-expanded` class, and the skill cards that flip on a click.
 */
module Skills {
  import opened Wrappers
  import opened ScrollCompensation

  /**
   * The region's markers, and how many 50 ms syncs of the "expand all"
   * button have been scheduled by "see more" clicks and not run yet.
   */
  datatype SkillsState = SkillsState(seeMoreExpanded: bool, gridExpanded: bool, allExpanded: bool, pendingSyncs: nat)

  /**
   * The grid's class always agrees with the control's attribute, and once
   * no sync is pending the "expand all" button agrees with both.
   */
  predicate Consistent(s: SkillsState)
  {
    s.gridExpanded == s.seeMoreExpanded && (s.pendingSyncs == 0 ==> s.allExpanded == s.seeMoreExpanded)
  }

  /**
   * A "see more" click: the attribute and the grid's class flip together
   * (both read from the attribute), the button waits for its sync, which is
   * scheduled.
   */
  function SeeMoreClicked(s: SkillsState): (r: SkillsState)
    ensures r.seeMoreExpanded == !s.seeMoreExpanded
    ensures r.gridExpanded == r.seeMoreExpanded
    ensures r.allExpanded == s.allExpanded
    ensures r.pendingSyncs == s.pendingSyncs + 1
    ensures Consistent(r)
  {
    if s.seeMoreExpanded then
      SkillsState(false, false, s.allExpanded, s.pendingSyncs + 1)
    else
      SkillsState(true, true, s.allExpanded, s.pendingSyncs + 1)
  }

  /** A scheduled sync runs: the button copies the control's attribute as it is now. */
  function SyncFired(s: SkillsState): (r: SkillsState)
    requires s.pendingSyncs > 0
    ensures r.allExpanded == s.seeMoreExpanded
    ensures r.seeMoreExpanded == s.seeMoreExpanded && r.gridExpanded == s.gridExpanded
    ensures r.pendingSyncs == s.pendingSyncs - 1
    ensures Consistent(s) ==> Consistent(r)
  {
    s.(allExpanded := s.seeMoreExpanded, pendingSyncs := s.pendingSyncs - 1)
  }

  /**
   * A click on the skills "expand all" button. Unlike the job and project
   * buttons it decides by reading the "see more" attribute, not its own
   * class; it writes all three markers to the opposite value at once.
   */
  function ExpandAllClicked(s: SkillsState): (r: SkillsState)
    ensures r.seeMoreExpanded == !s.seeMoreExpanded
    ensures r.gridExpanded == r.seeMoreExpanded && r.allExpanded == r.seeMoreExpanded
    ensures r.pendingSyncs == s.pendingSyncs
    ensures Consistent(r)
  {
    if s.seeMoreExpanded then
      SkillsState(false, false, false, s.pendingSyncs)
    else
      SkillsState(true, true, true, s.pendingSyncs)
  }

  /** The skills button's own class never decides what its click does. */
  lemma ExpandAllIgnoresOwnClass(s: SkillsState, stale: bool)
    ensures ExpandAllClicked(s.(allExpanded := stale)) == ExpandAllClicked(s)
  {
  }

  /**
   * From a consistent region, a "see more" click followed by its sync
   * leaves all three markers equal to the new attribute.
   */
  lemma SeeMoreThenSyncAgrees(s: SkillsState)
    requires Consistent(s) && s.pendingSyncs == 0
    ensures var r := SyncFired(SeeMoreClicked(s));
            r.pendingSyncs == 0 && Consistent(r) && r.allExpanded == !s.seeMoreExpanded
  {
  }

  /** An event the skills region can receive. */
  datatype SkillsEvent = SeeMore | Sync | ExpandAll

  /** Whether the page can deliver `e`: a sync fires only if one was scheduled. */
  predicate Enabled(s: SkillsState, e: SkillsEvent)
  {
    e.Sync? ==> s.pendingSyncs > 0
  }

  /** The markers after one event. */
  function Step(s: SkillsState, e: SkillsEvent): SkillsState
    requires Enabled(s, e)
  {
    match e
    case SeeMore => SeeMoreClicked(s)
    case Sync => SyncFired(s)
    case ExpandAll => ExpandAllClicked(s)
  }

  /** The markers after a sequence of events, or None if the page could not deliver it. */
  function Run(s: SkillsState, events: seq<SkillsEvent>): Option<SkillsState>
    decreases |events|
  {
    if events == [] then Some(s)
    else if Enabled(s, events[0]) then Run(Step(s, events[0]), events[1..])
    else None
  }

  /**
   * In any interleaving of see-more clicks, skills "expand all" clicks and
   * scheduled syncs, a consistent region stays consistent: the grid always
   * matches the control, and the button does whenever no sync is pending.
   */
  lemma {:induction false} RunKeepsConsistent(s: SkillsState, events: seq<SkillsEvent>)
    requires Consistent(s)
    ensures Run(s, events).Some? ==> Consistent(Run(s, events).value)
    decreases |events|
  {
    if events != [] && Enabled(s, events[0]) {
      RunKeepsConsistent(Step(s, events[0]), events[1..]);
    }
  }

  /** A click on the skills grid: the hit card, if any, flips; nothing else changes. */
  function FlipClicked(cards: seq<bool>, hit: Option<nat>): (r: seq<bool>)
    requires hit.Some? ==> hit.value < |cards|
    ensures |r| == |cards|
    ensures hit.None? ==> r == cards
    ensures hit.Some? ==> r[hit.value] != cards[hit.value]
    ensures forall j | 0 <= j < |cards| && (hit.None? || j != hit.value) :: r[j] == cards[j]
  {
    match hit
    case None => cards
    case Some(i) => cards[i := !cards[i]]
  }

  /** Flipping the same card twice shows its original face. */
  lemma FlipTwiceRestores(cards: seq<bool>, i: nat)
    requires i < |cards|
    ensures FlipClicked(FlipClicked(cards, Some(i)), Some(i)) == cards
  {
  }

  /** The skills region on the page. */
  class SkillsRegion {
    var seeMoreExpanded: bool
    var gridExpanded: bool
    var allExpanded: bool
    var pendingSyncs: nat

    /** The abstract state the handlers are specified against. */
    function State(): SkillsState
      reads this
    {
      SkillsState(seeMoreExpanded, gridExpanded, allExpanded, pendingSyncs)
    }

    /** The region as the markup defines it: all three markers alike. */
    constructor (expanded: bool)
      ensures State() == SkillsState(expanded, expanded, expanded, 0)
      ensures Consistent(State())
    {
      seeMoreExpanded, gridExpanded, allExpanded := expanded, expanded, expanded;
      pendingSyncs := 0;
    }

    /**
     * Both click listeners of "see more" at viewport width `width`, with the
     * skills section's top `sectionRectTop` pixels below the viewport top.
     * Expanding schedules no scroll step; collapsing returns the step its
     * timer or animation frame will run. On the mobile path the captured
     * offset is written back at once, so the offset is unchanged either way.
     */
    method SeeMoreClick(view: Viewport, width: int, sectionRectTop: int) returns (task: Option<Deferred>)
      modifies this, view
      ensures State() == SeeMoreClicked(old(State()))
      ensures view.scrollY == old(view.scrollY)
      ensures !old(seeMoreExpanded) ==> task == None
      ensures old(seeMoreExpanded) ==> task == Some(CollapseTask(width, old(view.scrollY), sectionRectTop))
    {
      if seeMoreExpanded {
        if width <= MobileMaxWidth {
          var currentScroll := view.scrollY;
          seeMoreExpanded := false;
          gridExpanded := false;
          view.ScrollTo(currentScroll);
          task := Some(SettleControl);
        } else {
          var scrollTop := view.scrollY;
          var skillsTop := sectionRectTop + scrollTop;
          seeMoreExpanded := false;
          gridExpanded := false;
          task := Some(RestoreAnchor(scrollTop, skillsTop));
        }
      } else {
        seeMoreExpanded := true;
        gridExpanded := true;
        task := None;
      }
      pendingSyncs := pendingSyncs + 1;
    }

    /** The 50 ms timer of an earlier "see more" click fires. */
    method SyncTimerFired()
      requires pendingSyncs > 0
      modifies this
      ensures State() == SyncFired(old(State()))
    {
      allExpanded := seeMoreExpanded;
      pendingSyncs := pendingSyncs - 1;
    }

    /** The skills "expand all" button's click listener. */
    method ExpandAllClick()
      modifies this
      ensures State() == ExpandAllClicked(old(State()))
    {
      var expanded := seeMoreExpanded;
      if expanded {
        seeMoreExpanded := false;
        gridExpanded := false;
        allExpanded := false;
      } else {
        seeMoreExpanded := true;
        gridExpanded := true;
        allExpanded := true;
      }
    }
  }

  /** The skill cards' `flipped` classes, a fixed node list updated in place. */
  class SkillCards {
    const flipped: array<bool>

    constructor (n: nat)
      ensures fresh(flipped) && flipped.Length == n
      ensures forall j | 0 <= j < n :: !flipped[j]
    {
      flipped := new bool[n](_ => false);
    }

    /** The grid's click listener; `hit` is the card the click landed in, if any. */
    method Click(hit: Option<nat>)
      requires hit.Some? ==> hit.value < flipped.Length
      modifies flipped
      ensures flipped[..] == FlipClicked(old(flipped[..]), hit)
    {
      if hit.Some? {
        flipped[hit.value] := !flipped[hit.value];
      }
    }
  }
}
