/**
 * The job list and the project list: each entry is a disclosure item with an
 * `expanded` class, and each list has an "expand all" button whose
 * `all-expanded` class summarises the entries. Both lists run the same code,
 * so one group type models either.
 */
module Disclosure {
  import opened Wrappers

  /** `Array.prototype.every` over the members' flags: true on an empty list. */
  function Every(s: seq<bool>): (r: bool)
    ensures r <==> forall j | 0 <= j < |s| :: s[j]
  {
    if s == [] then true else s[0] && Every(s[1..])
  }

  /** A sequence of `n` copies of `v`: what a `forEach` that writes `v` leaves behind. */
  function Filled(n: nat, v: bool): (r: seq<bool>)
    ensures |r| == n && forall j | 0 <= j < n :: r[j] == v
  {
    seq(n, _ => v)
  }

  /**
   * One group on the page: the members' `expanded` classes in document
   * order, the button's `all-expanded` class, and how many deferred
   * recomputes have been scheduled by item clicks but have not run yet.
   */
  datatype GroupState = GroupState(items: seq<bool>, allExpanded: bool, pending: nat)

  /**
   * Once every scheduled recompute has run, a non-empty group's button
   * agrees with its members.
   */
  predicate Settled(g: GroupState)
  {
    g.pending == 0 && |g.items| > 0 ==> g.allExpanded == Every(g.items)
  }

  /**
   * A click on member `i`: a click on its close control collapses it, any
   * other click toggles it. No other member changes; the button is left as
   * it was and a recompute is scheduled.
   */
  function ItemClicked(g: GroupState, i: nat, onClose: bool): (r: GroupState)
    requires i < |g.items|
    ensures |r.items| == |g.items|
    ensures onClose ==> !r.items[i]
    ensures !onClose ==> r.items[i] != g.items[i]
    ensures forall j | 0 <= j < |g.items| && j != i :: r.items[j] == g.items[j]
    ensures r.allExpanded == g.allExpanded
    ensures r.pending == g.pending + 1
  {
    var expanded := if onClose then false else !g.items[i];
    GroupState(g.items[i := expanded], g.allExpanded, g.pending + 1)
  }

  /**
   * A deferred recompute runs: the button becomes "every member expanded",
   * whatever it held before; the members do not change.
   */
  function Recomputed(g: GroupState): (r: GroupState)
    requires g.pending > 0
    ensures r.items == g.items
    ensures r.allExpanded <==> forall j | 0 <= j < |g.items| :: g.items[j]
    ensures r.pending == g.pending - 1
    ensures Settled(r)
  {
    GroupState(g.items, Every(g.items), g.pending - 1)
  }

  /**
   * A click on the "expand all" button. Which way it goes is read from the
   * button's own stored class: a set class collapses every member and clears
   * it, a clear class expands every member and sets it.
   */
  function ExpandAllClicked(g: GroupState): (r: GroupState)
    ensures |r.items| == |g.items|
    ensures g.allExpanded ==> !r.allExpanded && forall j | 0 <= j < |r.items| :: !r.items[j]
    ensures !g.allExpanded ==> r.allExpanded && forall j | 0 <= j < |r.items| :: r.items[j]
    ensures r.pending == g.pending
    ensures Settled(g) ==> Settled(r)
  {
    if g.allExpanded then
      GroupState(Filled(|g.items|, false), false, g.pending)
    else
      GroupState(Filled(|g.items|, true), true, g.pending)
  }

  /** The members' states before an "expand all" click do not choose its branch. */
  lemma ExpandAllIgnoresMembers(g: GroupState, h: GroupState)
    requires |g.items| == |h.items| && g.allExpanded == h.allExpanded && g.pending == h.pending
    ensures ExpandAllClicked(g) == ExpandAllClicked(h)
  {
  }

  /**
   * Toggling one member twice, with both recomputes run, returns a settled
   * group to exactly where it was: the member and the button alike. This
   * holds whether the second click comes before the first recompute or
   * after it.
   */
  lemma ToggleTwiceRestores(g: GroupState, i: nat)
    requires i < |g.items| && g.pending == 0 && Settled(g)
    ensures Recomputed(Recomputed(ItemClicked(ItemClicked(g, i, false), i, false))) == g
    ensures Recomputed(ItemClicked(Recomputed(ItemClicked(g, i, false)), i, false)) == g
  {
  }

  /** A second click on the same close control changes no member. */
  lemma CloseIsIdempotent(g: GroupState, i: nat)
    requires i < |g.items|
    ensures ItemClicked(ItemClicked(g, i, true), i, true).items == ItemClicked(g, i, true).items
  {
  }

  /**
   * Three collapsed jobs: "expand all" expands all three and sets the
   * button; closing the middle one collapses only it, and once the
   * recompute runs the button is clear again.
   */
  lemma ThreeJobsScenario()
    ensures ExpandAllClicked(GroupState([false, false, false], false, 0))
         == GroupState([true, true, true], true, 0)
    ensures Recomputed(ItemClicked(GroupState([true, true, true], true, 0), 1, true))
         == GroupState([true, false, true], false, 0)
  {
  }

  /**
   * An empty group is not special-cased: "expand all" on it sets the button,
   * and a recompute over no members also sets it.
   */
  lemma EmptyGroupReadsExpanded(p: nat)
    ensures ExpandAllClicked(GroupState([], false, p)).allExpanded
    ensures Recomputed(GroupState([], false, p + 1)).allExpanded
  {
  }

  /** An event a group can receive. */
  datatype GroupEvent = Entry(i: nat, onClose: bool) | Recompute | ExpandAll

  /**
   * Whether the page can deliver `e` to `g`: a click lands on an existing
   * entry, and a recompute fires only if one was scheduled.
   */
  predicate Enabled(g: GroupState, e: GroupEvent)
  {
    match e
    case Entry(i, _) => i < |g.items|
    case Recompute => g.pending > 0
    case ExpandAll => true
  }

  /** The state after one event. */
  function Step(g: GroupState, e: GroupEvent): GroupState
    requires Enabled(g, e)
  {
    match e
    case Entry(i, onClose) => ItemClicked(g, i, onClose)
    case Recompute => Recomputed(g)
    case ExpandAll => ExpandAllClicked(g)
  }

  /** The state after a sequence of events, or None if the page could not deliver it. */
  function Run(g: GroupState, events: seq<GroupEvent>): Option<GroupState>
    decreases |events|
  {
    if events == [] then Some(g)
    else if Enabled(g, events[0]) then Run(Step(g, events[0]), events[1..])
    else None
  }

  /**
   * Recompute, never patch: whatever clicks on entries and on "expand all"
   * arrive, in any interleaving with the deferred recomputes, a group that
   * starts settled is settled again whenever no recompute is outstanding.
   */
  lemma {:induction false} RunKeepsSettled(g: GroupState, events: seq<GroupEvent>)
    requires Settled(g)
    ensures Run(g, events).Some? ==> Settled(Run(g, events).value)
    decreases |events|
  {
    if events != [] && Enabled(g, events[0]) {
      RunKeepsSettled(Step(g, events[0]), events[1..]);
    }
  }

  /**
   * A group on the page. The members are a fixed node list, so their
   * `expanded` classes live in an array that the handlers update in place.
   */
  class Group {
    const items: array<bool>
    var allExpanded: bool
    var pending: nat

    /** The abstract state the handlers are specified against. */
    function State(): GroupState
      reads this, items
    {
      GroupState(items[..], allExpanded, pending)
    }

    /** The group as the markup defines it at load time; nothing scheduled. */
    constructor (initial: seq<bool>, initiallyAllExpanded: bool)
      ensures fresh(items)
      ensures State() == GroupState(initial, initiallyAllExpanded, 0)
    {
      items := new bool[|initial|](j requires 0 <= j < |initial| => initial[j]);
      allExpanded := initiallyAllExpanded;
      pending := 0;
    }

    /** Both click listeners of member `i`: the toggle or close, then scheduling the recompute. */
    method ItemClick(i: nat, onClose: bool)
      requires i < items.Length
      modifies this, items
      ensures State() == ItemClicked(old(State()), i, onClose)
    {
      if onClose {
        items[i] := false;
      } else {
        items[i] := !items[i];
      }
      pending := pending + 1;
    }

    /** The 50 ms timer of an earlier item click fires. */
    method RecomputeFired()
      requires pending > 0
      modifies this
      ensures State() == Recomputed(old(State()))
    {
      allExpanded := Every(items[..]);
      pending := pending - 1;
    }

    /** The "expand all" button's click listener, writing every member in a `forEach`. */
    method ExpandAllClick()
      modifies this, items
      ensures State() == ExpandAllClicked(old(State()))
    {
      var expand := !allExpanded;
      var i := 0;
      while i < items.Length
        invariant 0 <= i <= items.Length
        invariant forall j | 0 <= j < i :: items[j] == expand
        invariant allExpanded == old(allExpanded) && pending == old(pending)
      {
        items[i] := expand;
        i := i + 1;
      }
      assert items[..] == Filled(|old(items[..])|, expand);
      allExpanded := expand;
    }
  }
}
