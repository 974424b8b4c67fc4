/** The menu a tray icon shows: replaced while it may be on screen, and kept alive
    until tracking ends even when the plugin is disposed meanwhile. */
module TrayMenu {
  import opened MenuOwnership

  datatype Menus = Menus(current: Handle, pending: Handle, tracking: bool, pendingUpdate: bool, disposed: bool)

  const START: Menus := Menus(0, 0, false, false, false)

  /** The new state and the handles destroyed on the way. */
  function Swap(m: Menus, menu: Handle): (Menus, seq<Handle>) {
    if m.tracking then (m.(pending := menu, pendingUpdate := true), Given(m.pending))
    else (m.(current := menu), Given(m.current))
  }

  datatype Step = Replace(menu: Handle) | Clear | Dispose | BeginTracking | EndTracking

  function Apply(m: Menus, step: Step): (Menus, seq<Handle>) {
    match step
    case Replace(menu) => if m.disposed then (m, Given(menu)) else Swap(m, menu)
    case Clear => Swap(m, 0)
    case Dispose => Swap(m.(disposed := true), 0)
    case BeginTracking => (if m.tracking || m.current == 0 then m else m.(tracking := true), [])
    case EndTracking =>
      if m.pendingUpdate then (m.(tracking := false, current := m.pending, pending := 0, pendingUpdate := false), Given(m.current))
      else (m.(tracking := false), [])
  }

  /** What the destructor still destroys, members in reverse order. */
  function AtEnd(m: Menus): seq<Handle> {
    Given(m.pending) + Given(m.current)
  }

  function HandedIn(steps: seq<Step>): seq<Handle> {
    if steps == [] then []
    else (if steps[0].Replace? then Given(steps[0].menu) else []) + HandedIn(steps[1..])
  }

  function After(m: Menus, steps: seq<Step>): Menus
    decreases |steps|
  {
    if steps == [] then m else After(Apply(m, steps[0]).0, steps[1..])
  }

  function Destroyed(m: Menus, steps: seq<Step>): seq<Handle>
    decreases |steps|
  {
    if steps == [] then [] else Apply(m, steps[0]).1 + Destroyed(Apply(m, steps[0]).0, steps[1..])
  }

  function Owned(m: Menus): multiset<Handle> {
    multiset(Given(m.current)) + multiset(Given(m.pending))
  }

  /** Only an update during tracking is pending, and only a live menu is tracked. */
  predicate Ok(m: Menus) {
    && (m.pendingUpdate ==> m.tracking) && (m.pending != 0 ==> m.pendingUpdate)
    && (m.tracking ==> m.current != 0)
  }

  lemma SwapConserves(m: Menus, menu: Handle)
    ensures multiset(Swap(m, menu).1) + Owned(Swap(m, menu).0) == Owned(m) + multiset(Given(menu))
  {
  }

  lemma StepConserves(m: Menus, step: Step)
    requires Ok(m)
    ensures Ok(Apply(m, step).0)
    ensures multiset(Apply(m, step).1) + Owned(Apply(m, step).0) == Owned(m) + multiset(if step.Replace? then Given(step.menu) else [])
  {
    match step
    case Replace(menu) => if !m.disposed { SwapConserves(m, menu); }
    case Clear => SwapConserves(m, 0);
    case Dispose => SwapConserves(m.(disposed := true), 0);
    case _ =>
  }

  lemma RunsJoin(m: Menus, steps: seq<Step>)
    requires steps != []
    ensures multiset(Destroyed(m, steps)) ==
            multiset(Apply(m, steps[0]).1) + multiset(Destroyed(Apply(m, steps[0]).0, steps[1..]))
    ensures multiset(HandedIn(steps)) ==
            multiset(if steps[0].Replace? then Given(steps[0].menu) else []) + multiset(HandedIn(steps[1..]))
  {
  }

  lemma Balance(d: multiset<Handle>, ds: multiset<Handle>, owned: multiset<Handle>, next: multiset<Handle>, last: multiset<Handle>,
                g: multiset<Handle>, gs: multiset<Handle>)
    requires d + next == owned + g && ds + last == next + gs
    ensures (d + ds) + last == owned + (g + gs)
  {
    assert (d + ds) + last == d + (ds + last) == (d + next) + gs == owned + (g + gs);
  }

  /** Over any run every menu handed in is either destroyed exactly once or still
      owned: nothing is destroyed twice and nothing leaks. */
  lemma {:induction false} EveryMenuHasOneEnd(m: Menus, steps: seq<Step>)
    requires Ok(m)
    ensures Ok(After(m, steps))
    ensures multiset(Destroyed(m, steps)) + Owned(After(m, steps)) == Owned(m) + multiset(HandedIn(steps))
    decreases |steps|
  {
    if steps != [] {
      StepConserves(m, steps[0]);
      var next := Apply(m, steps[0]).0;
      EveryMenuHasOneEnd(next, steps[1..]);
      RunsJoin(m, steps);
      Balance(multiset(Apply(m, steps[0]).1), multiset(Destroyed(next, steps[1..])), Owned(m), Owned(next), Owned(After(m, steps)),
              multiset(if steps[0].Replace? then Given(steps[0].menu) else []), multiset(HandedIn(steps[1..])));
    }
  }

  /** From construction to destruction every menu handed in is destroyed exactly once. */
  lemma NothingOutlives(steps: seq<Step>)
    ensures multiset(Destroyed(START, steps) + AtEnd(After(START, steps))) == multiset(HandedIn(steps))
  {
    EveryMenuHasOneEnd(START, steps);
    assert multiset(AtEnd(After(START, steps))) == Owned(After(START, steps));
  }

  lemma TrackedStep(m: Menus, step: Step)
    requires Ok(m) && m.tracking && step != EndTracking
    ensures Apply(m, step).0.tracking && Apply(m, step).0.current == m.current
    ensures multiset(Apply(m, step).1) + multiset(Given(Apply(m, step).0.pending)) ==
            multiset(Given(m.pending)) + multiset(if step.Replace? then Given(step.menu) else [])
  {
  }

  /** From BeginTracking to EndTracking the tracked menu stays current and is not
      destroyed, whatever is replaced, cleared or disposed in between. */
  lemma {:induction false} TrackedMenuStays(m: Menus, steps: seq<Step>)
    requires Ok(m) && m.tracking
    requires EndTracking !in steps
    ensures After(m, steps).tracking && After(m, steps).current == m.current
    ensures multiset(Destroyed(m, steps)) + multiset(Given(After(m, steps).pending)) ==
            multiset(Given(m.pending)) + multiset(HandedIn(steps))
    decreases |steps|
  {
    if steps != [] {
      TrackedStep(m, steps[0]);
      StepConserves(m, steps[0]);
      var next := Apply(m, steps[0]).0;
      TrackedMenuStays(next, steps[1..]);
      RunsJoin(m, steps);
      Balance(multiset(Apply(m, steps[0]).1), multiset(Destroyed(next, steps[1..])), multiset(Given(m.pending)), multiset(Given(next.pending)),
              multiset(Given(After(m, steps).pending)), multiset(if steps[0].Replace? then Given(steps[0].menu) else []),
              multiset(HandedIn(steps[1..])));
    }
  }

  /** Nothing is shown, or the last tracked menu until its tracking ends. */
  predicate Ending(m: Menus) {
    m.disposed && (m.current == 0 || (m.tracking && m.pendingUpdate && m.pending == 0))
  }

  lemma EndingStep(m: Menus, step: Step)
    requires Ok(m) && Ending(m)
    ensures Ending(Apply(m, step).0)
    ensures Apply(m, step).0.current == (if step == EndTracking then 0 else m.current)
  {
  }

  lemma {:induction false} EndingStays(m: Menus, steps: seq<Step>)
    requires Ok(m) && Ending(m)
    ensures Ending(After(m, steps))
    ensures After(m, steps).current == (if EndTracking in steps then 0 else m.current)
    decreases |steps|
  {
    if steps != [] {
      StepConserves(m, steps[0]);
      EndingStep(m, steps[0]);
      EndingStays(Apply(m, steps[0]).0, steps[1..]);
      assert steps == [steps[0]] + steps[1..];
    }
  }

  lemma DisposeEnds(m: Menus)
    requires Ok(m)
    ensures Ok(Apply(m, Dispose).0) && Ending(Apply(m, Dispose).0)
    ensures Apply(m, Dispose).0.current == if m.tracking then m.current else 0
  {
  }

  /** After Dispose nothing is shown but a menu that was being tracked, and that only
      until its tracking ends; whatever is handed in later is never shown. */
  lemma DisposedShowsNothing(m: Menus, steps: seq<Step>)
    requires Ok(m)
    ensures After(Apply(m, Dispose).0, steps).current == (if m.tracking && EndTracking !in steps then m.current else 0)
  {
    DisposeEnds(m);
    EndingStays(Apply(m, Dispose).0, steps);
  }

  // ----- As the plugin keeps it ----------------------------------------------

  class MenuLifetime {
    const current: OwnedMenu
    const pending: OwnedMenu
    var tracking: bool
    var pendingUpdate: bool
    var disposed: bool

    function State(): Menus
      reads this, current, pending
    {
      Menus(current.handle, pending.handle, tracking, pendingUpdate, disposed)
    }

    /** What it owns is live on the platform, and not the same menu twice. */
    ghost predicate Valid(platform: Platform)
      reads this, current, pending, platform
    {
      && platform.Valid() && current != pending && Ok(State())
      && (current.handle != 0 ==> current.handle in platform.roots)
      && (pending.handle != 0 ==> pending.handle in platform.roots)
      && (current.handle != 0 ==> current.handle != pending.handle)
    }

    constructor (platform: Platform)
      requires platform.Valid()
      ensures Valid(platform) && fresh(current) && fresh(pending) && State() == START
    {
      current := new OwnedMenu(0);
      pending := new OwnedMenu(0);
      tracking, pendingUpdate, disposed := false, false, false;
    }

    method SwapMenu(menu: OwnedMenu, platform: Platform)
      requires Valid(platform) && menu != current && menu != pending
      requires menu.handle != 0 ==> menu.handle in platform.roots && menu.handle != current.handle && menu.handle != pending.handle
      modifies this, current, pending, menu, platform
      ensures Valid(platform) && menu.handle == 0
      ensures State() == Swap(old(State()), old(menu.handle)).0
      ensures platform.destroyed == old(platform.destroyed) + Swap(old(State()), old(menu.handle)).1
      ensures platform.roots == old(platform.roots) - (set h | h in Swap(old(State()), old(menu.handle)).1)
    {
      if tracking {
        pending.TakeFrom(menu, platform);
        pendingUpdate := true;
      } else {
        current.TakeFrom(menu, platform);
      }
    }

    method ReplaceMenu(menu: OwnedMenu, platform: Platform) returns (taken: bool)
      requires Valid(platform) && menu != current && menu != pending
      requires menu.handle != 0 ==> menu.handle in platform.roots && menu.handle != current.handle && menu.handle != pending.handle
      modifies this, current, pending, menu, platform
      ensures Valid(platform) && taken == !old(disposed) && menu.handle == 0
      ensures State() == Apply(old(State()), Replace(old(menu.handle))).0
      ensures platform.destroyed == old(platform.destroyed) + Apply(old(State()), Replace(old(menu.handle))).1
      ensures platform.roots == old(platform.roots) - (set h | h in Apply(old(State()), Replace(old(menu.handle))).1)
    {
      taken := !disposed;
      if taken {
        SwapMenu(menu, platform);
      } else {
        menu.Reset(platform);
      }
    }

    method DisposeMenus(platform: Platform)
      requires Valid(platform)
      modifies this, current, pending, platform
      ensures Valid(platform) && State() == Apply(old(State()), Dispose).0
      ensures platform.destroyed == old(platform.destroyed) + Apply(old(State()), Dispose).1
      ensures platform.roots == old(platform.roots) - (set h | h in Apply(old(State()), Dispose).1)
    {
      disposed := true;
      var none := new OwnedMenu(0);
      SwapMenu(none, platform);
    }

    method BeginTrackingMenu() returns (began: bool)
      requires current != pending
      modifies this
      ensures State() == Apply(old(State()), BeginTracking).0
      ensures began <==> !old(tracking) && current.handle != 0
    {
      if tracking || current.handle == 0 {
        return false;
      }
      tracking := true;
      began := true;
    }

    method EndTrackingMenu(platform: Platform)
      requires Valid(platform)
      modifies this, current, pending, platform
      ensures Valid(platform) && State() == Apply(old(State()), EndTracking).0
      ensures platform.destroyed == old(platform.destroyed) + Apply(old(State()), EndTracking).1
      ensures platform.roots == old(platform.roots) - (set h | h in Apply(old(State()), EndTracking).1)
    {
      tracking := false;
      if pendingUpdate {
        current.TakeFrom(pending, platform);
        pendingUpdate := false;
      }
    }

    /** The destructor: the pending menu goes first, then the one on show. */
    method DestroyMenus(platform: Platform)
      requires Valid(platform)
      modifies current, pending, platform
      ensures platform.Valid() && current.handle == 0 && pending.handle == 0
      ensures platform.destroyed == old(platform.destroyed) + AtEnd(old(State()))
      ensures platform.roots == old(platform.roots) - (set h | h in AtEnd(old(State())))
    {
      pending.Reset(platform);
      current.Reset(platform);
    }
  }
}
