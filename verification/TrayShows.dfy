/** What the tray shows: always the menu last handed in, at the latest when tracking ends. */
module TrayShows {
  import opened MenuOwnership
  import opened TrayMenu

  /** The menu that ought to be shown: the last one handed in before disposal, none once
      cleared or disposed. */
  function Wanted(steps: seq<Step>): Handle {
    if steps == [] then 0
    else
      var before := steps[..|steps| - 1];
      match steps[|steps| - 1]
      case Replace(menu) => if Dispose in before then 0 else menu
      case Clear => 0
      case Dispose => 0
      case BeginTracking => Wanted(before)
      case EndTracking => Wanted(before)
  }

  lemma {:induction false} OneMoreStep(m: Menus, steps: seq<Step>, step: Step)
    ensures After(m, steps + [step]) == Apply(After(m, steps), step).0
    decreases |steps|
  {
    if steps == [] {
      assert (steps + [step])[1..] == [];
    } else {
      OneMoreStep(Apply(m, steps[0]).0, steps[1..], step);
      assert (steps + [step])[1..] == steps[1..] + [step];
    }
  }

  /** The wanted menu is current, or waits for the tracking to end. */
  predicate ShowsWanted(m: Menus, wanted: Handle) {
    wanted == if m.pendingUpdate then m.pending else m.current
  }

  lemma StepShows(m: Menus, step: Step, wanted: Handle)
    requires Ok(m) && ShowsWanted(m, wanted) && (m.disposed ==> wanted == 0)
    ensures ShowsWanted(Apply(m, step).0, match step
                                          case Replace(menu) => if m.disposed then 0 else menu
                                          case Clear => 0
                                          case Dispose => 0
                                          case _ => wanted)
    ensures Apply(m, step).0.disposed <==> m.disposed || step == Dispose
  {
  }

  lemma {:induction false} RunShows(steps: seq<Step>)
    ensures var m := After(START, steps);
            Ok(m) && ShowsWanted(m, Wanted(steps)) && (m.disposed <==> Dispose in steps) && (m.disposed ==> Wanted(steps) == 0)
    decreases |steps|
  {
    if steps != [] {
      var n := |steps| - 1;
      var before, last := steps[..n], steps[n];
      assert steps == before + [last];
      RunShows(before);
      OneMoreStep(START, before, last);
      StepShows(After(START, before), last, Wanted(before));
      StepConserves(After(START, before), last);
    }
  }

  /** Over every run: outside tracking the wanted menu is shown; while one is tracked the
      wanted menu is that one or waits, and is shown as soon as tracking ends. */
  lemma ShowsTheLatest(steps: seq<Step>)
    ensures var m := After(START, steps);
            && (!m.tracking ==> m.current == Wanted(steps))
            && After(START, steps + [EndTracking]).current == Wanted(steps) && !After(START, steps + [EndTracking]).tracking
  {
    RunShows(steps);
    OneMoreStep(START, steps, EndTracking);
  }

  /** A menu is tracked from a BeginTracking that finds one to show to the next EndTracking. */
  predicate Tracked(steps: seq<Step>) {
    exists i :: 0 <= i < |steps| && steps[i] == BeginTracking && EndTracking !in steps[i..] && Wanted(steps[..i]) != 0
  }

  lemma TrackedLater(before: seq<Step>, last: Step)
    requires Tracked(before) && last != EndTracking
    ensures Tracked(before + [last])
  {
    var i :| 0 <= i < |before| && before[i] == BeginTracking && EndTracking !in before[i..] && Wanted(before[..i]) != 0;
    assert (before + [last])[i..] == before[i..] + [last] && (before + [last])[..i] == before[..i];
  }

  lemma TrackedBefore(before: seq<Step>, last: Step)
    requires Tracked(before + [last])
    ensures last != EndTracking && (Tracked(before) || (last == BeginTracking && Wanted(before) != 0))
  {
    var steps := before + [last];
    var i :| 0 <= i < |steps| && steps[i] == BeginTracking && EndTracking !in steps[i..] && Wanted(steps[..i]) != 0;
    assert steps[i..][|steps| - 1 - i] == last;
    if i < |before| {
      assert steps[i..] == before[i..] + [last] && steps[..i] == before[..i];
    } else {
      assert steps[..i] == before;
    }
  }

  /** Over every run a menu is tracked exactly so. */
  lemma {:induction false} TracksExactly(steps: seq<Step>)
    ensures After(START, steps).tracking <==> Tracked(steps)
    decreases |steps|
  {
    if steps != [] {
      var n := |steps| - 1;
      var before, last := steps[..n], steps[n];
      assert steps == before + [last];
      TracksExactly(before);
      RunShows(before);
      OneMoreStep(START, before, last);
      if Tracked(steps) { TrackedBefore(before, last); }
      if Tracked(before) && last != EndTracking { TrackedLater(before, last); }
      if last == BeginTracking && Wanted(before) != 0 {
        assert steps[n..] == [BeginTracking];
      }
    }
  }
}
