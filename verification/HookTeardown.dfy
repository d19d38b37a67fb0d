/**
  When native entry code goes away under a dispatch that is inside it: exactly when an enable fails while
  one is. A run shows that this can happen.
 */
module HookTeardown {
  import opened HookRegistry
  import opened HookRegistrySafety

  /** The step tears down entry code of `t` while a dispatch is inside. */
  ghost predicate TearsInside(r: Registry, step: Step, t: nat)
    requires Enabled(r, step)
  {
    t in r.targets && t in Apply(r, step).targets && r.targets[t].native > 0 && Apply(r, step).targets[t].life != r.targets[t].life
  }

  /** An enable fails, frees the entry code, and a dispatch is inside. */
  predicate FailsInside(r: Registry, step: Step) {
    step.AddPhysical? && !step.ok && step.torn && step.t in r.targets && r.targets[step.t].native > 0
  }

  lemma TornInsideIff(r: Registry, step: Step, t: nat)
    requires Indexed(r.targets, r.byKey, r.nextTarget) && Held(r.targets, r.calls) && Enabled(r, step)
    ensures TearsInside(r, step, t) <==> FailsInside(r, step) && step.t == t
  {
    if TearsInside(r, step, t) {
      TornWhenIdle(r, step, t);
    }
  }

  /** No step of the run tears down entry code under a dispatch. */
  ghost predicate NeverTorn(r: Registry, steps: seq<Step>)
    requires Legal(r, steps)
    decreases |steps|
  {
    steps == [] || ((forall t :: !TearsInside(r, steps[0], t)) && NeverTorn(Apply(r, steps[0]), steps[1..]))
  }

  ghost predicate EverFailsInside(r: Registry, steps: seq<Step>)
    requires Legal(r, steps)
    decreases |steps|
  {
    steps != [] && (FailsInside(r, steps[0]) || EverFailsInside(Apply(r, steps[0]), steps[1..]))
  }

  lemma StepTorn(r: Registry, step: Step)
    requires Indexed(r.targets, r.byKey, r.nextTarget) && Held(r.targets, r.calls) && Enabled(r, step)
    ensures (exists t :: TearsInside(r, step, t)) <==> FailsInside(r, step)
  {
    forall t
      ensures TearsInside(r, step, t) <==> FailsInside(r, step) && step.t == t
    {
      TornInsideIff(r, step, t);
    }
    if FailsInside(r, step) {
      assert TearsInside(r, step, step.t);
    }
  }

  /** Entry code stands under every dispatch of a run exactly when no enable of the run fails while a dispatch is inside. */
  lemma {:induction false} RunTorn(r: Registry, steps: seq<Step>)
    requires Safe(r) && Legal(r, steps)
    ensures NeverTorn(r, steps) <==> !EverFailsInside(r, steps)
    decreases |steps|
  {
    if steps != [] {
      StepTorn(r, steps[0]);
      StepSafe(r, steps[0]);
      RunTorn(Apply(r, steps[0]), steps[1..]);
    }
  }

  // ---- a run ----

  const Place: Key := Key(1, 0, Detour)

  /** A hook is put in and taken out while a dispatch is inside; putting it in again fails. */
  const Failing: seq<Step> := [
    Authorize(1), Register(1, Place, 0, 7), AddBegin(1, 1), AddPhysical(1, true, false), AddEnd(1), NativeEnter(1),
    RemoveBegin(1, 1), RemovePhysical(1, true), RemoveEnd(1), AddBegin(1, 1), AddPhysical(1, false, true)]

  /** The registry with one target. */
  function Shot(callbacks: set<nat>, op: Op, enabled: bool, built: bool, life: nat, native: nat, next: nat): Registry {
    Registry(map[1 := Target(Place, 0, true, {1}, map[1 := 7], callbacks, op, enabled, built, life, native, 0)],
             map[Place := 1], map cb | cb in callbacks :: Callback(1, 1), map[1 := true], {}, map[], 2, next)
  }

  lemma {:induction false} Extend(r: Registry, steps: seq<Step>, step: Step)
    requires Legal(r, steps) && Enabled(After(r, steps), step)
    ensures Legal(r, steps + [step]) && After(r, steps + [step]) == Apply(After(r, steps), step)
    decreases |steps|
  {
    if steps == [] {
      assert [step][1..] == [];
    } else {
      assert (steps + [step])[1..] == steps[1..] + [step];
      Extend(Apply(r, steps[0]), steps[1..], step);
    }
  }

  lemma ExtendFailing(k: nat, r: Registry, next: Registry)
    requires k < |Failing| && Legal(Initial, Failing[..k]) && After(Initial, Failing[..k]) == r
    requires Enabled(r, Failing[k]) && Apply(r, Failing[k]) == next
    ensures Legal(Initial, Failing[..k + 1]) && After(Initial, Failing[..k + 1]) == next
  {
    Extend(Initial, Failing[..k], Failing[k]);
    assert Failing[..k + 1] == Failing[..k] + [Failing[k]];
  }

  const Registers: Registry := Shot({}, Free, false, false, 0, 0, 1)
  const Adds: Registry := Shot({1}, Adding(1, Begun), false, false, 0, 0, 2)
  const Added: Registry := Shot({1}, Adding(1, Done(true)), true, true, 0, 0, 2)
  const Hooks: Registry := Shot({1}, Free, true, true, 0, 0, 2)
  const Dispatches: Registry := Shot({1}, Free, true, true, 0, 1, 2)
  const Removes: Registry := Shot({1}, Removing(1, true, Begun), true, true, 0, 1, 2)
  const Unhooks: Registry := Shot({1}, Removing(1, true, Done(true)), false, true, 0, 1, 2)
  const Removed: Registry := Shot({}, Free, false, true, 0, 1, 2)
  const AddsAgain: Registry := Shot({2}, Adding(2, Begun), false, true, 0, 1, 3)
  const Tears: Registry := Shot({2}, Adding(2, Done(false)), false, false, 1, 1, 3)

  lemma RunRegistered()
    ensures Legal(Initial, Failing[..2]) && After(Initial, Failing[..2]) == Registers
  {
    var r1 := Initial.(owners := map[1 := true]);
    assert Initial.owners[1 := true] == map[1 := true];
    ExtendFailing(0, Initial, r1);
    assert Registered(r1, 1, Place, 0, 7) == Registers;
    ExtendFailing(1, r1, Registers);
  }

  lemma RunAdds()
    ensures Legal(Initial, Failing[..3]) && After(Initial, Failing[..3]) == Adds
  {
    RunRegistered();
    assert {} + {1} == {1} && AddBegun(Registers, 1, 1) == Adds;
    ExtendFailing(2, Registers, Adds);
  }

  lemma RunAdded()
    ensures Legal(Initial, Failing[..4]) && After(Initial, Failing[..4]) == Added
  {
    RunAdds();
    assert Apply(Adds, Failing[3]) == Added;
    ExtendFailing(3, Adds, Added);
  }

  lemma RunHooks()
    ensures Legal(Initial, Failing[..5]) && After(Initial, Failing[..5]) == Hooks
  {
    RunAdded();
    assert Finished(Added, 1) == Hooks;
    ExtendFailing(4, Added, Hooks);
  }

  lemma RunDispatches()
    ensures Legal(Initial, Failing[..6]) && After(Initial, Failing[..6]) == Dispatches
  {
    RunHooks();
    assert Apply(Hooks, Failing[5]) == Dispatches;
    ExtendFailing(5, Hooks, Dispatches);
  }

  lemma RunRemoves()
    ensures Legal(Initial, Failing[..7]) && After(Initial, Failing[..7]) == Removes
  {
    RunDispatches();
    assert Apply(Dispatches, Failing[6]) == Removes;
    ExtendFailing(6, Dispatches, Removes);
  }

  lemma RunUnhooks()
    ensures Legal(Initial, Failing[..8]) && After(Initial, Failing[..8]) == Unhooks
  {
    RunRemoves();
    assert Apply(Removes, Failing[7]) == Unhooks;
    ExtendFailing(7, Removes, Unhooks);
  }

  lemma RunRemoved()
    ensures Legal(Initial, Failing[..9]) && After(Initial, Failing[..9]) == Removed
  {
    RunUnhooks();
    assert {1} - {1} == {} && Dropped(Unhooks, 1, 1) == Removed;
    assert Pruned(Removed) == Removed;
    ExtendFailing(8, Unhooks, Removed);
  }

  lemma RunAddsAgain()
    ensures Legal(Initial, Failing[..10]) && After(Initial, Failing[..10]) == AddsAgain
  {
    RunRemoved();
    assert {} + {2} == {2} && AddBegun(Removed, 1, 1) == AddsAgain;
    ExtendFailing(9, Removed, AddsAgain);
  }

  lemma {:induction false} FailsLater(r: Registry, steps: seq<Step>, k: nat)
    requires k < |steps| && Legal(r, steps) && Legal(r, steps[..k]) && FailsInside(After(r, steps[..k]), steps[k])
    ensures EverFailsInside(r, steps)
    decreases k
  {
    if k > 0 {
      assert steps[..k][0] == steps[0] && steps[..k][1..] == steps[1..][..k - 1];
      FailsLater(Apply(r, steps[0]), steps[1..], k - 1);
    }
  }

  lemma InitialSafe()
    ensures Safe(Initial)
  {
  }

  /** A run in which entry code is torn down while a dispatch is inside. */
  lemma FailedEnableTearsInside()
    ensures Legal(Initial, Failing) && !NeverTorn(Initial, Failing)
  {
    RunAddsAgain();
    assert Apply(AddsAgain, Failing[10]) == Tears;
    ExtendFailing(10, AddsAgain, Tears);
    assert Failing[..11] == Failing;
    InitialSafe();
    FailsLater(Initial, Failing, 10);
    RunTorn(Initial, Failing);
  }
}
