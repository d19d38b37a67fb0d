/**
  What each step of the registry does to leases, callbacks and the list of targets, in both directions;
  and that a listed target is always leased, so that its key is free once its last plugin is gone.
 */
module HookRegistryUse {
  import opened HookRegistry
  import opened HookRegistrySafety

  // ---- targets in use ----

  predicate InUse(x: Target) {
    x.listed ==> x.leases != {} || x.callbacks != {}
  }

  ghost predicate AllInUse(targets: map<nat, Target>) {
    forall t :: t in targets ==> InUse(targets[t])
  }

  lemma PrunedInUse(r: Registry)
    requires AllBusyInUse(r.targets)
    ensures AllInUse(Pruned(r).targets)
  {
  }

  lemma AddEndInUse(r: Registry, t: nat)
    requires Indexed(r.targets, r.byKey, r.nextTarget) && Hooked(r.targets, r.callbacks, r.nextCallback)
    requires AllInUse(r.targets) && Enabled(r, AddEnd(t))
    ensures AllInUse(Apply(r, AddEnd(t)).targets)
  {
    AddingMeansLeased(r, t);
  }

  lemma AddingMeansLeased(r: Registry, t: nat)
    requires Hooked(r.targets, r.callbacks, r.nextCallback) && t in r.targets && Fine(r.targets[t]) && r.targets[t].op.Adding?
    ensures r.targets[t].leases != {}
  {
    var cb := r.targets[t].op.cb;
    assert r.targets[t].callbacks == {cb};
    assert HookedOn(r.targets, cb, r.callbacks[cb]);
  }

  ghost predicate AllBusyInUse(targets: map<nat, Target>) {
    forall t :: t in targets ==> targets[t].op == Free || InUse(targets[t])
  }

  lemma RemoveEndInUse(r: Registry, t: nat)
    requires Indexed(r.targets, r.byKey, r.nextTarget) && AllInUse(r.targets) && Enabled(r, RemoveEnd(t))
    ensures AllInUse(Apply(r, RemoveEnd(t)).targets)
  {
    assert Fine(r.targets[t]);
    if r.targets[t].op.stage.ok {
      SetInUse(r, t, Dropped(r, t, r.targets[t].op.cb).targets[t]);
      PrunedInUse(Dropped(r, t, r.targets[t].op.cb));
    } else {
      FinishedInUse(r, t);
    }
  }

  lemma FinishedInUse(r: Registry, t: nat)
    requires AllInUse(r.targets) && t in r.targets
    ensures AllInUse(Finished(r, t).targets)
  {
  }

  lemma SetInUse(r: Registry, t: nat, y: Target)
    requires AllInUse(r.targets) && t in r.targets && y.op == Free
    ensures AllBusyInUse(r.targets[t := y])
  {
  }

  lemma ReleaseTargetInUse(r: Registry, step: Step)
    requires AllInUse(r.targets) && Enabled(r, step) && step.ReleaseTarget?
    ensures AllInUse(Apply(r, step).targets)
  {
    var x := r.targets[step.t];
    var y := x.(leases := x.leases - {step.p}, bindings := x.bindings - {step.p});
    SetInUse(r, step.t, y);
    PrunedInUse(SetTarget(r, step.t, y));
  }

  lemma ReleaseEndInUse(r: Registry, step: Step)
    requires AllInUse(r.targets) && Enabled(r, step) && step.ReleaseEnd?
    ensures AllInUse(Apply(r, step).targets)
  {
    forall t | t in r.targets
      ensures ReleaseEnded(r, step.p).targets[t].op == Free || InUse(ReleaseEnded(r, step.p).targets[t])
    {
      assert InUse(r.targets[t]);
    }
    PrunedInUse(ReleaseEnded(r, step.p));
  }

  lemma OtherInUse(r: Registry, step: Step)
    requires AllInUse(r.targets) && Enabled(r, step)
    requires !step.AddEnd? && !step.RemoveEnd? && !step.ReleaseTarget? && !step.ReleaseEnd?
    ensures AllInUse(Apply(r, step).targets)
  {
  }

  lemma StepInUse(r: Registry, step: Step)
    requires Safe(r) && AllInUse(r.targets) && Enabled(r, step)
    ensures AllInUse(Apply(r, step).targets)
  {
    match step
    case AddEnd(t) => AddEndInUse(r, t);
    case RemoveEnd(t) => RemoveEndInUse(r, t);
    case ReleaseTarget(_, _) => ReleaseTargetInUse(r, step);
    case ReleaseEnd(_) => ReleaseEndInUse(r, step);
    case _ => OtherInUse(r, step);
  }

  lemma UsedMeansLeased(r: Registry, t: nat)
    requires Hooked(r.targets, r.callbacks, r.nextCallback)
    requires t in r.targets && InUse(r.targets[t]) && r.targets[t].listed
    ensures r.targets[t].leases != {}
  {
    if cb :| cb in r.targets[t].callbacks {
      assert HookedOn(r.targets, cb, r.callbacks[cb]);
    }
  }

  lemma {:induction false} RunInUse(r: Registry, steps: seq<Step>)
    requires Safe(r) && AllInUse(r.targets) && Legal(r, steps)
    ensures AllInUse(After(r, steps).targets)
    decreases |steps|
  {
    if steps != [] {
      StepSafe(r, steps[0]);
      StepInUse(r, steps[0]);
      RunInUse(Apply(r, steps[0]), steps[1..]);
    }
  }

  /** In every reachable state a listed target is leased by someone. */
  lemma ListedMeansLeased(steps: seq<Step>, t: nat)
    requires Legal(Initial, steps) && Listed(After(Initial, steps), t)
    ensures After(Initial, steps).targets[t].leases != {}
  {
    RunSafe(Initial, steps);
    RunInUse(Initial, steps);
    UsedMeansLeased(After(Initial, steps), t);
  }

  // ---- one step, one lease ----

  predicate HasLease(r: Registry, t: nat, p: nat) {
    t in r.targets && p in r.targets[t].leases
  }

  /** The plugin leases the target with this binding. */
  predicate Bound(r: Registry, t: nat, p: nat, b: nat) {
    t in r.targets && p in r.targets[t].bindings && r.targets[t].bindings[p] == b
  }

  /** The target of a key: the one that has it, or the one made for it. */
  function TargetOf(r: Registry, key: Key): nat {
    if key in r.byKey then r.byKey[key] else r.nextTarget
  }

  predicate Registers(r: Registry, step: Step, t: nat, p: nat) {
    step.Register? && step.p == p && t == TargetOf(r, step.key)
  }

  /** The plugin gives the target back, or its release ends and restored the target. */
  predicate Returns(r: Registry, step: Step, t: nat, p: nat)
    requires t in r.targets
  {
    step == ReleaseTarget(p, t) || (step == ReleaseEnd(p) && r.targets[t].op.Releasing? && r.targets[t].op.stage == Done(true))
  }

  predicate BoundAfter(r: Registry, step: Step, t: nat, p: nat, b: nat) {
    if Registers(r, step, t, p) then step.binding == b else Bound(r, t, p, b) && !Returns(r, step, t, p)
  }

  /** What one step does to one lease and its binding. */
  lemma BoundIff(r: Registry, step: Step, t: nat, p: nat, b: nat)
    requires Safe(r) && Enabled(r, step)
    ensures Bound(Apply(r, step), t, p, b) <==> BoundAfter(r, step, t, p, b)
  {
    if step.ReleaseEnd? {
      ReleaseEndBound(r, step, t, p, b);
    } else if step.ReleaseTarget? {
      ReleaseTargetBound(r, step, t, p, b);
    } else if step.Collect? {
      assert Fine(r.targets[step.t]);
      CollectBound(r, step, t, p, b);
    } else if step.RemoveEnd? {
      RemoveEndBound(r, step, t, p, b);
    } else if Physical(step) {
      PhysicalBound(r, step, t, p, b);
    } else {
      OtherBound(r, step, t, p, b);
    }
  }

  /** A plugin leases a target after a step exactly when it registered it in that step, or leased it and did not return it. */
  lemma LeaseIff(r: Registry, step: Step, t: nat, p: nat)
    requires Safe(r) && Enabled(r, step)
    ensures HasLease(Apply(r, step), t, p) <==>
      Registers(r, step, t, p) || (HasLease(r, t, p) && !Returns(r, step, t, p))
  {
    StepSafe(r, step);
    var after := Apply(r, step);
    LeaseIsBound(after, t, p);
    LeaseIsBound(r, t, p);
    var b := if HasLease(after, t, p) then after.targets[t].bindings[p]
             else if Registers(r, step, t, p) then step.binding
             else if HasLease(r, t, p) then r.targets[t].bindings[p] else 0;
    BoundIff(r, step, t, p, b);
  }

  lemma LeaseIsBound(r: Registry, t: nat, p: nat)
    requires Indexed(r.targets, r.byKey, r.nextTarget)
    ensures HasLease(r, t, p) <==> t in r.targets && p in r.targets[t].bindings
  {
    assert t in r.targets ==> Fine(r.targets[t]);
  }

  lemma PrunedBound(r: Registry, t: nat, p: nat, b: nat)
    ensures Bound(Pruned(r), t, p, b) <==> Bound(r, t, p, b)
  {
  }

  lemma EndedBound(r: Registry, q: nat, t: nat, p: nat, b: nat)
    requires AllDone(r, q) && Withdrawing(r.targets, r.callbacks, r.releasing) && q in r.releasing
    requires t in r.targets ==> Fine(r.targets[t])
    ensures Bound(ReleaseEnded(r, q), t, p, b) <==> Bound(r, t, p, b) && !Returns(r, ReleaseEnd(q), t, p)
  {
    assert t in r.targets && q in r.targets[t].leases ==> ReleasingFor(r.targets[t], q);
  }

  lemma ReleaseEndBound(r: Registry, step: Step, t: nat, p: nat, b: nat)
    requires Indexed(r.targets, r.byKey, r.nextTarget)
    requires Withdrawing(r.targets, r.callbacks, r.releasing) && Enabled(r, step) && step.ReleaseEnd?
    ensures Bound(Apply(r, step), t, p, b) <==> BoundAfter(r, step, t, p, b)
  {
    EndedBound(r, step.p, t, p, b);
    PrunedBound(ReleaseEnded(r, step.p), t, p, b);
  }

  lemma ReleaseTargetBound(r: Registry, step: Step, t: nat, p: nat, b: nat)
    requires Enabled(r, step) && step.ReleaseTarget?
    ensures Bound(Apply(r, step), t, p, b) <==> BoundAfter(r, step, t, p, b)
  {
    var x := r.targets[step.t];
    PrunedBound(SetTarget(r, step.t, x.(leases := x.leases - {step.p}, bindings := x.bindings - {step.p})), t, p, b);
  }

  lemma CollectBound(r: Registry, step: Step, t: nat, p: nat, b: nat)
    requires Enabled(r, step) && step.Collect? && r.targets[step.t].bindings.Keys == {}
    ensures Bound(Apply(r, step), t, p, b) <==> BoundAfter(r, step, t, p, b)
  {
  }

  lemma DroppedBound(r: Registry, u: nat, cb: nat, t: nat, p: nat, b: nat)
    requires u in r.targets
    ensures Bound(Dropped(r, u, cb), t, p, b) <==> Bound(r, t, p, b)
  {
  }

  lemma RemoveEndBound(r: Registry, step: Step, t: nat, p: nat, b: nat)
    requires Enabled(r, step) && step.RemoveEnd?
    ensures Bound(Apply(r, step), t, p, b) <==> BoundAfter(r, step, t, p, b)
  {
    if r.targets[step.t].op.stage.ok {
      var cb := r.targets[step.t].op.cb;
      DroppedBound(r, step.t, cb, t, p, b);
      PrunedBound(Dropped(r, step.t, cb), t, p, b);
    } else {
      FinishedBound(r, step.t, t, p, b);
    }
  }

  lemma FinishedBound(r: Registry, u: nat, t: nat, p: nat, b: nat)
    requires u in r.targets
    ensures Bound(Finished(r, u), t, p, b) <==> Bound(r, t, p, b)
  {
  }

  predicate SameUsers(x: Target, y: Target) {
    x.listed == y.listed && x.bindings == y.bindings
  }

  lemma PhysicalKeeps(r: Registry, step: Step, t: nat)
    requires Enabled(r, step) && Physical(step) && !step.RemoveEnd?
    ensures t in Apply(r, step).targets <==> t in r.targets
    ensures t in r.targets ==> SameUsers(r.targets[t], Apply(r, step).targets[t])
  {
    if step.AddPhysical? {
      AddPhysicalKeeps(r, step, t);
    } else if step.AddEnd? {
      AddEndKeeps(r, step, t);
    } else if step.NativeEnter? || step.NativeLeave? || step.Destroy? {
      NativeKeeps(r, step, t);
    } else {
      WorkKeeps(r, step, t);
    }
  }

  lemma AddPhysicalKeeps(r: Registry, step: Step, t: nat)
    requires Enabled(r, step) && step.AddPhysical?
    ensures t in Apply(r, step).targets <==> t in r.targets
    ensures t in r.targets ==> SameUsers(r.targets[t], Apply(r, step).targets[t])
  {
  }

  lemma AddEndKeeps(r: Registry, step: Step, t: nat)
    requires Enabled(r, step) && step.AddEnd?
    ensures t in Apply(r, step).targets <==> t in r.targets
    ensures t in r.targets ==> SameUsers(r.targets[t], Apply(r, step).targets[t])
  {
    EndKeeps(r, step.t, r.targets[step.t].op.cb, t);
  }

  lemma EndKeeps(r: Registry, u: nat, cb: nat, t: nat)
    requires u in r.targets
    ensures t in r.targets <==> t in Finished(r, u).targets && t in Dropped(r, u, cb).targets
    ensures t in r.targets ==> SameUsers(r.targets[t], Finished(r, u).targets[t])
    ensures t in r.targets ==> SameUsers(r.targets[t], Dropped(r, u, cb).targets[t])
  {
  }

  lemma NativeKeeps(r: Registry, step: Step, t: nat)
    requires Enabled(r, step) && (step.NativeEnter? || step.NativeLeave? || step.Destroy?)
    ensures t in Apply(r, step).targets <==> t in r.targets
    ensures t in r.targets ==> SameUsers(r.targets[t], Apply(r, step).targets[t])
  {
  }

  lemma WorkKeeps(r: Registry, step: Step, t: nat)
    requires Enabled(r, step) && (step.RemoveBegin? || step.RemovePhysical? || step.ReleasePhysical?)
    ensures t in Apply(r, step).targets <==> t in r.targets
    ensures t in r.targets ==> SameUsers(r.targets[t], Apply(r, step).targets[t])
  {
  }

  lemma PhysicalBound(r: Registry, step: Step, t: nat, p: nat, b: nat)
    requires Enabled(r, step) && Physical(step) && !step.RemoveEnd?
    ensures Bound(Apply(r, step), t, p, b) <==> BoundAfter(r, step, t, p, b)
  {
    PhysicalKeeps(r, step, t);
  }

  lemma OtherBound(r: Registry, step: Step, t: nat, p: nat, b: nat)
    requires r.nextTarget !in r.targets && Enabled(r, step) && !Physical(step)
    requires !step.ReleaseEnd? && !step.ReleaseTarget? && !step.Collect?
    ensures Bound(Apply(r, step), t, p, b) <==> BoundAfter(r, step, t, p, b)
  {
  }

  // ---- one step, one target ----

  /** The only plugin that leases the target returns it. */
  predicate LastLeaves(r: Registry, step: Step, t: nat)
    requires t in r.targets
  {
    (step.ReleaseTarget? || step.ReleaseEnd?) && r.targets[t].leases == {step.p} && Returns(r, step, t, step.p)
  }

  predicate ListedAfter(r: Registry, step: Step, t: nat) {
    || (step.Register? && step.key !in r.byKey && t == r.nextTarget)
    || (Listed(r, t) && !LastLeaves(r, step, t))
  }

  /** What one step does to the list of targets: one is taken off it exactly when its last plugin returns it. */
  lemma ListedIff(r: Registry, step: Step, t: nat)
    requires Safe(r) && AllInUse(r.targets) && Enabled(r, step)
    ensures Listed(Apply(r, step), t) <==> ListedAfter(r, step, t)
  {
    if step.ReleaseEnd? {
      ReleaseEndListed(r, step, t);
    } else if step.ReleaseTarget? {
      ReleaseTargetListed(r, step, t);
    } else if step.RemoveEnd? {
      RemoveEndListed(r, step, t);
    } else if Physical(step) {
      PhysicalListed(r, step, t);
    } else {
      OtherListed(r, step, t);
    }
  }

  lemma PrunedListed(r: Registry, t: nat)
    ensures Listed(Pruned(r), t) <==> Listed(r, t) && !Unused(r.targets[t])
  {
  }

  lemma ReleaseTargetListed(r: Registry, step: Step, t: nat)
    requires Hooked(r.targets, r.callbacks, r.nextCallback) && AllInUse(r.targets)
    requires Enabled(r, step) && step.ReleaseTarget?
    ensures Listed(Apply(r, step), t) <==> ListedAfter(r, step, t)
  {
    var x := r.targets[step.t];
    PrunedListed(SetTarget(r, step.t, x.(leases := x.leases - {step.p}, bindings := x.bindings - {step.p})), t);
    if x.leases == {step.p} {
      OnlyOwner(r, step.t, step.p);
    }
  }

  /** The callbacks on a target that one plugin alone leases are that plugin's. */
  lemma OnlyOwner(r: Registry, t: nat, p: nat)
    requires Hooked(r.targets, r.callbacks, r.nextCallback) && t in r.targets && r.targets[t].leases == {p}
    ensures forall cb :: cb in r.targets[t].callbacks ==> Owns(r.callbacks, p, cb)
  {
    forall cb | cb in r.targets[t].callbacks
      ensures Owns(r.callbacks, p, cb)
    {
      assert HookedOn(r.targets, cb, r.callbacks[cb]);
    }
  }

  lemma ReleaseEndListed(r: Registry, step: Step, t: nat)
    requires Safe(r) && AllInUse(r.targets) && Enabled(r, step) && step.ReleaseEnd?
    ensures Listed(Apply(r, step), t) <==> ListedAfter(r, step, t)
  {
    PrunedListed(ReleaseEnded(r, step.p), t);
    if t in r.targets {
      EndedUnused(r, step.p, t);
    }
  }

  lemma EndedUnused(r: Registry, p: nat, t: nat)
    requires Hooked(r.targets, r.callbacks, r.nextCallback) && Withdrawing(r.targets, r.callbacks, r.releasing)
    requires AllDone(r, p) && p in r.releasing && t in r.targets && InUse(r.targets[t]) && Fine(r.targets[t])
    ensures ReleaseEnded(r, p).targets[t].listed == r.targets[t].listed
    ensures r.targets[t].listed ==> (Unused(ReleaseEnded(r, p).targets[t]) <==> LastLeaves(r, ReleaseEnd(p), t))
  {
    var x, y := r.targets[t], ReleaseEnded(r, p).targets[t];
    assert p in x.leases ==> ReleasingFor(x, p);
    if x.leases == {p} {
      OnlyOwner(r, t, p);
    }
    if cb :| cb in x.callbacks {
      assert HookedOn(r.targets, cb, r.callbacks[cb]);
      assert Owns(r.callbacks, p, cb) || r.callbacks[cb].owner in x.leases - {p};
    }
  }

  lemma RemoveEndListed(r: Registry, step: Step, t: nat)
    requires Indexed(r.targets, r.byKey, r.nextTarget) && Hooked(r.targets, r.callbacks, r.nextCallback)
    requires AllInUse(r.targets) && Enabled(r, step) && step.RemoveEnd?
    ensures Listed(Apply(r, step), t) <==> ListedAfter(r, step, t)
  {
    assert Fine(r.targets[step.t]);
    DroppedUsed(r, step.t, r.targets[step.t].op.cb, t);
    PrunedListed(Dropped(r, step.t, r.targets[step.t].op.cb), t);
  }

  /** Whoever owns the callback that goes still leases the target. */
  lemma DroppedUsed(r: Registry, u: nat, cb: nat, t: nat)
    requires Hooked(r.targets, r.callbacks, r.nextCallback) && AllInUse(r.targets) && u in r.targets && cb in r.targets[u].callbacks
    ensures Listed(Dropped(r, u, cb), t) <==> Listed(r, t)
    ensures Listed(r, t) ==> !Unused(Dropped(r, u, cb).targets[t])
  {
    assert HookedOn(r.targets, cb, r.callbacks[cb]);
  }

  lemma PhysicalListed(r: Registry, step: Step, t: nat)
    requires Enabled(r, step) && Physical(step) && !step.RemoveEnd?
    ensures Listed(Apply(r, step), t) <==> ListedAfter(r, step, t)
  {
    PhysicalKeeps(r, step, t);
  }

  lemma OtherListed(r: Registry, step: Step, t: nat)
    requires r.nextTarget !in r.targets && Enabled(r, step) && !Physical(step)
    requires !step.ReleaseEnd? && !step.ReleaseTarget?
    ensures Listed(Apply(r, step), t) <==> ListedAfter(r, step, t)
  {
  }

  /** When the last plugin returns a target, its key and its slot are free for anyone to register. */
  lemma KeyIsFree(r: Registry, step: Step, t: nat)
    requires Safe(r) && AllInUse(r.targets) && Enabled(r, step) && Listed(r, t) && LastLeaves(r, step, t)
    ensures var after, x := Apply(r, step), r.targets[t];
      && x.key !in after.byKey && !Listed(after, t)
      && forall q, binding :: Ready(after, q) && after.nextTarget != 0
                              && (forall u :: Listed(r, u) && u != t ==> r.targets[u].slot != x.slot) ==>
           Enabled(after, Register(q, x.key, x.slot, binding))
  {
    StepSafe(r, step);
    ListedIff(r, step, t);
    var after, x := Apply(r, step), r.targets[t];
    forall u | Listed(after, u)
      ensures Listed(r, u) && u != t && after.targets[u].key == r.targets[u].key && after.targets[u].slot == r.targets[u].slot
    {
      ListedIff(r, step, u);
      LeavingKeepsOthers(r, step, u);
    }
    if x.key in after.byKey {
      assert Listed(after, after.byKey[x.key]);
      assert Lists(r.targets, t) && Lists(r.targets, after.byKey[x.key]);
    }
  }

  lemma LeavingKeepsOthers(r: Registry, step: Step, u: nat)
    requires Enabled(r, step) && (step.ReleaseTarget? || step.ReleaseEnd?) && u in r.targets
    ensures u in Apply(r, step).targets
    ensures Apply(r, step).targets[u].key == r.targets[u].key && Apply(r, step).targets[u].slot == r.targets[u].slot
  {
    if step.ReleaseEnd? {
      EndedKept(r, step.p, u);
    }
  }

  // ---- one step, one callback ----

  /** The callback is taken out: it could not be hooked, it was removed, or its plugin's release restored its target. */
  predicate Forgets(r: Registry, step: Step, cb: nat) {
    || (step.AddEnd? && step.t in r.targets && r.targets[step.t].op == Adding(cb, Done(false)))
    || (step.RemoveEnd? && step.t in r.targets && r.targets[step.t].op.Removing? && r.targets[step.t].op.cb == cb
        && r.targets[step.t].op.stage == Done(true))
    || (step.ReleaseEnd? && Owns(r.callbacks, step.p, cb) && r.callbacks[cb].target in r.targets
        && r.targets[r.callbacks[cb].target].op.Releasing? && r.targets[r.callbacks[cb].target].op.stage == Done(true))
  }

  ghost predicate CallbackAfter(r: Registry, step: Step, cb: nat, after: map<nat, Callback>) {
    && (cb in after <==> (step.AddBegin? && cb == r.nextCallback) || (cb in r.callbacks && !Forgets(r, step, cb)))
    && (cb in after ==> (cb in r.callbacks || step.AddBegin?) &&
                        after[cb] == if cb in r.callbacks then r.callbacks[cb] else Callback(step.p, step.t))
  }

  /** What one step does to one callback; its plugin and its target never change. */
  lemma CallbackIff(r: Registry, step: Step, cb: nat)
    requires Safe(r) && Enabled(r, step)
    ensures CallbackAfter(r, step, cb, Apply(r, step).callbacks)
  {
    if step.ReleaseEnd? {
      ReleaseEndCallback(r, step, cb);
    } else if Physical(step) {
      assert step.AddEnd? ==> Fine(r.targets[step.t]);
      PhysicalCallback(r, step, cb);
    } else {
      OtherCallback(r, step, cb);
    }
  }

  lemma ReleaseEndCallback(r: Registry, step: Step, cb: nat)
    requires Hooked(r.targets, r.callbacks, r.nextCallback) && Withdrawing(r.targets, r.callbacks, r.releasing)
    requires Enabled(r, step) && step.ReleaseEnd?
    ensures CallbackAfter(r, step, cb, Apply(r, step).callbacks)
  {
    if cb in r.callbacks {
      assert HookedOn(r.targets, cb, r.callbacks[cb]);
      assert step.p in r.targets[r.callbacks[cb].target].leases ==> ReleasingFor(r.targets[r.callbacks[cb].target], step.p);
    }
  }

  lemma PhysicalCallback(r: Registry, step: Step, cb: nat)
    requires Enabled(r, step) && Physical(step)
    ensures CallbackAfter(r, step, cb, Apply(r, step).callbacks)
  {
  }

  lemma OtherCallback(r: Registry, step: Step, cb: nat)
    requires r.nextCallback !in r.callbacks && Enabled(r, step) && !Physical(step) && !step.ReleaseEnd?
    ensures CallbackAfter(r, step, cb, Apply(r, step).callbacks)
  {
  }

  // ---- one step, one plugin ----

  predicate OnOwners(step: Step) {
    step.Authorize? || step.Deactivate? || step.ReleaseBegin? || step.ReleaseEnd?
  }

  lemma OwnersKept(r: Registry, step: Step)
    requires Enabled(r, step) && !OnOwners(step)
    ensures Apply(r, step).owners == r.owners && Apply(r, step).releasing == r.releasing
  {
  }

  /** A plugin is known from its authorisation until a release of it ends with everything restored. */
  lemma OwnerIff(r: Registry, step: Step, p: nat)
    requires Enabled(r, step)
    ensures p in Apply(r, step).owners <==>
      (step.Authorize? && step.p == p) || (p in r.owners && !(step == ReleaseEnd(p) && AllRestored(r, p)))
  {
    if !OnOwners(step) {
      OwnersKept(r, step);
    }
  }

  /** It may act from its authorisation until it is deactivated or its release begins, or ends with everything restored. */
  lemma ReadyIff(r: Registry, step: Step, p: nat)
    requires Enabled(r, step)
    ensures Ready(Apply(r, step), p) <==>
      || (step.Authorize? && step.p == p)
      || (Ready(r, p) && !(step == Deactivate(p) || step == ReleaseBegin(p) || (step == ReleaseEnd(p) && AllRestored(r, p))))
  {
    if !OnOwners(step) {
      OwnersKept(r, step);
    }
  }

  lemma ReleasingIff(r: Registry, step: Step, p: nat)
    requires Enabled(r, step)
    ensures p in Apply(r, step).releasing <==> step == ReleaseBegin(p) || (p in r.releasing && step != ReleaseEnd(p))
  {
    if !OnOwners(step) {
      OwnersKept(r, step);
    }
  }

  /** A direct call is known until it returns. */
  lemma CallIff(r: Registry, step: Step, call: nat)
    requires Enabled(r, step)
    ensures call in Apply(r, step).calls <==> (step.Invoke? && step.call == call) || (call in r.calls && step != Return(call))
  {
    if !step.Invoke? && !step.Return? {
      CallsKept(r, step);
    }
  }

  lemma CallsKept(r: Registry, step: Step)
    requires Enabled(r, step) && !step.Invoke? && !step.Return?
    ensures Apply(r, step).calls == r.calls
  {
  }

  // ---- one step, one hook ----

  /** Entry code goes with its target's destruction, or in an enable that fails and tears it down. */
  predicate TearsDown(step: Step, t: nat) {
    step == Destroy(t) || (step.AddPhysical? && step.t == t && !step.ok && step.torn)
  }

  function NativeChange(step: Step, t: nat): int {
    if step == NativeEnter(t) then 1 else if step == NativeLeave(t) then -1 else 0
  }

  /** What becomes of the physical hook, its entry code and the dispatches inside it. */
  predicate HookAfter(step: Step, t: nat, x: Target, y: Target) {
    && y.key == x.key && y.slot == x.slot && y.native == x.native + NativeChange(step, t)
    && y.life == (if TearsDown(step, t) then x.life + 1 else x.life)
    && (y.built <==> (step.AddPhysical? && step.t == t && step.ok) || (x.built && !TearsDown(step, t)))
    && (y.enabled <==>
          || (step.AddPhysical? && step.t == t && step.ok)
          || (x.enabled && !(step.AddPhysical? && step.t == t)
              && !(step == RemovePhysical(t, true) && x.op.Removing? && x.op.last)
              && !(step == ReleasePhysical(t, true) && x.op.Releasing? && x.op.disable)))
  }

  predicate SameHook(x: Target, y: Target) {
    && y.key == x.key && y.slot == x.slot && y.native == x.native
    && y.life == x.life && y.built == x.built && y.enabled == x.enabled
  }

  /** A target is there from its registration until it is collected; its hook is worked on only as told. */
  lemma HookIff(r: Registry, step: Step, t: nat)
    requires r.nextTarget !in r.targets && Enabled(r, step) && t in r.targets && step != Collect(t)
    ensures t in Apply(r, step).targets && HookAfter(step, t, r.targets[t], Apply(r, step).targets[t])
  {
    if step.AddPhysical? || step.Destroy? || step.RemovePhysical? || step.ReleasePhysical? {
      WorkHook(r, step, t);
    } else if step.NativeEnter? || step.NativeLeave? {
      NativeHook(r, step, t);
    } else {
      KeptHook(r, step, t);
    }
  }

  lemma WorkHook(r: Registry, step: Step, t: nat)
    requires Enabled(r, step) && t in r.targets
    requires step.AddPhysical? || step.Destroy? || step.RemovePhysical? || step.ReleasePhysical?
    ensures t in Apply(r, step).targets && HookAfter(step, t, r.targets[t], Apply(r, step).targets[t])
  {
  }

  lemma NativeHook(r: Registry, step: Step, t: nat)
    requires Enabled(r, step) && t in r.targets && (step.NativeEnter? || step.NativeLeave?)
    ensures t in Apply(r, step).targets && HookAfter(step, t, r.targets[t], Apply(r, step).targets[t])
  {
  }

  predicate Untouching(step: Step) {
    !(step.AddPhysical? || step.Destroy? || step.RemovePhysical? || step.ReleasePhysical? || step.NativeEnter? || step.NativeLeave?)
  }

  lemma KeptHook(r: Registry, step: Step, t: nat)
    requires r.nextTarget !in r.targets && Enabled(r, step) && t in r.targets && step != Collect(t) && Untouching(step)
    ensures t in Apply(r, step).targets && SameHook(r.targets[t], Apply(r, step).targets[t])
  {
    if step.ReleaseTarget? {
      ReleaseTargetHook(r, step, t);
    } else if step.ReleaseEnd? {
      ReleaseEndHook(r, step, t);
    } else if step.RemoveEnd? || step.AddEnd? {
      EndHook(r, step, t);
    } else if step.ReleaseBegin? {
      ReleaseBeginHook(r, step, t);
    } else {
      OtherHook(r, step, t);
    }
  }

  lemma PrunedHook(r: Registry, t: nat)
    requires t in r.targets
    ensures t in Pruned(r).targets && SameHook(r.targets[t], Pruned(r).targets[t])
  {
  }

  lemma ReleaseTargetHook(r: Registry, step: Step, t: nat)
    requires Enabled(r, step) && t in r.targets && step.ReleaseTarget?
    ensures t in Apply(r, step).targets && SameHook(r.targets[t], Apply(r, step).targets[t])
  {
    var x := r.targets[step.t];
    PrunedHook(SetTarget(r, step.t, x.(leases := x.leases - {step.p}, bindings := x.bindings - {step.p})), t);
  }

  lemma EndedHook(r: Registry, p: nat, t: nat)
    requires AllDone(r, p) && t in r.targets
    ensures t in ReleaseEnded(r, p).targets && SameHook(r.targets[t], ReleaseEnded(r, p).targets[t])
  {
  }

  lemma ReleaseEndHook(r: Registry, step: Step, t: nat)
    requires Enabled(r, step) && t in r.targets && step.ReleaseEnd?
    ensures t in Apply(r, step).targets && SameHook(r.targets[t], Apply(r, step).targets[t])
  {
    EndedHook(r, step.p, t);
    PrunedHook(ReleaseEnded(r, step.p), t);
  }

  lemma DoneHook(r: Registry, u: nat, cb: nat, t: nat)
    requires u in r.targets && t in r.targets
    ensures t in Dropped(r, u, cb).targets && SameHook(r.targets[t], Dropped(r, u, cb).targets[t])
    ensures t in Finished(r, u).targets && SameHook(r.targets[t], Finished(r, u).targets[t])
  {
  }

  lemma EndHook(r: Registry, step: Step, t: nat)
    requires Enabled(r, step) && t in r.targets && (step.RemoveEnd? || step.AddEnd?)
    ensures t in Apply(r, step).targets && SameHook(r.targets[t], Apply(r, step).targets[t])
  {
    var cb := r.targets[step.t].op.cb;
    DoneHook(r, step.t, cb, t);
    if step.RemoveEnd? && r.targets[step.t].op.stage.ok {
      PrunedHook(Dropped(r, step.t, cb), t);
    }
  }

  lemma ReleaseBeginHook(r: Registry, step: Step, t: nat)
    requires Enabled(r, step) && t in r.targets && step.ReleaseBegin?
    ensures t in Apply(r, step).targets && SameHook(r.targets[t], Apply(r, step).targets[t])
  {
  }

  lemma OtherHook(r: Registry, step: Step, t: nat)
    requires r.nextTarget !in r.targets && Enabled(r, step) && t in r.targets && step != Collect(t) && Untouching(step)
    requires !(step.ReleaseTarget? || step.ReleaseEnd? || step.RemoveEnd? || step.AddEnd? || step.ReleaseBegin?)
    ensures t in Apply(r, step).targets && SameHook(r.targets[t], Apply(r, step).targets[t])
  {
  }

  /** A new target is the key's and the slot's that were asked for, and not hooked. */
  lemma RegisteredIs(r: Registry, p: nat, key: Key, slot: nat, binding: nat)
    requires r.nextTarget !in r.targets && Enabled(r, Register(p, key, slot, binding)) && key !in r.byKey
    ensures var x := Apply(r, Register(p, key, slot, binding)).targets[r.nextTarget];
      x.key == key && x.slot == slot && x.listed && !x.enabled && !x.built && x.native == 0 && x.callbacks == {} && x.op == Free
  {
  }

  lemma CollectedIsGone(r: Registry, t: nat)
    requires Enabled(r, Collect(t))
    ensures t !in Apply(r, Collect(t)).targets
  {
  }

  // ---- one step, one transition ----

  /** An operation takes hold of the target: the first addition, a removal, or the release of a plugin that leases it. */
  predicate TakesHold(r: Registry, step: Step, t: nat)
    requires t in r.targets
  {
    || (step.AddBegin? && step.t == t && r.targets[t].callbacks == {})
    || (step.RemoveBegin? && step.cb in r.callbacks && r.callbacks[step.cb].target == t)
    || (step.ReleaseBegin? && step.p in r.targets[t].leases)
  }

  /** The operation that holds it ends. */
  predicate LetsGo(r: Registry, step: Step, t: nat)
    requires t in r.targets
  {
    step == AddEnd(t) || step == RemoveEnd(t) || (step.ReleaseEnd? && ReleasingFor(r.targets[t], step.p))
  }

  ghost predicate TransitionAfter(r: Registry, step: Step, t: nat, after: Registry)
    requires t in r.targets
  {
    t in after.targets && (after.targets[t].op != Free <==> TakesHold(r, step, t) || (r.targets[t].op != Free && !LetsGo(r, step, t)))
  }

  /** A target is in transition exactly while one operation has hold of it. */
  lemma TransitionIff(r: Registry, step: Step, t: nat)
    requires Safe(r) && Enabled(r, step) && t in r.targets && step != Collect(t)
    ensures TransitionAfter(r, step, t, Apply(r, step))
  {
    if step.ReleaseBegin? {
      assert Fine(r.targets[t]);
      ReleaseBeginTransition(r, step, t);
    } else if step.ReleaseTarget? {
      ReleaseTargetTransition(r, step, t);
    } else if step.RemoveEnd? {
      RemoveEndTransition(r, step, t);
    } else if step.ReleaseEnd? {
      ReleaseEndTransition(r, step, t);
    } else if step.AddBegin? || step.RemoveBegin? {
      BeginTransition(r, step, t);
    } else if step.AddEnd? {
      AddEndTransition(r, step, t);
    } else if step.AddPhysical? || step.RemovePhysical? || step.ReleasePhysical? {
      WorkTransition(r, step, t);
    } else if step.Invoke? || step.Return? || step.Register? {
      UseTransition(r, step, t);
    } else {
      OtherTransition(r, step, t);
    }
  }

  lemma TouchesLeased(r: Registry, p: nat, t: nat)
    requires Hooked(r.targets, r.callbacks, r.nextCallback) && t in r.targets && Fine(r.targets[t])
    ensures Touches(r, p, t) <==> p in r.targets[t].leases
  {
    if cb :| cb in r.targets[t].callbacks && Owns(r.callbacks, p, cb) {
      assert HookedOn(r.targets, cb, r.callbacks[cb]);
    }
  }

  lemma PrunedTransition(r: Registry, t: nat)
    requires t in r.targets
    ensures t in Pruned(r).targets && Pruned(r).targets[t].op == r.targets[t].op
  {
  }

  lemma ReleaseTargetTransition(r: Registry, step: Step, t: nat)
    requires Enabled(r, step) && t in r.targets && step.ReleaseTarget?
    ensures TransitionAfter(r, step, t, Apply(r, step))
  {
    var x := r.targets[step.t];
    PrunedTransition(SetTarget(r, step.t, x.(leases := x.leases - {step.p}, bindings := x.bindings - {step.p})), t);
  }

  lemma RemoveEndTransition(r: Registry, step: Step, t: nat)
    requires Enabled(r, step) && t in r.targets && step.RemoveEnd?
    ensures TransitionAfter(r, step, t, Apply(r, step))
  {
    if r.targets[step.t].op.stage.ok {
      PrunedTransition(Dropped(r, step.t, r.targets[step.t].op.cb), t);
    }
  }

  lemma ReleaseBeginTransition(r: Registry, step: Step, t: nat)
    requires Hooked(r.targets, r.callbacks, r.nextCallback)
    requires Enabled(r, step) && t in r.targets && Fine(r.targets[t]) && step.ReleaseBegin?
    ensures TransitionAfter(r, step, t, Apply(r, step))
  {
    TouchesLeased(r, step.p, t);
  }

  lemma ReleaseEndTransition(r: Registry, step: Step, t: nat)
    requires Enabled(r, step) && t in r.targets && step.ReleaseEnd?
    ensures TransitionAfter(r, step, t, Apply(r, step))
  {
    PrunedTransition(ReleaseEnded(r, step.p), t);
  }

  lemma BeginTransition(r: Registry, step: Step, t: nat)
    requires Enabled(r, step) && t in r.targets && (step.AddBegin? || step.RemoveBegin?)
    ensures TransitionAfter(r, step, t, Apply(r, step))
  {
  }

  lemma EndedTransition(r: Registry, u: nat, cb: nat, t: nat)
    requires u in r.targets && t in r.targets
    ensures t in Finished(r, u).targets && Finished(r, u).targets[t].op == if t == u then Free else r.targets[t].op
    ensures t in Dropped(r, u, cb).targets && Dropped(r, u, cb).targets[t].op == if t == u then Free else r.targets[t].op
  {
  }

  lemma AddEndTransition(r: Registry, step: Step, t: nat)
    requires Enabled(r, step) && t in r.targets && step.AddEnd?
    ensures TransitionAfter(r, step, t, Apply(r, step))
  {
    EndedTransition(r, step.t, r.targets[step.t].op.cb, t);
    assert step == AddEnd(t) <==> t == step.t;
  }

  lemma WorkTransition(r: Registry, step: Step, t: nat)
    requires Enabled(r, step) && t in r.targets && (step.AddPhysical? || step.RemovePhysical? || step.ReleasePhysical?)
    ensures TransitionAfter(r, step, t, Apply(r, step))
  {
  }

  lemma UseTransition(r: Registry, step: Step, t: nat)
    requires r.nextTarget !in r.targets && Enabled(r, step) && t in r.targets
    requires step.Invoke? || step.Return? || step.Register?
    ensures TransitionAfter(r, step, t, Apply(r, step))
  {
  }

  lemma OtherTransition(r: Registry, step: Step, t: nat)
    requires Enabled(r, step) && t in r.targets && step != Collect(t)
    requires step.Authorize? || step.Deactivate? || step.NativeEnter? || step.NativeLeave? || step.Destroy? || step.Collect?
    ensures TransitionAfter(r, step, t, Apply(r, step))
  {
  }
}
