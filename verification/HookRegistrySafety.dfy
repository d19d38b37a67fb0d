/**
  Every step keeps the registry and the physical hooks in agreement, under failed enables and
  disables and any interleaving of operations.
 */
module HookRegistrySafety {
  import opened HookRegistry

  // ---- one change at a time ----

  /** The record changes only in its operation, its native code or its counters. */
  predicate SameHold(x: Target, y: Target) {
    && x.key == y.key && x.slot == y.slot && x.listed == y.listed && x.leases == y.leases
    && x.callbacks == y.callbacks && x.direct == y.direct
  }

  lemma IndexedSteady(targets: map<nat, Target>, after: map<nat, Target>, byKey: map<Key, nat>, next: nat)
    requires Indexed(targets, byKey, next) && after.Keys == targets.Keys
    requires forall t :: t in after ==> Fine(after[t]) && after[t].listed == targets[t].listed && after[t].key == targets[t].key
    ensures Indexed(after, byKey, next)
  {
    assert forall t :: Lists(after, t) <==> Lists(targets, t);
  }

  lemma HookedSteady(targets: map<nat, Target>, after: map<nat, Target>, callbacks: map<nat, Callback>, next: nat)
    requires Hooked(targets, callbacks, next) && after.Keys == targets.Keys
    requires forall t :: t in after ==> after[t].callbacks == targets[t].callbacks
    requires forall cb :: cb in callbacks && HookedOn(targets, cb, callbacks[cb]) ==> HookedOn(after, cb, callbacks[cb])
    ensures Hooked(after, callbacks, next)
  {
  }

  lemma SeparateSteady(targets: map<nat, Target>, after: map<nat, Target>)
    requires Separate(targets)
    requires forall t :: Lists(after, t) ==> Lists(targets, t) && after[t].slot == targets[t].slot && after[t].key == targets[t].key
    ensures Separate(after)
  {
  }

  lemma HeldSteady(targets: map<nat, Target>, after: map<nat, Target>, calls: map<nat, Call>)
    requires Held(targets, calls) && after.Keys == targets.Keys
    requires forall t :: t in after ==> after[t].direct == targets[t].direct
    requires forall t :: t in after ==> after[t].life == targets[t].life || after[t].direct == 0
    ensures Held(after, calls)
  {
    forall c | c in calls
      ensures Holds(after, calls[c])
    {
      assert Holds(targets, calls[c]) && c in CallsOn(calls, calls[c].target);
    }
  }

  lemma PrunedIndexed(r: Registry)
    requires Indexed(r.targets, r.byKey, r.nextTarget)
    ensures Indexed(Pruned(r).targets, Pruned(r).byKey, r.nextTarget)
  {
    var s := Pruned(r);
    assert forall t :: Lists(s.targets, t) <==> Lists(r.targets, t) && !Unused(r.targets[t]);
    assert forall k :: k in s.byKey ==> Lists(r.targets, r.byKey[k]);
  }

  lemma PrunedWithdrawing(r: Registry)
    requires Withdrawing(r.targets, r.callbacks, r.releasing)
    ensures Withdrawing(Pruned(r).targets, r.callbacks, r.releasing)
  {
  }

  lemma PrunedHooked(r: Registry)
    requires Hooked(r.targets, r.callbacks, r.nextCallback)
    ensures Hooked(Pruned(r).targets, r.callbacks, r.nextCallback)
  {
    HookedSteady(r.targets, Pruned(r).targets, r.callbacks, r.nextCallback);
  }

  lemma PrunedSafe(r: Registry)
    requires Safe(r)
    ensures Safe(Pruned(r))
  {
    var s := Pruned(r);
    PrunedIndexed(r);
    PrunedHooked(r);
    PrunedWithdrawing(r);
    SeparateSteady(r.targets, s.targets);
    HeldSteady(r.targets, s.targets, r.calls);
  }

  /** The parts of `Safe` that only the records decide, when one record changes. */
  lemma SetTargets(r: Registry, t: nat, y: Target)
    requires Indexed(r.targets, r.byKey, r.nextTarget) && Separate(r.targets) && Held(r.targets, r.calls) && t in r.targets
    requires y.key == r.targets[t].key && y.slot == r.targets[t].slot && y.listed == r.targets[t].listed && Fine(y)
    requires y.direct == r.targets[t].direct && (y.life == r.targets[t].life || y.direct == 0)
    ensures Indexed(r.targets[t := y], r.byKey, r.nextTarget) && Separate(r.targets[t := y]) && Held(r.targets[t := y], r.calls)
  {
    var after := r.targets[t := y];
    IndexedSteady(r.targets, after, r.byKey, r.nextTarget);
    SeparateSteady(r.targets, after);
    HeldSteady(r.targets, after, r.calls);
  }

  lemma SetWithdrawing(r: Registry, t: nat, y: Target)
    requires Withdrawing(r.targets, r.callbacks, r.releasing) && t in r.targets && y.leases == r.targets[t].leases
    requires y.op.Releasing? ==> WithdrawnFrom(r.callbacks, r.releasing, y)
    requires r.targets[t].op.Releasing? ==> y.op.Releasing? && y.op.plugin == r.targets[t].op.plugin
    ensures Withdrawing(r.targets[t := y], r.callbacks, r.releasing)
  {
  }

  lemma SetSafe(r: Registry, t: nat, y: Target)
    requires Safe(r) && t in r.targets && SameHold(r.targets[t], y) && Fine(y)
    requires y.life == r.targets[t].life || y.direct == 0
    requires y.op.Releasing? ==> WithdrawnFrom(r.callbacks, r.releasing, y)
    requires r.targets[t].op.Releasing? ==> y.op.Releasing? && y.op.plugin == r.targets[t].op.plugin
    ensures Safe(SetTarget(r, t, y))
  {
    SetTargets(r, t, y);
    SetWithdrawing(r, t, y);
    LeasedHooked(r, t, y);
  }

  lemma DroppedSafe(r: Registry, t: nat, cb: nat)
    requires Safe(r) && t in r.targets && (r.targets[t].op.Adding? || r.targets[t].op.Removing?) && cb in r.targets[t].callbacks
    requires r.targets[t].listed && r.targets[t].enabled == (r.targets[t].callbacks != {cb})
    ensures Safe(Dropped(r, t, cb))
  {
    SetTargets(r, t, r.targets[t].(op := Free, callbacks := r.targets[t].callbacks - {cb}));
    DroppedHooked(r, t, cb);
    DroppedWithdrawing(r, t, cb);
  }

  lemma DroppedHooked(r: Registry, t: nat, cb: nat)
    requires Hooked(r.targets, r.callbacks, r.nextCallback) && t in r.targets && cb in r.targets[t].callbacks
    ensures Hooked(Dropped(r, t, cb).targets, Dropped(r, t, cb).callbacks, r.nextCallback)
  {
    var s := Dropped(r, t, cb);
    forall c | c in s.callbacks
      ensures HookedOn(s.targets, c, s.callbacks[c])
    {
      assert HookedOn(r.targets, c, r.callbacks[c]);
    }
    forall u, c | u in s.targets && c in s.targets[u].callbacks
      ensures c in s.callbacks && s.callbacks[c].target == u
    {
      assert c in r.targets[u].callbacks && c in r.callbacks && r.callbacks[c].target == u;
    }
  }

  lemma DroppedWithdrawing(r: Registry, t: nat, cb: nat)
    requires Hooked(r.targets, r.callbacks, r.nextCallback) && Withdrawing(r.targets, r.callbacks, r.releasing)
    requires t in r.targets && cb in r.targets[t].callbacks && !r.targets[t].op.Releasing?
    ensures Withdrawing(Dropped(r, t, cb).targets, Dropped(r, t, cb).callbacks, r.releasing)
  {
    var s := Dropped(r, t, cb);
    forall u | u in s.targets && s.targets[u].op.Releasing?
      ensures WithdrawnFrom(s.callbacks, r.releasing, s.targets[u])
    {
      assert cb in r.targets[u].callbacks ==> u == t;
      assert WithdrawnFrom(r.callbacks, r.releasing, r.targets[u]);
      OthersSteady(r.callbacks, s.callbacks, s.targets[u].callbacks, s.targets[u].op.plugin);
    }
    forall u, q | u in s.targets && q in r.releasing && q in s.targets[u].leases
      ensures ReleasingFor(s.targets[u], q)
    {
      assert ReleasingFor(r.targets[u], q);
    }
  }

  lemma OthersSteady(a: map<nat, Callback>, b: map<nat, Callback>, q: set<nat>, p: nat)
    requires forall cb :: cb in q ==> Owns(a, p, cb) == Owns(b, p, cb)
    ensures Others(a, q, p) == Others(b, q, p)
  {
  }

  // ---- leases and calls ----

  /** One record changes in nothing but its leases and its counter of calls. */
  lemma SetListed(r: Registry, t: nat, y: Target)
    requires Indexed(r.targets, r.byKey, r.nextTarget) && Separate(r.targets) && t in r.targets
    requires y.key == r.targets[t].key && y.slot == r.targets[t].slot && y.listed == r.targets[t].listed && Fine(y)
    ensures Indexed(r.targets[t := y], r.byKey, r.nextTarget) && Separate(r.targets[t := y])
  {
    IndexedSteady(r.targets, r.targets[t := y], r.byKey, r.nextTarget);
    SeparateSteady(r.targets, r.targets[t := y]);
  }

  lemma LeasedHooked(r: Registry, t: nat, y: Target)
    requires Hooked(r.targets, r.callbacks, r.nextCallback) && t in r.targets
    requires y.callbacks == r.targets[t].callbacks && y.listed == r.targets[t].listed
    requires forall cb :: cb in y.callbacks && cb in r.callbacks && r.callbacks[cb].owner in r.targets[t].leases ==> r.callbacks[cb].owner in y.leases
    ensures Hooked(r.targets[t := y], r.callbacks, r.nextCallback)
  {
    HookedSteady(r.targets, r.targets[t := y], r.callbacks, r.nextCallback);
  }

  lemma LeasedWithdrawing(r: Registry, t: nat, y: Target)
    requires Withdrawing(r.targets, r.callbacks, r.releasing) && t in r.targets
    requires y.callbacks == r.targets[t].callbacks && y.op == r.targets[t].op
    requires forall p :: p in y.leases && p in r.releasing ==> p in r.targets[t].leases
    ensures Withdrawing(r.targets[t := y], r.callbacks, r.releasing)
  {
  }

  lemma LeaseSafe(r: Registry, t: nat, y: Target)
    requires Safe(r) && t in r.targets && Fine(y)
    requires y.(leases := r.targets[t].leases, bindings := r.targets[t].bindings) == r.targets[t]
    requires forall cb :: cb in y.callbacks && cb in r.callbacks && r.callbacks[cb].owner in r.targets[t].leases ==> r.callbacks[cb].owner in y.leases
    requires forall p :: p in y.leases && p in r.releasing ==> p in r.targets[t].leases
    ensures Safe(SetTarget(r, t, y))
  {
    SetListed(r, t, y);
    LeasedHooked(r, t, y);
    LeasedWithdrawing(r, t, y);
    HeldSteady(r.targets, r.targets[t := y], r.calls);
  }

  lemma FreshIndexed(r: Registry, p: nat, key: Key, slot: nat, binding: nat)
    requires Indexed(r.targets, r.byKey, r.nextTarget) && key !in r.byKey
    ensures Indexed(r.targets[r.nextTarget := Fresh(key, slot, p, binding)], r.byKey[key := r.nextTarget], r.nextTarget + 1)
    ensures r.nextTarget !in r.targets
  {
    assert r.nextTarget !in r.targets;
  }

  lemma FreshHooked(r: Registry, t: nat, y: Target)
    requires Hooked(r.targets, r.callbacks, r.nextCallback) && t !in r.targets && y.callbacks == {}
    ensures Hooked(r.targets[t := y], r.callbacks, r.nextCallback)
  {
    forall cb | cb in r.callbacks
      ensures HookedOn(r.targets[t := y], cb, r.callbacks[cb])
    {
      assert HookedOn(r.targets, cb, r.callbacks[cb]);
    }
  }

  lemma FreshSeparate(r: Registry, t: nat, y: Target)
    requires Separate(r.targets) && !Conflict(r, y.slot, y.key.mechanism) && t !in r.targets
    ensures Separate(r.targets[t := y])
  {
    forall u | Lists(r.targets, u) && r.targets[u].slot == y.slot
      ensures !Clash(y.key.mechanism, r.targets[u].key.mechanism)
    {
      assert Listed(r, u);
    }
  }

  lemma FreshHeld(r: Registry, t: nat, y: Target)
    requires Held(r.targets, r.calls) && t !in r.targets && y.direct == 0
    ensures Held(r.targets[t := y], r.calls)
  {
    assert forall c :: c in r.calls ==> Holds(r.targets, r.calls[c]);
    assert CallsOn(r.calls, t) == {};
  }

  lemma FreshSafe(r: Registry, p: nat, key: Key, slot: nat, binding: nat)
    requires Safe(r) && p !in r.releasing && key !in r.byKey && !Conflict(r, slot, key.mechanism)
    ensures Safe(Registered(r, p, key, slot, binding))
  {
    var y := Fresh(key, slot, p, binding);
    FreshIndexed(r, p, key, slot, binding);
    FreshHooked(r, r.nextTarget, y);
    FreshSeparate(r, r.nextTarget, y);
    FreshHeld(r, r.nextTarget, y);
  }

  lemma AddBegunHooked(r: Registry, p: nat, t: nat)
    requires Hooked(r.targets, r.callbacks, r.nextCallback) && Listed(r, t) && p in r.targets[t].leases
    ensures Hooked(AddBegun(r, p, t).targets, AddBegun(r, p, t).callbacks, r.nextCallback + 1)
    ensures r.nextCallback !in r.callbacks && r.nextCallback !in r.targets[t].callbacks
  {
    var s := AddBegun(r, p, t);
    forall cb | cb in s.callbacks
      ensures HookedOn(s.targets, cb, s.callbacks[cb])
    {
      assert cb in r.callbacks ==> HookedOn(r.targets, cb, r.callbacks[cb]);
    }
    forall u, c | u in s.targets && c in s.targets[u].callbacks
      ensures c in s.callbacks && s.callbacks[c].target == u
    {
      assert c in r.targets[u].callbacks ==> c in r.callbacks && r.callbacks[c].target == u;
    }
  }

  lemma AddBegunWithdrawing(r: Registry, p: nat, t: nat)
    requires Hooked(r.targets, r.callbacks, r.nextCallback) && Withdrawing(r.targets, r.callbacks, r.releasing)
    requires t in r.targets && r.targets[t].op == Free
    ensures Withdrawing(AddBegun(r, p, t).targets, AddBegun(r, p, t).callbacks, r.releasing)
  {
    var s := AddBegun(r, p, t);
    forall u | u in s.targets && s.targets[u].op.Releasing?
      ensures WithdrawnFrom(s.callbacks, s.releasing, s.targets[u])
    {
      assert WithdrawnFrom(r.callbacks, r.releasing, r.targets[u]);
      OthersSteady(r.callbacks, s.callbacks, s.targets[u].callbacks, s.targets[u].op.plugin);
    }
    forall u, q | u in s.targets && q in r.releasing && q in s.targets[u].leases
      ensures ReleasingFor(s.targets[u], q)
    {
      assert ReleasingFor(r.targets[u], q);
    }
  }

  lemma AddBegunSafe(r: Registry, p: nat, t: nat)
    requires Safe(r) && Listed(r, t) && p in r.targets[t].leases && r.targets[t].op == Free && r.targets[t].direct == 0
    ensures Safe(AddBegun(r, p, t))
  {
    AddBegunHooked(r, p, t);
    AddBegunWithdrawing(r, p, t);
    SetTargets(r, t, AddBegun(r, p, t).targets[t]);
  }

  /** A call begins or ends: only the counter of its target and the table of calls change. */
  lemma CountedSafe(r: Registry, t: nat, y: Target, calls: map<nat, Call>)
    requires Safe(r) && t in r.targets && y == r.targets[t].(direct := y.direct) && !y.op.Adding?
    requires Held(r.targets[t := y], calls)
    ensures Safe(SetTarget(r, t, y).(calls := calls))
  {
    SetListed(r, t, y);
    LeasedHooked(r, t, y);
    LeasedWithdrawing(r, t, y);
  }

  lemma InvokedHeld(r: Registry, t: nat, y: Target, call: nat)
    requires Held(r.targets, r.calls) && t in r.targets && call !in r.calls
    requires y == r.targets[t].(direct := r.targets[t].direct + 1)
    ensures Held(r.targets[t := y], r.calls[call := Call(t, y.life)])
  {
    var calls := r.calls[call := Call(t, y.life)];
    assert CallsOn(calls, t) == CallsOn(r.calls, t) + {call};
    assert forall u :: u != t ==> CallsOn(calls, u) == CallsOn(r.calls, u);
    assert forall c :: c in r.calls ==> Holds(r.targets, r.calls[c]);
  }

  lemma ReturnedHeld(r: Registry, t: nat, y: Target, call: nat)
    requires Held(r.targets, r.calls) && call in r.calls && t == r.calls[call].target && t in r.targets
    requires r.targets[t].direct > 0 ==> y == r.targets[t].(direct := r.targets[t].direct - 1)
    ensures r.targets[t].direct > 0 && Held(r.targets[t := y], r.calls - {call})
  {
    var calls := r.calls - {call};
    assert call in CallsOn(r.calls, t);
    forall u | u in r.targets
      ensures r.targets[t := y][u].direct == |CallsOn(calls, u)|
    {
      assert CallsOn(calls, u) == if u == t then CallsOn(r.calls, u) - {call} else CallsOn(r.calls, u);
    }
    assert forall c :: c in r.calls ==> Holds(r.targets, r.calls[c]);
  }

  lemma CollectedIndexed(r: Registry, t: nat)
    requires Indexed(r.targets, r.byKey, r.nextTarget) && t in r.targets && !r.targets[t].listed
    ensures Indexed(r.targets - {t}, r.byKey, r.nextTarget)
  {
    assert forall u :: Lists(r.targets - {t}, u) <==> Lists(r.targets, u);
  }

  lemma CollectedHooked(r: Registry, t: nat)
    requires Hooked(r.targets, r.callbacks, r.nextCallback) && t in r.targets && !r.targets[t].listed
    ensures Hooked(r.targets - {t}, r.callbacks, r.nextCallback)
  {
    forall cb | cb in r.callbacks
      ensures HookedOn(r.targets - {t}, cb, r.callbacks[cb])
    {
      assert HookedOn(r.targets, cb, r.callbacks[cb]);
    }
  }

  lemma CollectedHeld(r: Registry, t: nat)
    requires Held(r.targets, r.calls) && t in r.targets && r.targets[t].direct == 0
    ensures Held(r.targets - {t}, r.calls)
  {
    forall c | c in r.calls
      ensures Holds(r.targets - {t}, r.calls[c])
    {
      assert Holds(r.targets, r.calls[c]) && c in CallsOn(r.calls, r.calls[c].target);
    }
  }

  lemma CollectSafe(r: Registry, t: nat)
    requires Safe(r) && t in r.targets && !r.targets[t].listed && r.targets[t].direct == 0
    ensures Safe(r.(targets := r.targets - {t}))
  {
    CollectedIndexed(r, t);
    CollectedHooked(r, t);
    CollectedHeld(r, t);
  }

  // ---- releasing a plugin ----

  lemma ReleaseBegunIndexed(r: Registry, p: nat)
    requires Indexed(r.targets, r.byKey, r.nextTarget) && forall t :: Touches(r, p, t) ==> r.targets[t].op == Free
    ensures Indexed(ReleaseBegun(r, p).targets, r.byKey, r.nextTarget)
  {
    IndexedSteady(r.targets, ReleaseBegun(r, p).targets, r.byKey, r.nextTarget);
  }

  lemma ReleaseBegunTakes(r: Registry, p: nat, u: nat)
    requires u in r.targets && ReleaseBegun(r, p).targets[u].op.Releasing?
    requires r.targets[u].op.Releasing? ==> WithdrawnFrom(r.callbacks, r.releasing, r.targets[u])
    ensures WithdrawnFrom(r.callbacks, r.releasing + {p}, ReleaseBegun(r, p).targets[u])
  {
    assert !Touches(r, p, u) ==> WithdrawnFrom(r.callbacks, r.releasing, r.targets[u]);
  }

  lemma ReleaseBegunTakesAll(r: Registry, p: nat, u: nat, q: nat)
    requires u in r.targets && Fine(r.targets[u]) && (Touches(r, p, u) ==> r.targets[u].op == Free)
    requires q in r.targets[u].leases && (q in r.releasing ==> ReleasingFor(r.targets[u], q)) && q in r.releasing + {p}
    ensures ReleasingFor(ReleaseBegun(r, p).targets[u], q)
  {
    assert q == p ==> Touches(r, p, u);
  }

  lemma ReleaseBegunWithdrawing(r: Registry, p: nat)
    requires Withdrawing(r.targets, r.callbacks, r.releasing) && forall t :: Touches(r, p, t) ==> r.targets[t].op == Free
    requires forall t :: t in r.targets ==> Fine(r.targets[t])
    ensures Withdrawing(ReleaseBegun(r, p).targets, r.callbacks, r.releasing + {p})
  {
    var s := ReleaseBegun(r, p);
    forall u | u in s.targets && s.targets[u].op.Releasing?
      ensures WithdrawnFrom(s.callbacks, s.releasing, s.targets[u])
    {
      ReleaseBegunTakes(r, p, u);
    }
    forall u, q | u in s.targets && q in s.releasing && q in s.targets[u].leases
      ensures ReleasingFor(s.targets[u], q)
    {
      ReleaseBegunTakesAll(r, p, u, q);
    }
  }

  lemma ReleaseBegunHooked(r: Registry, p: nat)
    requires Hooked(r.targets, r.callbacks, r.nextCallback)
    ensures Hooked(ReleaseBegun(r, p).targets, r.callbacks, r.nextCallback)
  {
    HookedSteady(r.targets, ReleaseBegun(r, p).targets, r.callbacks, r.nextCallback);
  }

  lemma ReleaseBegunHeld(r: Registry, p: nat)
    requires Separate(r.targets) && Held(r.targets, r.calls)
    ensures Separate(ReleaseBegun(r, p).targets) && Held(ReleaseBegun(r, p).targets, r.calls)
  {
    SeparateSteady(r.targets, ReleaseBegun(r, p).targets);
    HeldSteady(r.targets, ReleaseBegun(r, p).targets, r.calls);
  }

  lemma ReleaseBegunSafe(r: Registry, p: nat)
    requires Safe(r) && forall t :: Touches(r, p, t) ==> r.targets[t].op == Free
    ensures Safe(ReleaseBegun(r, p))
  {
    ReleaseBegunIndexed(r, p);
    ReleaseBegunHooked(r, p);
    ReleaseBegunHeld(r, p);
    ReleaseBegunWithdrawing(r, p);
  }

  lemma EndedFine(r: Registry, x: Target, p: nat)
    requires Fine(x) && (x.op.Releasing? ==> WithdrawnFrom(r.callbacks, r.releasing, x))
    requires ReleasingFor(x, p) ==> x.op.stage.Done?
    ensures Fine(Ended(r, x, p))
  {
  }

  ghost predicate AllDone(r: Registry, p: nat) {
    forall t :: t in r.targets && ReleasingFor(r.targets[t], p) ==> r.targets[t].op.stage.Done?
  }

  lemma ReleaseEndedIndexed(r: Registry, p: nat)
    requires Indexed(r.targets, r.byKey, r.nextTarget) && Withdrawing(r.targets, r.callbacks, r.releasing) && AllDone(r, p)
    ensures Indexed(ReleaseEnded(r, p).targets, r.byKey, r.nextTarget)
  {
    var s := ReleaseEnded(r, p);
    forall t | t in s.targets
      ensures Fine(s.targets[t]) && s.targets[t].listed == r.targets[t].listed && s.targets[t].key == r.targets[t].key
    {
      EndedFine(r, r.targets[t], p);
    }
    IndexedSteady(r.targets, s.targets, r.byKey, r.nextTarget);
  }

  lemma ReleaseEndedHooked(r: Registry, p: nat)
    requires Hooked(r.targets, r.callbacks, r.nextCallback) && AllDone(r, p)
    ensures Hooked(ReleaseEnded(r, p).targets, ReleaseEnded(r, p).callbacks, r.nextCallback)
  {
    var s := ReleaseEnded(r, p);
    forall cb | cb in s.callbacks
      ensures HookedOn(s.targets, cb, s.callbacks[cb])
    {
      assert HookedOn(r.targets, cb, r.callbacks[cb]) && !Goes(r, p, cb);
    }
  }

  lemma ReleaseEndedWithdrawing(r: Registry, p: nat)
    requires Hooked(r.targets, r.callbacks, r.nextCallback) && Withdrawing(r.targets, r.callbacks, r.releasing) && AllDone(r, p)
    ensures Withdrawing(ReleaseEnded(r, p).targets, ReleaseEnded(r, p).callbacks, r.releasing - {p})
  {
    var s := ReleaseEnded(r, p);
    forall u | u in s.targets && s.targets[u].op.Releasing?
      ensures WithdrawnFrom(s.callbacks, s.releasing, s.targets[u])
    {
      assert s.targets[u] == r.targets[u] && WithdrawnFrom(r.callbacks, r.releasing, r.targets[u]);
      forall cb | cb in r.targets[u].callbacks
        ensures Owns(r.callbacks, r.targets[u].op.plugin, cb) == Owns(s.callbacks, r.targets[u].op.plugin, cb)
      {
        assert r.callbacks[cb].target == u && !Goes(r, p, cb);
      }
      OthersSteady(r.callbacks, s.callbacks, s.targets[u].callbacks, s.targets[u].op.plugin);
    }
    forall u, q | u in s.targets && q in s.releasing && q in s.targets[u].leases
      ensures ReleasingFor(s.targets[u], q)
    {
      assert ReleasingFor(r.targets[u], q);
    }
  }

  lemma EndedKept(r: Registry, p: nat, t: nat)
    requires AllDone(r, p) && t in r.targets
    ensures var x, y := r.targets[t], ReleaseEnded(r, p).targets[t];
      x.slot == y.slot && x.key == y.key && x.listed == y.listed && x.direct == y.direct && x.life == y.life
  {
  }

  lemma ReleaseEndedSeparate(r: Registry, p: nat)
    requires Separate(r.targets) && AllDone(r, p)
    ensures Separate(ReleaseEnded(r, p).targets)
  {
    forall t | t in r.targets { EndedKept(r, p, t); }
    SeparateSteady(r.targets, ReleaseEnded(r, p).targets);
  }

  lemma ReleaseEndedHeld(r: Registry, p: nat)
    requires Held(r.targets, r.calls) && AllDone(r, p)
    ensures Held(ReleaseEnded(r, p).targets, r.calls)
  {
    forall t | t in r.targets { EndedKept(r, p, t); }
    HeldSteady(r.targets, ReleaseEnded(r, p).targets, r.calls);
  }

  lemma ReleaseEndedSafe(r: Registry, p: nat)
    requires Safe(r) && AllDone(r, p)
    ensures Safe(ReleaseEnded(r, p))
  {
    ReleaseEndedIndexed(r, p);
    ReleaseEndedHooked(r, p);
    ReleaseEndedSeparate(r, p);
    ReleaseEndedHeld(r, p);
    ReleaseEndedWithdrawing(r, p);
  }

  ghost predicate Leaseless(targets: map<nat, Target>, p: nat) {
    forall t :: t in targets ==> p !in targets[t].leases && p !in targets[t].bindings
  }

  lemma ReleaseEndedLeases(r: Registry, p: nat)
    requires p in r.releasing && AllDone(r, p) && AllRestored(r, p)
    requires Withdrawing(r.targets, r.callbacks, r.releasing) && forall t :: t in r.targets ==> Fine(r.targets[t])
    ensures Leaseless(ReleaseEnded(r, p).targets, p)
  {
    forall t | t in ReleaseEnded(r, p).targets
      ensures p !in ReleaseEnded(r, p).targets[t].leases && p !in ReleaseEnded(r, p).targets[t].bindings
    {
      assert p in r.targets[t].leases ==> ReleasingFor(r.targets[t], p);
      assert Fine(r.targets[t]);
    }
  }

  lemma NoLeaseNoCallback(targets: map<nat, Target>, callbacks: map<nat, Callback>, next: nat, p: nat)
    requires Hooked(targets, callbacks, next) && Leaseless(targets, p)
    ensures forall cb :: cb in callbacks ==> callbacks[cb].owner != p
  {
    assert forall cb :: cb in callbacks ==> HookedOn(targets, cb, callbacks[cb]);
  }

  lemma PrunedLeaseless(r: Registry, p: nat)
    requires Leaseless(r.targets, p)
    ensures Leaseless(Pruned(r).targets, p)
  {
  }

  /** A release that restored everything leaves the plugin nothing. */
  lemma ReleaseLeavesNothing(r: Registry, p: nat)
    requires Indexed(r.targets, r.byKey, r.nextTarget) && Hooked(r.targets, r.callbacks, r.nextCallback)
    requires Withdrawing(r.targets, r.callbacks, r.releasing)
    requires p in r.releasing && AllDone(r, p) && AllRestored(r, p)
    ensures var s := Apply(r, ReleaseEnd(p));
      && p !in s.owners && Leaseless(s.targets, p)
      && (forall cb :: cb in s.callbacks ==> s.callbacks[cb].owner != p)
  {
    var s := ReleaseEnded(r, p);
    ReleaseEndedLeases(r, p);
    PrunedLeaseless(s, p);
    NoLeaseNoCallback(s.targets, s.callbacks, s.nextCallback, p) by {
      ReleaseEndedHooked(r, p);
    }
  }

  // ---- every step, every run ----

  lemma RegisterSafe(r: Registry, p: nat, key: Key, slot: nat, binding: nat)
    requires Safe(r) && Enabled(r, Register(p, key, slot, binding))
    ensures Safe(Registered(r, p, key, slot, binding))
  {
    if key in r.byKey {
      var x := r.targets[r.byKey[key]];
      LeaseSafe(r, r.byKey[key], x.(leases := x.leases + {p}, bindings := x.bindings[p := binding]));
    } else {
      assert key.mechanism == Detour ==> !Conflict(r, slot, key.mechanism);
      FreshSafe(r, p, key, slot, binding);
    }
  }

  lemma UnleaseSafe(r: Registry, p: nat, t: nat)
    requires Safe(r) && Enabled(r, ReleaseTarget(p, t))
    ensures Safe(Apply(r, ReleaseTarget(p, t)))
  {
    var y := r.targets[t].(leases := r.targets[t].leases - {p}, bindings := r.targets[t].bindings - {p});
    LeaseSafe(r, t, y);
    PrunedSafe(SetTarget(r, t, y));
  }

  lemma InvokeSafe(r: Registry, p: nat, t: nat, call: nat)
    requires Safe(r) && Enabled(r, Invoke(p, t, call))
    ensures Safe(Apply(r, Invoke(p, t, call)))
  {
    var y := r.targets[t].(direct := r.targets[t].direct + 1);
    InvokedHeld(r, t, y, call);
    CountedSafe(r, t, y, r.calls[call := Call(t, y.life)]);
  }

  lemma ReturnSafe(r: Registry, call: nat)
    requires Safe(r) && Enabled(r, Return(call))
    ensures Safe(Apply(r, Return(call)))
  {
    var t := r.calls[call].target;
    var y := r.targets[t].(direct := if r.targets[t].direct == 0 then 0 else r.targets[t].direct - 1);
    ReturnedHeld(r, t, y, call);
    assert Fine(r.targets[t]);
    CountedSafe(r, t, y, r.calls - {call});
  }

  /** The steps that work on the physical hook, or begin or end an operation on one target. */
  predicate Physical(step: Step) {
    || step.AddPhysical? || step.AddEnd? || step.RemoveBegin? || step.RemovePhysical? || step.RemoveEnd?
    || step.ReleasePhysical? || step.NativeEnter? || step.NativeLeave? || step.Destroy?
  }

  lemma PhysicalSafe(r: Registry, step: Step)
    requires Safe(r) && Enabled(r, step) && Physical(step)
    ensures Safe(Apply(r, step))
  {
    if step.AddPhysical? || step.AddEnd? {
      AddSafe(r, step, step.t);
    } else if step.RemoveBegin? {
      RemoveBegunSafe(r, step.p, step.cb);
    } else if step.RemoveEnd? {
      RemoveEndedSafe(r, step.t);
    } else if step.RemovePhysical? || step.ReleasePhysical? {
      WorkSafe(r, step, step.t);
    } else {
      NativeStepSafe(r, step, step.t);
    }
  }

  lemma WorkSafe(r: Registry, step: Step, t: nat)
    requires Safe(r) && Enabled(r, step) && (step.RemovePhysical? || step.ReleasePhysical?) && step.t == t
    ensures Safe(Apply(r, step))
  {
    var x := r.targets[t];
    assert Fine(x);
    if step.RemovePhysical? {
      SetSafe(r, t, RemoveWorked(x, step.ok));
    } else {
      assert WithdrawnFrom(r.callbacks, r.releasing, x);
      SetSafe(r, t, ReleaseWorked(x, step.ok));
    }
  }

  lemma AddSafe(r: Registry, step: Step, t: nat)
    requires Safe(r) && Enabled(r, step)
    requires step == AddEnd(t) || (step.AddPhysical? && step.t == t)
    ensures Safe(Apply(r, step))
  {
    var x := r.targets[t];
    assert Fine(x);
    if step.AddPhysical? {
      SetSafe(r, t, AddWorked(x, step.ok, step.torn));
    } else if x.op.stage.ok {
      SetSafe(r, t, x.(op := Free));
    } else {
      DroppedSafe(r, t, x.op.cb);
    }
  }

  lemma RemoveBegunSafe(r: Registry, p: nat, cb: nat)
    requires Safe(r) && Enabled(r, RemoveBegin(p, cb))
    ensures Safe(Apply(r, RemoveBegin(p, cb)))
  {
    var t := r.callbacks[cb].target;
    var x := r.targets[t];
    assert HookedOn(r.targets, cb, r.callbacks[cb]) && Fine(x);
    OnlyElement(x.callbacks, cb);
    SetSafe(r, t, x.(op := Removing(cb, |x.callbacks| == 1, Begun)));
  }

  lemma OnlyElement(q: set<nat>, cb: nat)
    requires cb in q
    ensures |q| == 1 <==> q == {cb}
  {
    if |q| == 1 {
      assert |q - {cb}| == 0;
    }
  }

  lemma RemoveEndedSafe(r: Registry, t: nat)
    requires Safe(r) && Enabled(r, RemoveEnd(t))
    ensures Safe(Apply(r, RemoveEnd(t)))
  {
    var x := r.targets[t];
    assert Fine(x);
    if x.op.stage.ok {
      DroppedSafe(r, t, x.op.cb);
      PrunedSafe(Dropped(r, t, x.op.cb));
    } else {
      SetSafe(r, t, x.(op := Free));
    }
  }

  lemma NativeSafe(r: Registry, t: nat, y: Target)
    requires Safe(r) && t in r.targets
    requires y == r.targets[t].(native := y.native) || (y == Torn(r.targets[t]) && y.direct == 0)
    ensures Safe(SetTarget(r, t, y))
  {
    assert Fine(r.targets[t]);
    assert y.op.Releasing? ==> WithdrawnFrom(r.callbacks, r.releasing, r.targets[t]);
    SetSafe(r, t, y);
  }

  lemma NativeStepSafe(r: Registry, step: Step, t: nat)
    requires Safe(r) && Enabled(r, step) && (step == NativeEnter(t) || step == NativeLeave(t) || step == Destroy(t))
    ensures Safe(Apply(r, step))
  {
    NativeSafe(r, t, Apply(r, step).targets[t]);
  }

  lemma StepSafe(r: Registry, step: Step)
    requires Safe(r) && Enabled(r, step)
    ensures Safe(Apply(r, step))
  {
    if Physical(step) {
      PhysicalSafe(r, step);
    } else if OnPlugin(step) {
      PluginSafe(r, step);
    } else {
      UseSafe(r, step);
    }
  }

  /** The steps of a plugin's own life in the registry. */
  predicate OnPlugin(step: Step) {
    step.Authorize? || step.Deactivate? || step.ReleaseBegin? || step.ReleaseEnd?
  }

  lemma PluginSafe(r: Registry, step: Step)
    requires Safe(r) && Enabled(r, step) && OnPlugin(step)
    ensures Safe(Apply(r, step))
  {
    match step
    case Authorize(p) => OwnerSafe(r, p, true);
    case Deactivate(p) => OwnerSafe(r, p, false);
    case ReleaseBegin(p) => ReleaseBegunSafe(r, p);
    case ReleaseEnd(p) =>
      ReleaseEndedSafe(r, p);
      PrunedSafe(ReleaseEnded(r, p));
  }

  lemma UseSafe(r: Registry, step: Step)
    requires Safe(r) && Enabled(r, step) && !Physical(step) && !OnPlugin(step)
    ensures Safe(Apply(r, step))
  {
    match step
    case Register(p, key, slot, binding) => RegisterSafe(r, p, key, slot, binding);
    case ReleaseTarget(p, t) => UnleaseSafe(r, p, t);
    case AddBegin(p, t) => AddBegunSafe(r, p, t);
    case Invoke(p, t, call) => InvokeSafe(r, p, t, call);
    case Return(call) => ReturnSafe(r, call);
    case Collect(t) => CollectSafe(r, t);
  }

  lemma OwnerSafe(r: Registry, p: nat, active: bool)
    requires Safe(r) && if active then p !in r.releasing else p in r.owners
    ensures Safe(r.(owners := r.owners[p := active]))
  {
  }

  ghost predicate Legal(r: Registry, steps: seq<Step>)
    decreases |steps|
  {
    steps == [] || (Enabled(r, steps[0]) && Legal(Apply(r, steps[0]), steps[1..]))
  }

  ghost function After(r: Registry, steps: seq<Step>): Registry
    requires Legal(r, steps)
    decreases |steps|
  {
    if steps == [] then r else After(Apply(r, steps[0]), steps[1..])
  }

  lemma {:induction false} RunSafe(r: Registry, steps: seq<Step>)
    requires Safe(r) && Legal(r, steps)
    ensures Safe(After(r, steps))
    decreases |steps|
  {
    if steps != [] {
      StepSafe(r, steps[0]);
      RunSafe(Apply(r, steps[0]), steps[1..]);
    }
  }

  /** At most one target of a key is hooked, and a target at rest is hooked exactly when it has callbacks. */
  lemma OneHookPerKey(steps: seq<Step>, a: nat, b: nat)
    requires Legal(Initial, steps)
    requires a in After(Initial, steps).targets && b in After(Initial, steps).targets
    ensures var r := After(Initial, steps);
      && (r.targets[a].enabled && r.targets[b].enabled && r.targets[a].key == r.targets[b].key ==> a == b)
      && (r.targets[a].op == Free ==> r.targets[a].enabled == (r.targets[a].callbacks != {}))
      && (r.targets[a].enabled ==> r.targets[a].listed)
  {
    RunSafe(Initial, steps);
    var r := After(Initial, steps);
    assert Fine(r.targets[a]) && Fine(r.targets[b]);
    assert r.targets[a].enabled ==> Lists(r.targets, a);
    assert r.targets[b].enabled ==> Lists(r.targets, b);
  }

  /** Native code is torn down only when no direct call is on it and, but for a failed enable, no dispatch. */
  lemma TornWhenIdle(r: Registry, step: Step, t: nat)
    requires Indexed(r.targets, r.byKey, r.nextTarget) && Held(r.targets, r.calls)
    requires Enabled(r, step) && t in r.targets && t in Apply(r, step).targets
    requires Apply(r, step).targets[t].life != r.targets[t].life
    ensures r.targets[t].direct == 0 && CallsOn(r.calls, t) == {}
    ensures r.targets[t].native == 0 || (step.AddPhysical? && !step.ok)
  {
    if step.AddPhysical? || step.Destroy? {
      assert step.t == t && Fine(r.targets[t]);
      NoCalls(r, t);
    } else {
      LifeKept(r, step, t);
    }
  }

  lemma NoCalls(r: Registry, t: nat)
    requires Held(r.targets, r.calls) && t in r.targets
    ensures r.targets[t].direct == 0 ==> CallsOn(r.calls, t) == {}
  {
  }

  lemma LifeKept(r: Registry, step: Step, t: nat)
    requires Indexed(r.targets, r.byKey, r.nextTarget)
    requires Enabled(r, step) && t in r.targets && t in Apply(r, step).targets
    requires !step.AddPhysical? && !step.Destroy?
    ensures Apply(r, step).targets[t].life == r.targets[t].life
  {
    if step.ReleaseTarget? || step.RemoveEnd? || step.ReleaseEnd? {
      LifeKeptByRelease(r, step, t);
    } else if step.AddBegin? || step.RemoveBegin? || step.ReleaseBegin? {
      LifeKeptByBegin(r, step, t);
    } else if step.AddEnd? || step.RemovePhysical? || step.ReleasePhysical? {
      LifeKeptByWork(r, step, t);
    } else {
      LifeKeptByCalls(r, step, t);
    }
  }

  lemma PrunedLife(r: Registry, t: nat)
    requires t in r.targets
    ensures Pruned(r).targets[t].life == r.targets[t].life
  {
  }

  lemma LifeKeptByRelease(r: Registry, step: Step, t: nat)
    requires step.ReleaseTarget? || step.RemoveEnd? || step.ReleaseEnd?
    requires Enabled(r, step) && t in r.targets && t in Apply(r, step).targets
    ensures Apply(r, step).targets[t].life == r.targets[t].life
  {
    if step.ReleaseTarget? {
      var x := r.targets[step.t];
      PrunedLife(SetTarget(r, step.t, x.(leases := x.leases - {step.p}, bindings := x.bindings - {step.p})), t);
    } else if step.RemoveEnd? {
      PrunedLife(Dropped(r, step.t, r.targets[step.t].op.cb), t);
    } else {
      EndedKept(r, step.p, t);
      PrunedLife(ReleaseEnded(r, step.p), t);
    }
  }

  lemma LifeKeptByCalls(r: Registry, step: Step, t: nat)
    requires r.nextTarget !in r.targets
    requires step.Authorize? || step.Deactivate? || step.Register? || step.Invoke? || step.Return? || step.Collect? || step.NativeEnter? || step.NativeLeave?
    requires Enabled(r, step) && t in r.targets && t in Apply(r, step).targets
    ensures Apply(r, step).targets[t].life == r.targets[t].life
  {
  }

  lemma LifeKeptByBegin(r: Registry, step: Step, t: nat)
    requires step.AddBegin? || step.RemoveBegin? || step.ReleaseBegin?
    requires Enabled(r, step) && t in r.targets && t in Apply(r, step).targets
    ensures Apply(r, step).targets[t].life == r.targets[t].life
  {
  }

  lemma LifeKeptByWork(r: Registry, step: Step, t: nat)
    requires step.AddEnd? || step.RemovePhysical? || step.ReleasePhysical?
    requires Enabled(r, step) && t in r.targets && t in Apply(r, step).targets
    ensures Apply(r, step).targets[t].life == r.targets[t].life
  {
  }

  /** The native code a direct call chose stands until the call returns, whatever happens meanwhile. */
  lemma ChosenCodeStands(steps: seq<Step>, call: nat)
    requires Legal(Initial, steps) && call in After(Initial, steps).calls
    ensures var r := After(Initial, steps); Holds(r.targets, r.calls[call])
  {
    RunSafe(Initial, steps);
  }
}
