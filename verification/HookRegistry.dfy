/**
  Hook targets, their leases and callbacks, and the physical hooks below them. An operation gives up
  the registry lock to work on the physical hook, with the target marked as in transition; `op` says
  which operation that is and whether its physical part is done. Refused operations are no steps.
 */
module HookRegistry {
  datatype Mechanism = Detour | Virtual | VirtualInstance
  /** `slot` is the table cell of a virtual target, 0 for a detour. */
  datatype Key = Key(place: nat, index: nat, mechanism: Mechanism)

  datatype Stage = Begun | Done(ok: bool)
  datatype Op =
    | Free
    | Adding(cb: nat, stage: Stage)
    | Removing(cb: nat, last: bool, stage: Stage)
    | Releasing(plugin: nat, disable: bool, stage: Stage)

  /**
    `listed` is false once the target is retired. `built` says that native entry code exists, `life`
    counts how often it was torn down; `native` and `direct` are the calls under way. Callbacks are kept
    as a set: a dispatch sorts them by priority and sequence, so their place in the list has no effect.
   */
  datatype Target = Target(
    key: Key, slot: nat, listed: bool, leases: set<nat>, bindings: map<nat, nat>, callbacks: set<nat>, op: Op,
    enabled: bool, built: bool, life: nat, native: nat, direct: nat)

  datatype Callback = Callback(owner: nat, target: nat)
  /** A direct call under way and the native code it chose. */
  datatype Call = Call(target: nat, life: nat)

  datatype Registry = Registry(
    targets: map<nat, Target>, byKey: map<Key, nat>, callbacks: map<nat, Callback>, owners: map<nat, bool>,
    releasing: set<nat>, calls: map<nat, Call>, nextTarget: nat, nextCallback: nat)

  const Initial: Registry := Registry(map[], map[], map[], map[], {}, map[], 1, 1)

  datatype Step =
    | Authorize(p: nat) | Deactivate(p: nat)
    | Register(p: nat, key: Key, slot: nat, binding: nat)
    | ReleaseTarget(p: nat, t: nat)
    | AddBegin(p: nat, t: nat) | AddPhysical(t: nat, ok: bool, torn: bool) | AddEnd(t: nat)
    | RemoveBegin(p: nat, cb: nat) | RemovePhysical(t: nat, ok: bool) | RemoveEnd(t: nat)
    | ReleaseBegin(p: nat) | ReleasePhysical(t: nat, ok: bool) | ReleaseEnd(p: nat)
    | Invoke(p: nat, t: nat, call: nat) | Return(call: nat)
    | NativeEnter(t: nat) | NativeLeave(t: nat)
    | Destroy(t: nat) | Collect(t: nat)

  // ---- the tables ----

  predicate Listed(r: Registry, t: nat) {
    t in r.targets && r.targets[t].listed
  }

  predicate Ready(r: Registry, p: nat) {
    p in r.owners && r.owners[p]
  }

  predicate Owns(callbacks: map<nat, Callback>, p: nat, cb: nat) {
    cb in callbacks && callbacks[cb].owner == p
  }

  /** A shared and a per-instance virtual target on one table cell. */
  predicate Clash(a: Mechanism, b: Mechanism) {
    (a == Virtual && b == VirtualInstance) || (a == VirtualInstance && b == Virtual)
  }

  ghost predicate Conflict(r: Registry, slot: nat, mechanism: Mechanism) {
    exists t :: Listed(r, t) && r.targets[t].slot == slot && Clash(mechanism, r.targets[t].key.mechanism)
  }

  /** The plugin has a lease or a callback on the target. */
  ghost predicate Touches(r: Registry, p: nat, t: nat) {
    Listed(r, t) && (p in r.targets[t].leases || exists cb :: cb in r.targets[t].callbacks && Owns(r.callbacks, p, cb))
  }

  /** The callbacks that are not the plugin's. */
  function Others(callbacks: map<nat, Callback>, q: set<nat>, p: nat): set<nat> {
    set cb | cb in q && !Owns(callbacks, p, cb)
  }

  function Fresh(key: Key, slot: nat, p: nat, binding: nat): Target {
    Target(key, slot, true, {p}, map[p := binding], {}, Free, false, false, 0, 0, 0)
  }

  function SetTarget(r: Registry, t: nat, x: Target): Registry {
    r.(targets := r.targets[t := x])
  }

  predicate Unused(x: Target) {
    x.listed && x.op == Free && x.leases == {} && x.callbacks == {}
  }

  /** Unlist every target that nobody leases or hooks. */
  ghost function Pruned(r: Registry): Registry {
    r.(targets := map t | t in r.targets :: if Unused(r.targets[t]) then r.targets[t].(listed := false) else r.targets[t],
       byKey := map k | k in r.byKey && r.byKey[k] in r.targets && !Unused(r.targets[r.byKey[k]]) :: r.byKey[k])
  }

  // ---- the steps ----

  ghost predicate Enabled(r: Registry, step: Step) {
    match step
    case Authorize(p) => p !in r.releasing
    case Deactivate(p) => p in r.owners
    case Register(p, key, slot, _) =>
      && Ready(r, p)
      && (key.mechanism != Detour ==> !Conflict(r, slot, key.mechanism))
      && if key in r.byKey
         then r.byKey[key] in r.targets && r.targets[r.byKey[key]].op == Free
         else r.nextTarget != 0
    case ReleaseTarget(p, t) =>
      && p in r.owners && Listed(r, t) && p in r.targets[t].leases
      && r.targets[t].op == Free && r.targets[t].direct == 0
      && forall cb :: cb in r.targets[t].callbacks ==> !Owns(r.callbacks, p, cb)
    case AddBegin(p, t) =>
      && Ready(r, p) && Listed(r, t) && p in r.targets[t].leases
      && r.targets[t].op == Free && r.targets[t].direct == 0 && r.nextCallback != 0
    case AddPhysical(t, _, _) => t in r.targets && r.targets[t].op.Adding? && r.targets[t].op.stage == Begun
    case AddEnd(t) => t in r.targets && r.targets[t].op.Adding? && r.targets[t].op.stage.Done?
    case RemoveBegin(p, cb) =>
      && p in r.owners && Owns(r.callbacks, p, cb) && r.callbacks[cb].target in r.targets
      && r.targets[r.callbacks[cb].target].op == Free && r.targets[r.callbacks[cb].target].direct == 0
    case RemovePhysical(t, ok) =>
      && t in r.targets && r.targets[t].op.Removing? && r.targets[t].op.stage == Begun
      && (!r.targets[t].op.last ==> ok)
    case RemoveEnd(t) => t in r.targets && r.targets[t].op.Removing? && r.targets[t].op.stage.Done?
    case ReleaseBegin(p) => p in r.owners && p !in r.releasing && forall t :: Touches(r, p, t) ==> r.targets[t].op == Free
    case ReleasePhysical(t, ok) =>
      && t in r.targets && r.targets[t].op.Releasing? && r.targets[t].op.stage == Begun
      && (!r.targets[t].op.disable ==> ok)
    case ReleaseEnd(p) =>
      && p in r.releasing
      && forall t :: t in r.targets && ReleasingFor(r.targets[t], p) ==> r.targets[t].op.stage.Done?
    case Invoke(p, t, call) =>
      Ready(r, p) && Listed(r, t) && p in r.targets[t].leases && r.targets[t].op == Free && call !in r.calls
    case Return(call) => call in r.calls && r.calls[call].target in r.targets
    case NativeEnter(t) => t in r.targets && r.targets[t].built
    case NativeLeave(t) => t in r.targets && r.targets[t].native > 0
    case Destroy(t) =>
      t in r.targets && r.targets[t].native == 0 && r.targets[t].direct == 0 && !r.targets[t].enabled
    case Collect(t) => t in r.targets && !r.targets[t].listed && !r.targets[t].built && r.targets[t].direct == 0
  }

  predicate ReleasingFor(x: Target, p: nat) {
    x.op.Releasing? && x.op.plugin == p
  }

  ghost function Apply(r: Registry, step: Step): Registry
    requires Enabled(r, step)
  {
    match step
    case Authorize(p) => r.(owners := r.owners[p := true])
    case Deactivate(p) => r.(owners := r.owners[p := false])
    case Register(p, key, slot, binding) => Registered(r, p, key, slot, binding)
    case ReleaseTarget(p, t) =>
      Pruned(SetTarget(r, t, r.targets[t].(leases := r.targets[t].leases - {p}, bindings := r.targets[t].bindings - {p})))
    case AddBegin(p, t) => AddBegun(r, p, t)
    case AddPhysical(t, ok, torn) => SetTarget(r, t, AddWorked(r.targets[t], ok, torn))
    case AddEnd(t) => if r.targets[t].op.stage.ok then Finished(r, t) else Dropped(r, t, r.targets[t].op.cb)
    case RemoveBegin(_, cb) =>
      var x := r.targets[r.callbacks[cb].target];
      SetTarget(r, r.callbacks[cb].target, x.(op := Removing(cb, |x.callbacks| == 1, Begun)))
    case RemovePhysical(t, ok) => SetTarget(r, t, RemoveWorked(r.targets[t], ok))
    case RemoveEnd(t) => if r.targets[t].op.stage.ok then Pruned(Dropped(r, t, r.targets[t].op.cb)) else Finished(r, t)
    case ReleaseBegin(p) => ReleaseBegun(r, p)
    case ReleasePhysical(t, ok) => SetTarget(r, t, ReleaseWorked(r.targets[t], ok))
    case ReleaseEnd(p) => Pruned(ReleaseEnded(r, p))
    case Invoke(p, t, call) =>
      SetTarget(r, t, r.targets[t].(direct := r.targets[t].direct + 1)).(calls := r.calls[call := Call(t, r.targets[t].life)])
    case Return(call) =>
      var t := r.calls[call].target;
      SetTarget(r, t, r.targets[t].(direct := if r.targets[t].direct == 0 then 0 else r.targets[t].direct - 1)).(calls := r.calls - {call})
    case NativeEnter(t) => SetTarget(r, t, r.targets[t].(native := r.targets[t].native + 1))
    case NativeLeave(t) => SetTarget(r, t, r.targets[t].(native := r.targets[t].native - 1))
    case Destroy(t) => SetTarget(r, t, Torn(r.targets[t]))
    case Collect(t) => r.(targets := r.targets - {t})
  }

  function Torn(x: Target): Target {
    x.(built := false, life := x.life + 1)
  }

  function Registered(r: Registry, p: nat, key: Key, slot: nat, binding: nat): Registry
    requires key in r.byKey ==> r.byKey[key] in r.targets
  {
    if key in r.byKey then
      var x := r.targets[r.byKey[key]];
      SetTarget(r, r.byKey[key], x.(leases := x.leases + {p}, bindings := x.bindings[p := binding]))
    else
      r.(targets := r.targets[r.nextTarget := Fresh(key, slot, p, binding)], byKey := r.byKey[key := r.nextTarget],
         nextTarget := r.nextTarget + 1)
  }

  function AddBegun(r: Registry, p: nat, t: nat): Registry
    requires t in r.targets
  {
    var x := r.targets[t];
    var cb := r.nextCallback;
    SetTarget(r, t, x.(callbacks := x.callbacks + {cb}, op := if x.callbacks == {} then Adding(cb, Begun) else Free))
      .(callbacks := r.callbacks[cb := Callback(p, t)], nextCallback := cb + 1)
  }

  /** The physical hook is put in; a failure may tear down the entry code. */
  function AddWorked(x: Target, ok: bool, torn: bool): Target
    requires x.op.Adding?
  {
    var y := x.(op := Adding(x.op.cb, Done(ok)), enabled := ok);
    if ok then y.(built := true) else if torn then Torn(y) else y
  }

  /** The operation ends and its callback is forgotten. */
  function Dropped(r: Registry, t: nat, cb: nat): Registry
    requires t in r.targets
  {
    SetTarget(r, t, r.targets[t].(op := Free, callbacks := r.targets[t].callbacks - {cb})).(callbacks := r.callbacks - {cb})
  }

  function Finished(r: Registry, t: nat): Registry
    requires t in r.targets
  {
    SetTarget(r, t, r.targets[t].(op := Free))
  }

  function RemoveWorked(x: Target, ok: bool): Target
    requires x.op.Removing?
  {
    x.(op := Removing(x.op.cb, x.op.last, Done(ok)), enabled := x.enabled && !(x.op.last && ok))
  }

  ghost function ReleaseBegun(r: Registry, p: nat): Registry {
    r.(owners := r.owners[p := false], releasing := r.releasing + {p},
       targets := map t | t in r.targets ::
         if Touches(r, p, t) then
           var q := r.targets[t].callbacks;
           r.targets[t].(op := Releasing(p, q != {} && Others(r.callbacks, q, p) == {}, Begun))
         else r.targets[t])
  }

  function ReleaseWorked(x: Target, ok: bool): Target
    requires x.op.Releasing?
  {
    x.(op := Releasing(x.op.plugin, x.op.disable, Done(ok)), enabled := x.enabled && !(x.op.disable && ok))
  }

  function Ended(r: Registry, x: Target, p: nat): Target
    requires ReleasingFor(x, p) ==> x.op.stage.Done?
  {
    if !ReleasingFor(x, p) then x
    else if !x.op.stage.ok then x.(op := Free)
    else x.(op := Free, leases := x.leases - {p}, bindings := x.bindings - {p}, callbacks := Others(r.callbacks, x.callbacks, p))
  }

  /** A callback that goes with its plugin: its target could be restored. */
  predicate Goes(r: Registry, p: nat, cb: nat) {
    && Owns(r.callbacks, p, cb) && r.callbacks[cb].target in r.targets
    && ReleasingFor(r.targets[r.callbacks[cb].target], p) && r.targets[r.callbacks[cb].target].op.stage == Done(true)
  }

  ghost predicate AllRestored(r: Registry, p: nat) {
    forall t :: t in r.targets && ReleasingFor(r.targets[t], p) ==> r.targets[t].op.stage == Done(true)
  }

  ghost function ReleaseEnded(r: Registry, p: nat): Registry
    requires forall t :: t in r.targets && ReleasingFor(r.targets[t], p) ==> r.targets[t].op.stage.Done?
  {
    r.(targets := map t | t in r.targets :: Ended(r, r.targets[t], p),
       callbacks := map cb | cb in r.callbacks && !Goes(r, p, cb) :: r.callbacks[cb],
       owners := if AllRestored(r, p) then r.owners - {p} else r.owners, releasing := r.releasing - {p})
  }

  // ---- what every step keeps ----

  /** The physical hook follows the callback list. */
  predicate Agrees(x: Target) {
    match x.op
    case Free => x.enabled == (x.callbacks != {})
    case Adding(cb, stage) =>
      x.callbacks == {cb} && x.direct == 0 && x.enabled == (stage == Done(true))
    case Removing(cb, last, stage) =>
      cb in x.callbacks && last == (x.callbacks == {cb}) && (!last ==> stage != Done(false))
      && x.enabled == !(last && stage == Done(true))
    case Releasing(_, disable, stage) =>
      (disable ==> x.callbacks != {}) && (!disable ==> stage != Done(false))
      && x.enabled == (x.callbacks != {} && !(disable && stage == Done(true)))
  }

  predicate Fine(x: Target) {
    && Agrees(x) && x.bindings.Keys == x.leases
    && (!x.listed ==> x.op == Free && x.leases == {} && x.callbacks == {})
  }

  predicate Lists(targets: map<nat, Target>, t: nat) {
    t in targets && targets[t].listed
  }

  /** One listed target per key, and every record in order. */
  ghost predicate Indexed(targets: map<nat, Target>, byKey: map<Key, nat>, next: nat) {
    && (forall k :: k in byKey ==> Lists(targets, byKey[k]) && targets[byKey[k]].key == k)
    && (forall t :: Lists(targets, t) ==> targets[t].key in byKey && byKey[targets[t].key] == t)
    && (forall t :: t in targets ==> t < next && Fine(targets[t]))
  }

  predicate HookedOn(targets: map<nat, Target>, cb: nat, c: Callback) {
    Lists(targets, c.target) && cb in targets[c.target].callbacks && c.owner in targets[c.target].leases
  }

  /** Each callback is in exactly one list, its target's, and its owner leases that target. */
  ghost predicate Hooked(targets: map<nat, Target>, callbacks: map<nat, Callback>, next: nat) {
    && (forall cb :: cb in callbacks ==> cb < next && HookedOn(targets, cb, callbacks[cb]))
    && (forall t, cb :: t in targets && cb in targets[t].callbacks ==> cb in callbacks && callbacks[cb].target == t)
  }

  ghost predicate Separate(targets: map<nat, Target>) {
    forall a, b :: (Lists(targets, a) && Lists(targets, b) && targets[a].slot == targets[b].slot)
      ==> !Clash(targets[a].key.mechanism, targets[b].key.mechanism)
  }

  predicate WithdrawnFrom(callbacks: map<nat, Callback>, releasing: set<nat>, x: Target)
    requires x.op.Releasing?
  {
    x.op.plugin in releasing && x.op.disable == (x.callbacks != {} && Others(callbacks, x.callbacks, x.op.plugin) == {})
  }

  /** What a release under way took hold of is all the plugin has. */
  ghost predicate Withdrawing(targets: map<nat, Target>, callbacks: map<nat, Callback>, releasing: set<nat>) {
    && (forall t :: t in targets && targets[t].op.Releasing? ==> WithdrawnFrom(callbacks, releasing, targets[t]))
    && (forall t, p :: t in targets && p in releasing && p in targets[t].leases ==> ReleasingFor(targets[t], p))
  }

  /** A plugin being released takes on nothing new. */
  ghost predicate Closing(owners: map<nat, bool>, releasing: set<nat>) {
    forall p :: p in releasing ==> p in owners && !owners[p]
  }

  function CallsOn(calls: map<nat, Call>, t: nat): set<nat> {
    set c | c in calls && calls[c].target == t
  }

  predicate Holds(targets: map<nat, Target>, c: Call) {
    c.target in targets && c.life == targets[c.target].life
  }

  /** The code a direct call chose is still there, and the calls are counted right. */
  ghost predicate Held(targets: map<nat, Target>, calls: map<nat, Call>) {
    && (forall c :: c in calls ==> Holds(targets, calls[c]))
    && (forall t :: t in targets ==> targets[t].direct == |CallsOn(calls, t)|)
  }

  ghost predicate Safe(r: Registry) {
    && Indexed(r.targets, r.byKey, r.nextTarget) && Hooked(r.targets, r.callbacks, r.nextCallback) && Separate(r.targets)
    && Withdrawing(r.targets, r.callbacks, r.releasing) && Closing(r.owners, r.releasing) && Held(r.targets, r.calls)
  }
}
