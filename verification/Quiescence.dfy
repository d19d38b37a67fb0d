/**
  How a service makes sure that no callback of a plugin runs: a flag and a counter per subscription,
  checked by every dispatch on every thread, and waited on by whoever deactivates the plugin. Threads
  interleave at every access to a flag or counter.
 */
module Quiescence {
  const MAX_CALLBACK_DEPTH: nat := 64

  /** `listed` is false once the subscription is gone from the table; dispatches may still hold it. */
  datatype Subscription = Subscription(owner: nat, listed: bool, enabled: bool, active: nat)

  /** What a thread is in the middle of; nested calls stack up, the innermost last. */
  datatype Frame =
    | Dispatching(rest: seq<nat>)
    | Entered(callback: nat)
    | Running(callback: nat)
    | Deactivating(plugin: nat, owned: set<nat>)
    | Unsubscribing(callback: nat)

  /** `quiet`: the plugins whose deactivation returned OK and whose dispatch was not restored since. */
  datatype Service = Service(
    subs: map<nat, Subscription>, threads: map<nat, seq<Frame>>, accepting: set<nat>, quiet: set<nat>, next: nat)

  const Initial: Service := Service(map[], map[], {}, {}, 1)

  datatype Step =
    | Open(p: nat) | Close(p: nat) | Restore(p: nat)
    | Subscribe(p: nat, enabled: bool)
    | Snapshot(t: nat, queue: seq<nat>) | Enter(t: nat) | Check(t: nat) | Finish(t: nat) | EndDispatch(t: nat)
    | DeactivateBegin(t: nat, p: nat) | DeactivateWait(t: nat, c: nat) | DeactivateEnd(t: nat)
    | UnsubscribeBegin(t: nat, p: nat, c: nat) | UnsubscribeEnd(t: nat)
    | Erase(p: nat)

  // ---- stacks ----

  function Stack(s: Service, t: nat): seq<Frame> {
    if t in s.threads then s.threads[t] else []
  }

  function Push(s: Service, t: nat, f: Frame): Service {
    s.(threads := s.threads[t := Stack(s, t) + [f]])
  }

  predicate Top(s: Service, t: nat) {
    t in s.threads && s.threads[t] != []
  }

  function TopOf(s: Service, t: nat): Frame
    requires Top(s, t)
  {
    s.threads[t][|s.threads[t]| - 1]
  }

  function Pop(s: Service, t: nat): Service
    requires Top(s, t)
  {
    s.(threads := s.threads[t := s.threads[t][..|s.threads[t]| - 1]])
  }

  predicate HoldsCounter(f: Frame, c: nat) {
    f == Entered(c) || f == Running(c)
  }

  /** The thread is inside a callback of the plugin, or inside this very callback. */
  predicate InsideOwner(s: Service, t: nat, p: nat) {
    exists i :: 0 <= i < |Stack(s, t)| && Stack(s, t)[i].Running? && Stack(s, t)[i].callback in s.subs
      && s.subs[Stack(s, t)[i].callback].owner == p
  }

  predicate InsideCallback(s: Service, t: nat, c: nat) {
    Running(c) in Stack(s, t)
  }

  function Depth(stack: seq<Frame>): nat {
    if stack == [] then 0 else (if stack[0].Running? then 1 else 0) + Depth(stack[1..])
  }

  function SetSub(s: Service, c: nat, x: Subscription): Service {
    s.(subs := s.subs[c := x])
  }

  /** Every listed subscription of the plugin switched on or off. */
  function Switched(subs: map<nat, Subscription>, p: nat, enabled: bool): map<nat, Subscription> {
    map c | c in subs :: if subs[c].listed && subs[c].owner == p then subs[c].(enabled := enabled) else subs[c]
  }

  /**
    The plugin's subscriptions are taken off the table: the second half of a release, after its
    deactivation. The host lets nobody restore the plugin's dispatch in between.
   */
  function Erased(subs: map<nat, Subscription>, p: nat): map<nat, Subscription> {
    map c | c in subs :: if subs[c].owner == p then subs[c].(listed := false) else subs[c]
  }

  function Owned(subs: map<nat, Subscription>, p: nat): set<nat> {
    set c | c in subs && subs[c].listed && subs[c].owner == p
  }

  /** No thread is in the middle of deactivating the plugin; the host runs one transition of a plugin at a time. */
  predicate Settled(s: Service, p: nat) {
    forall t :: t in s.threads ==> forall i :: 0 <= i < |s.threads[t]| ==>
      !(s.threads[t][i].Deactivating? && s.threads[t][i].plugin == p)
  }

  // ---- the steps ----

  ghost predicate Enabled(s: Service, step: Step) {
    match step
    case Open(p) => Settled(s, p)
    case Close(_) => true
    case Restore(p) => Settled(s, p)
    case Subscribe(p, _) => p in s.accepting
    case Snapshot(t, queue) => !Busy(s, t) && forall c :: c in queue ==> c in s.subs && s.subs[c].listed && s.subs[c].enabled
    case Enter(t) => Top(s, t) && TopOf(s, t).Dispatching? && TopOf(s, t).rest != [] && TopOf(s, t).rest[0] in s.subs
    case Check(t) => Top(s, t) && TopOf(s, t).Entered? && TopOf(s, t).callback in s.subs
    case Finish(t) => Top(s, t) && TopOf(s, t).Running? && TopOf(s, t).callback in s.subs
    case EndDispatch(t) => Top(s, t) && TopOf(s, t) == Dispatching([])
    case DeactivateBegin(t, p) => p !in s.accepting && !InsideOwner(s, t, p) && !Busy(s, t)
    case DeactivateWait(t, c) =>
      Top(s, t) && TopOf(s, t).Deactivating? && c in TopOf(s, t).owned && c in s.subs && s.subs[c].active == 0
    case DeactivateEnd(t) => Top(s, t) && TopOf(s, t).Deactivating? && TopOf(s, t).owned == {}
    case UnsubscribeBegin(t, p, c) => c in s.subs && s.subs[c].listed && s.subs[c].owner == p && !Busy(s, t)
    case UnsubscribeEnd(t) =>
      Top(s, t) && TopOf(s, t).Unsubscribing? && TopOf(s, t).callback in s.subs && s.subs[TopOf(s, t).callback].active == 0
    case Erase(p) => p in s.quiet
  }

  /** Between taking a counter and looking at the flag, or while waiting, a thread makes no other call. */
  predicate Busy(s: Service, t: nat) {
    Top(s, t) && (TopOf(s, t).Entered? || TopOf(s, t).Deactivating? || TopOf(s, t).Unsubscribing?)
  }

  ghost function Apply(s: Service, step: Step): Service
    requires Enabled(s, step)
  {
    match step
    case Open(p) => s.(accepting := s.accepting + {p}, quiet := s.quiet - {p})
    case Close(p) => s.(accepting := s.accepting - {p})
    case Restore(p) =>
      s.(accepting := s.accepting + {p}, quiet := s.quiet - {p}, subs := Switched(s.subs, p, true))
    case Subscribe(p, enabled) =>
      s.(subs := s.subs[s.next := Subscription(p, true, enabled, 0)], next := s.next + 1)
    case Snapshot(t, queue) => Push(s, t, Dispatching(queue))
    case Enter(t) =>
      var rest := TopOf(s, t).rest;
      var x := s.subs[rest[0]];
      SetSub(Push(Push(Pop(s, t), t, Dispatching(rest[1..])), t, Entered(rest[0])), rest[0], x.(active := x.active + 1))
    case Check(t) =>
      var c := TopOf(s, t).callback;
      if s.subs[c].enabled && Depth(s.threads[t]) < MAX_CALLBACK_DEPTH then Push(Pop(s, t), t, Running(c))
      else Left(Pop(s, t), c)
    case Finish(t) => Left(Pop(s, t), TopOf(s, t).callback)
    case EndDispatch(t) => Pop(s, t)
    case DeactivateBegin(t, p) =>
      Push(s.(subs := Switched(s.subs, p, false)), t, Deactivating(p, Owned(s.subs, p)))
    case DeactivateWait(t, c) =>
      Push(Pop(s, t), t, Deactivating(TopOf(s, t).plugin, TopOf(s, t).owned - {c}))
    case DeactivateEnd(t) => Pop(s, t).(quiet := s.quiet + {TopOf(s, t).plugin})
    case UnsubscribeBegin(t, p, c) =>
      var off := SetSub(s, c, s.subs[c].(enabled := false));
      if InsideCallback(s, t, c) then off else Push(off, t, Unsubscribing(c))
    case UnsubscribeEnd(t) =>
      var c := TopOf(s, t).callback;
      SetSub(Pop(s, t), c, s.subs[c].(listed := false))
    case Erase(p) => s.(subs := Erased(s.subs, p))
  }

  /** A counter is given back. */
  function Left(s: Service, c: nat): Service
    requires c in s.subs
  {
    SetSub(s, c, s.subs[c].(active := if s.subs[c].active == 0 then 0 else s.subs[c].active - 1))
  }

  // ---- what every step keeps ----

  /** The places on all stacks that hold the counter of `c`. */
  function Holders(threads: map<nat, seq<Frame>>, c: nat): set<(int, int)> {
    set t, i | t in threads && 0 <= i < |threads[t]| && HoldsCounter(threads[t][i], c) :: (t, i)
  }

  ghost predicate Counted(subs: map<nat, Subscription>, threads: map<nat, seq<Frame>>) {
    forall c :: c in subs ==> subs[c].active == |Holders(threads, c)|
  }

  /** Frames refer to known subscriptions, and only the innermost frame can be undecided or waiting. */
  predicate GoodStack(subs: map<nat, Subscription>, stack: seq<Frame>) {
    forall i :: 0 <= i < |stack| ==> GoodFrame(subs, stack[i]) && (i < |stack| - 1 ==> stack[i].Dispatching? || stack[i].Running?)
  }

  predicate GoodFrame(subs: map<nat, Subscription>, f: Frame) {
    match f
    case Dispatching(rest) => forall c :: c in rest ==> c in subs
    case Entered(c) => c in subs
    case Running(c) => c in subs
    case Deactivating(p, owned) => forall c :: c in owned ==> c in subs && subs[c].owner == p
    case Unsubscribing(c) => c in subs
  }

  ghost predicate WellFormed(s: Service) {
    && (forall t :: t in s.threads ==> GoodStack(s.subs, s.threads[t]))
    && (forall c :: c in s.subs ==> c < s.next)
  }

  predicate RunsIn(threads: map<nat, seq<Frame>>, c: nat) {
    exists t :: t in threads && Running(c) in threads[t]
  }

  /** What is gone from the table is off, and its callback does not run. */
  ghost predicate GoneIsOff(subs: map<nat, Subscription>, threads: map<nat, seq<Frame>>) {
    forall c :: c in subs && !subs[c].listed ==> !subs[c].enabled && !RunsIn(threads, c)
  }

  /** A plugin being deactivated takes on nothing, all its subscriptions are off, and those not waited for do not run. */
  ghost predicate Draining(s: Service) {
    forall t :: Top(s, t) && TopOf(s, t).Deactivating? ==>
      && TopOf(s, t).plugin !in s.accepting
      && Silent(s, TopOf(s, t).plugin, TopOf(s, t).owned)
  }

  /** All subscriptions of `p` are off, and none but those of `except` runs. */
  ghost predicate Silent(s: Service, p: nat, except: set<nat>) {
    forall c :: c in s.subs && s.subs[c].owner == p ==> !s.subs[c].enabled && (c in except || !RunsIn(s.threads, c))
  }

  ghost predicate QuietIsSilent(s: Service) {
    forall p :: p in s.quiet ==> p !in s.accepting && Silent(s, p, {})
  }

  /** A thread does not hold what it waits for. */
  ghost predicate NeverSelfWaits(s: Service) {
    forall t :: Top(s, t) ==>
      && (TopOf(s, t).Deactivating? ==> !InsideOwner(s, t, TopOf(s, t).plugin))
      && (TopOf(s, t).Unsubscribing? ==> !InsideCallback(s, t, TopOf(s, t).callback))
  }

  ghost predicate Safe(s: Service) {
    && WellFormed(s) && Counted(s.subs, s.threads) && GoneIsOff(s.subs, s.threads)
    && Draining(s) && QuietIsSilent(s) && NeverSelfWaits(s)
  }
}
