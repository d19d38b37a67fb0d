/**
  The quiescence handshake over every interleaving of threads.
 */
module QuiescenceSafety {
  import opened Quiescence

  // ---- stacks and counters ----

  lemma HoldersPush(threads: map<nat, seq<Frame>>, t: nat, stack: seq<Frame>, f: Frame, c: nat)
    requires stack == if t in threads then threads[t] else []
    ensures var more: set<(int, int)> := if HoldsCounter(f, c) then {(t, |stack|)} else {};
      Holders(threads[t := stack + [f]], c) == Holders(threads, c) + more && more !! Holders(threads, c)
  {
    var after := threads[t := stack + [f]];
    var more: set<(int, int)> := if HoldsCounter(f, c) then {(t, |stack|)} else {};
    forall x | x in Holders(after, c)
      ensures x in Holders(threads, c) + more
    {
    }
    forall x | x in Holders(threads, c) + more
      ensures x in Holders(after, c)
    {
      assert after[x.0][x.1] == if x in more then f else threads[x.0][x.1];
    }
  }

  lemma HoldersPop(threads: map<nat, seq<Frame>>, t: nat, c: nat)
    requires t in threads && threads[t] != []
    ensures var top := threads[t][|threads[t]| - 1];
      var less: set<(int, int)> := if HoldsCounter(top, c) then {(t, |threads[t]| - 1)} else {};
      Holders(threads[t := threads[t][..|threads[t]| - 1]], c) == Holders(threads, c) - less && less <= Holders(threads, c)
  {
    var after := threads[t := threads[t][..|threads[t]| - 1]];
    var n := |threads[t]| - 1;
    forall x | x in Holders(threads, c) && x != (t, n)
      ensures x in Holders(after, c)
    {
      assert after[x.0][x.1] == threads[x.0][x.1];
    }
    forall x | x in Holders(after, c)
      ensures x in Holders(threads, c) && x != (t, n)
    {
      assert after[x.0][x.1] == threads[x.0][x.1];
    }
  }

  /** A frame that holds no counter comes and goes without touching any. */
  lemma CountedPush(s: Service, t: nat, f: Frame)
    requires Counted(s.subs, s.threads) && (f.Entered? || f.Running? ==> f.callback !in s.subs)
    ensures Counted(s.subs, Push(s, t, f).threads)
  {
    forall c | c in s.subs
      ensures s.subs[c].active == |Holders(Push(s, t, f).threads, c)|
    {
      HoldersPush(s.threads, t, Stack(s, t), f, c);
    }
  }

  lemma CountedPop(s: Service, t: nat)
    requires Counted(s.subs, s.threads) && Top(s, t) && !TopOf(s, t).Entered? && !TopOf(s, t).Running?
    ensures Counted(s.subs, Pop(s, t).threads)
  {
    forall c | c in s.subs
      ensures s.subs[c].active == |Holders(Pop(s, t).threads, c)|
    {
      HoldersPop(s.threads, t, c);
    }
  }

  lemma CountedTake(s: Service, t: nat, c: nat)
    requires Counted(s.subs, s.threads) && c in s.subs
    ensures var after := SetSub(Push(s, t, Entered(c)), c, s.subs[c].(active := s.subs[c].active + 1));
      Counted(after.subs, after.threads)
  {
    var after := SetSub(Push(s, t, Entered(c)), c, s.subs[c].(active := s.subs[c].active + 1));
    forall d | d in s.subs
      ensures after.subs[d].active == |Holders(after.threads, d)|
    {
      HoldersPush(s.threads, t, Stack(s, t), Entered(c), d);
    }
  }

  lemma HoldersLeave(threads: map<nat, seq<Frame>>, t: nat, c: nat, d: nat)
    requires t in threads && threads[t] != [] && HoldsCounter(threads[t][|threads[t]| - 1], c)
    ensures |Holders(threads, d)| - (if c == d then 1 else 0) == |Holders(threads[t := threads[t][..|threads[t]| - 1]], d)|
  {
    HoldersPop(threads, t, d);
    assert c == d ==> (t, |threads[t]| - 1) in Holders(threads, d);
  }

  lemma CountedLeave(s: Service, t: nat, c: nat)
    requires Counted(s.subs, s.threads) && c in s.subs && Top(s, t) && HoldsCounter(TopOf(s, t), c)
    ensures Counted(Left(Pop(s, t), c).subs, Left(Pop(s, t), c).threads)
  {
    var after := Left(Pop(s, t), c);
    forall d | d in s.subs
      ensures after.subs[d].active == |Holders(after.threads, d)|
    {
      HoldersLeave(s.threads, t, c, d);
    }
  }

  lemma HoldersRun(threads: map<nat, seq<Frame>>, t: nat, c: nat, d: nat)
    requires t in threads && threads[t] != [] && threads[t][|threads[t]| - 1] == Entered(c)
    ensures var rest := threads[t][..|threads[t]| - 1];
      |Holders(threads[t := rest + [Running(c)]], d)| == |Holders(threads, d)|
  {
    var rest := threads[t][..|threads[t]| - 1];
    HoldersPop(threads, t, d);
    HoldersPush(threads[t := rest], t, rest, Running(c), d);
    assert threads[t := rest][t := rest + [Running(c)]] == threads[t := rest + [Running(c)]];
  }

  /** Entering the body keeps the counter: the frame that took it is replaced by the one that runs. */
  lemma CountedRun(s: Service, t: nat, c: nat)
    requires Counted(s.subs, s.threads) && Top(s, t) && TopOf(s, t) == Entered(c)
    ensures Counted(s.subs, Push(Pop(s, t), t, Running(c)).threads)
  {
    var rest := s.threads[t][..|s.threads[t]| - 1];
    assert Push(Pop(s, t), t, Running(c)).threads == s.threads[t := rest + [Running(c)]];
    forall d | d in s.subs
      ensures s.subs[d].active == |Holders(s.threads[t := rest + [Running(c)]], d)|
    {
      HoldersRun(s.threads, t, c, d);
    }
  }

  lemma IdleDoesNotRun(s: Service, c: nat)
    requires Counted(s.subs, s.threads) && c in s.subs && s.subs[c].active == 0
    ensures !RunsIn(s.threads, c)
  {
    forall t, i | t in s.threads && 0 <= i < |s.threads[t]|
      ensures s.threads[t][i] != Running(c)
    {
      assert s.threads[t][i] == Running(c) ==> (t, i) in Holders(s.threads, c);
    }
  }

  lemma RunsPush(s: Service, t: nat, f: Frame, c: nat)
    ensures RunsIn(Push(s, t, f).threads, c) <==> RunsIn(s.threads, c) || f == Running(c)
  {
    var after := Push(s, t, f).threads;
    assert f in after[t];
    if RunsIn(s.threads, c) {
      var u :| u in s.threads && Running(c) in s.threads[u];
      assert Running(c) in after[u];
    }
  }

  lemma RunsPop(s: Service, t: nat, c: nat)
    requires Top(s, t) && RunsIn(Pop(s, t).threads, c)
    ensures RunsIn(s.threads, c)
  {
    var after := Pop(s, t).threads;
    var u :| u in after && Running(c) in after[u];
    assert Running(c) in s.threads[u];
  }

  // ---- the counters, through every step ----

  lemma EnterCounted(s: Service, t: nat)
    requires Counted(s.subs, s.threads) && Enabled(s, Enter(t))
    ensures Counted(Apply(s, Enter(t)).subs, Apply(s, Enter(t)).threads)
  {
    var rest := TopOf(s, t).rest;
    CountedPop(s, t);
    CountedPush(Pop(s, t), t, Dispatching(rest[1..]));
    CountedTake(Push(Pop(s, t), t, Dispatching(rest[1..])), t, rest[0]);
  }

  lemma CheckCounted(s: Service, t: nat)
    requires Counted(s.subs, s.threads) && Enabled(s, Check(t))
    ensures Counted(Apply(s, Check(t)).subs, Apply(s, Check(t)).threads)
  {
    CountedRun(s, t, TopOf(s, t).callback);
    CountedLeave(s, t, TopOf(s, t).callback);
  }

  lemma SwitchedCounted(s: Service, p: nat, enabled: bool)
    requires Counted(s.subs, s.threads)
    ensures Counted(Switched(s.subs, p, enabled), s.threads)
  {
  }

  lemma SubscribeCounted(s: Service, p: nat, enabled: bool)
    requires WellFormed(s) && Counted(s.subs, s.threads)
    ensures Counted(s.subs[s.next := Subscription(p, true, enabled, 0)], s.threads)
  {
    assert s.next !in s.subs;
    forall t, i | t in s.threads && 0 <= i < |s.threads[t]|
      ensures !HoldsCounter(s.threads[t][i], s.next)
    {
      assert GoodFrame(s.subs, s.threads[t][i]);
    }
    assert Holders(s.threads, s.next) == {};
  }

  lemma StepCounted(s: Service, step: Step)
    requires WellFormed(s) && Counted(s.subs, s.threads) && Enabled(s, step)
    ensures Counted(Apply(s, step).subs, Apply(s, step).threads)
  {
    match step
    case Open(_) =>
    case Close(_) =>
    case Restore(p) => SwitchedCounted(s, p, true);
    case Subscribe(p, enabled) => SubscribeCounted(s, p, enabled);
    case Snapshot(t, queue) => CountedPush(s, t, Dispatching(queue));
    case Enter(t) => EnterCounted(s, t);
    case Check(t) => CheckCounted(s, t);
    case Finish(t) => CountedLeave(s, t, TopOf(s, t).callback);
    case EndDispatch(t) => CountedPop(s, t);
    case DeactivateBegin(t, p) =>
      SwitchedCounted(s, p, false);
      CountedPush(s.(subs := Switched(s.subs, p, false)), t, Deactivating(p, Owned(s.subs, p)));
    case DeactivateWait(t, c) =>
      CountedPop(s, t);
      CountedPush(Pop(s, t), t, Deactivating(TopOf(s, t).plugin, TopOf(s, t).owned - {c}));
    case DeactivateEnd(t) => CountedPop(s, t);
    case UnsubscribeBegin(t, p, c) => CountedPush(SetSub(s, c, s.subs[c].(enabled := false)), t, Unsubscribing(c));
    case UnsubscribeEnd(t) => CountedPop(s, t);
    case Erase(p) => CountedErased(s, p);
  }

  lemma CountedErased(s: Service, p: nat)
    requires Counted(s.subs, s.threads)
    ensures Counted(Erased(s.subs, p), s.threads)
  {
  }

  // ---- the stacks, through every step ----

  ghost predicate Extends(subs: map<nat, Subscription>, after: map<nat, Subscription>) {
    forall c :: c in subs ==> c in after && after[c].owner == subs[c].owner
  }

  lemma StacksExtend(s: Service, after: map<nat, Subscription>)
    requires WellFormed(s) && Extends(s.subs, after)
    ensures forall t :: t in s.threads ==> GoodStack(after, s.threads[t])
  {
    forall t | t in s.threads
      ensures GoodStack(after, s.threads[t])
    {
      forall i | 0 <= i < |s.threads[t]|
        ensures GoodFrame(after, s.threads[t][i])
      {
        assert GoodFrame(s.subs, s.threads[t][i]);
      }
    }
  }

  lemma WellFormedPush(s: Service, t: nat, f: Frame)
    requires WellFormed(s) && !Busy(s, t) && GoodFrame(s.subs, f)
    ensures WellFormed(Push(s, t, f))
  {
    assert t in s.threads ==> GoodStack(s.subs, s.threads[t]);
  }

  lemma WellFormedPop(s: Service, t: nat)
    requires WellFormed(s) && Top(s, t)
    ensures WellFormed(Pop(s, t)) && !Busy(Pop(s, t), t) && GoodFrame(s.subs, TopOf(s, t))
  {
    assert GoodStack(s.subs, s.threads[t]);
  }

  lemma WellFormedSet(s: Service, c: nat, x: Subscription)
    requires WellFormed(s) && c in s.subs && x.owner == s.subs[c].owner
    ensures WellFormed(SetSub(s, c, x))
  {
    StacksExtend(s, s.subs[c := x]);
  }

  lemma WellFormedSwitched(s: Service, p: nat, enabled: bool)
    requires WellFormed(s)
    ensures WellFormed(s.(subs := Switched(s.subs, p, enabled)))
  {
    StacksExtend(s, Switched(s.subs, p, enabled));
  }

  lemma WellFormedErased(s: Service, p: nat)
    requires WellFormed(s)
    ensures WellFormed(s.(subs := Erased(s.subs, p)))
  {
    StacksExtend(s, Erased(s.subs, p));
  }

  lemma StepWellFormed(s: Service, step: Step)
    requires WellFormed(s) && Enabled(s, step)
    ensures WellFormed(Apply(s, step))
  {
    match step
    case Open(_) =>
    case Close(_) =>
    case Restore(p) => WellFormedSwitched(s, p, true);
    case Erase(p) => WellFormedErased(s, p);
    case Subscribe(p, enabled) => StacksExtend(s, s.subs[s.next := Subscription(p, true, enabled, 0)]);
    case Snapshot(t, queue) => WellFormedPush(s, t, Dispatching(queue));
    case Enter(t) => EnterWellFormed(s, t);
    case Check(t) =>
      WellFormedPop(s, t);
      WellFormedPush(Pop(s, t), t, Running(TopOf(s, t).callback));
      WellFormedLeft(s, t);
    case Finish(t) => WellFormedLeft(s, t);
    case EndDispatch(t) => WellFormedPop(s, t);
    case DeactivateBegin(t, p) =>
      WellFormedSwitched(s, p, false);
      WellFormedPush(s.(subs := Switched(s.subs, p, false)), t, Deactivating(p, Owned(s.subs, p)));
    case DeactivateWait(t, c) =>
      WellFormedPop(s, t);
      WellFormedPush(Pop(s, t), t, Deactivating(TopOf(s, t).plugin, TopOf(s, t).owned - {c}));
    case DeactivateEnd(t) => WellFormedPop(s, t);
    case UnsubscribeBegin(t, p, c) =>
      WellFormedSet(s, c, s.subs[c].(enabled := false));
      WellFormedPush(SetSub(s, c, s.subs[c].(enabled := false)), t, Unsubscribing(c));
    case UnsubscribeEnd(t) =>
      WellFormedPop(s, t);
      WellFormedSet(Pop(s, t), TopOf(s, t).callback, s.subs[TopOf(s, t).callback].(listed := false));
  }

  lemma EnterWellFormed(s: Service, t: nat)
    requires WellFormed(s) && Enabled(s, Enter(t))
    ensures WellFormed(Apply(s, Enter(t)))
  {
    var rest := TopOf(s, t).rest;
    WellFormedPop(s, t);
    var again := Push(Pop(s, t), t, Dispatching(rest[1..]));
    WellFormedPush(Pop(s, t), t, Dispatching(rest[1..]));
    WellFormedPush(again, t, Entered(rest[0]));
    WellFormedSet(Push(again, t, Entered(rest[0])), rest[0], s.subs[rest[0]].(active := s.subs[rest[0]].active + 1));
  }

  lemma WellFormedLeft(s: Service, t: nat)
    requires WellFormed(s) && Top(s, t) && (TopOf(s, t).Entered? || TopOf(s, t).Running?) && TopOf(s, t).callback in s.subs
    ensures WellFormed(Left(Pop(s, t), TopOf(s, t).callback))
  {
    var c := TopOf(s, t).callback;
    WellFormedPop(s, t);
    WellFormedSet(Pop(s, t), c, Left(Pop(s, t), c).subs[c]);
  }

  // ---- what a step can start ----

  /** The only step that starts a body is a check that found the flag on. */
  lemma StepStarts(s: Service, step: Step, c: nat)
    requires Enabled(s, step) && RunsIn(Apply(s, step).threads, c)
    ensures RunsIn(s.threads, c) || (step.Check? && TopOf(s, step.t) == Entered(c) && c in s.subs && s.subs[c].enabled)
  {
    match step
    case Snapshot(t, queue) => RunsPush(s, t, Dispatching(queue), c);
    case Enter(t) =>
      var rest := TopOf(s, t).rest;
      var again := Push(Pop(s, t), t, Dispatching(rest[1..]));
      RunsPush(again, t, Entered(rest[0]), c);
      RunsPush(Pop(s, t), t, Dispatching(rest[1..]), c);
      RunsPop(s, t, c);
    case Check(t) =>
      RunsPush(Pop(s, t), t, Running(TopOf(s, t).callback), c);
      if RunsIn(Pop(s, t).threads, c) { RunsPop(s, t, c); }
    case Finish(t) => RunsPop(s, t, c);
    case EndDispatch(t) => RunsPop(s, t, c);
    case DeactivateBegin(t, p) => RunsPush(s, t, Deactivating(p, Owned(s.subs, p)), c);
    case DeactivateWait(t, d) =>
      RunsPush(Pop(s, t), t, Deactivating(TopOf(s, t).plugin, TopOf(s, t).owned - {d}), c);
      RunsPop(s, t, c);
    case DeactivateEnd(t) => RunsPop(s, t, c);
    case UnsubscribeBegin(t, p, d) => RunsPush(s, t, Unsubscribing(d), c);
    case UnsubscribeEnd(t) => RunsPop(s, t, c);
    case _ =>
  }

  /** Records keep their owner; only a restore or a new subscription switches one on. */
  lemma StepSwitches(s: Service, step: Step, c: nat)
    requires WellFormed(s) && Enabled(s, step) && c in Apply(s, step).subs
    ensures var x := Apply(s, step).subs[c];
      if c !in s.subs then step.Subscribe? && x.owner == step.p && x.owner in s.accepting && x.listed
      else
        && x.owner == s.subs[c].owner
        && (x.enabled ==> s.subs[c].enabled || (step.Restore? && step.p == x.owner && s.subs[c].listed))
        && (s.subs[c].listed && !x.listed ==>
              (step.UnsubscribeEnd? && TopOf(s, step.t) == Unsubscribing(c)) || (step.Erase? && step.p == x.owner))
        && (!s.subs[c].listed ==> !x.listed)
  {
    assert s.next !in s.subs;
  }

  // ---- silence, through every step ----

  lemma SilentKept(s: Service, step: Step, p: nat, except: set<nat>)
    requires WellFormed(s) && Enabled(s, step) && p !in s.accepting && Silent(s, p, except) && step != Restore(p)
    ensures Silent(Apply(s, step), p, except)
  {
    var after := Apply(s, step);
    forall c | c in after.subs && after.subs[c].owner == p
      ensures !after.subs[c].enabled && (c in except || !RunsIn(after.threads, c))
    {
      StepSwitches(s, step, c);
      if RunsIn(after.threads, c) {
        StepStarts(s, step, c);
      }
    }
  }

  /** Someone switched the subscription on again while its removal waited. */
  ghost predicate Lost(s: Service, step: Step)
    requires Enabled(s, step)
  {
    step.UnsubscribeEnd? && s.subs[TopOf(s, step.t).callback].enabled
  }

  lemma StepGone(s: Service, step: Step)
    requires WellFormed(s) && Counted(s.subs, s.threads) && GoneIsOff(s.subs, s.threads) && QuietIsSilent(s) && Enabled(s, step)
    ensures GoneIsOff(Apply(s, step).subs, Apply(s, step).threads) <==> !Lost(s, step)
  {
    var after := Apply(s, step);
    if Lost(s, step) {
      var c := TopOf(s, step.t).callback;
      assert after.subs[c].enabled && !after.subs[c].listed;
    } else {
      forall c | c in after.subs && !after.subs[c].listed
        ensures !after.subs[c].enabled && !RunsIn(after.threads, c)
      {
        StepSwitches(s, step, c);
        if s.subs[c].listed {
          if step.Erase? {
            assert Silent(s, step.p, {});
          } else {
            IdleDoesNotRun(s, c);
          }
        }
        if RunsIn(after.threads, c) {
          StepStarts(s, step, c);
        }
      }
    }
  }

  /** The thread a step moves, if it moves one. */
  function Mover(step: Step): int {
    match step
    case Open(_) => -1
    case Close(_) => -1
    case Restore(_) => -1
    case Erase(_) => -1
    case Subscribe(_, _) => -1
    case Snapshot(t, _) => t
    case Enter(t) => t
    case Check(t) => t
    case Finish(t) => t
    case EndDispatch(t) => t
    case DeactivateBegin(t, _) => t
    case DeactivateWait(t, _) => t
    case DeactivateEnd(t) => t
    case UnsubscribeBegin(t, _, _) => t
    case UnsubscribeEnd(t) => t
  }

  lemma OthersStay(s: Service, step: Step, u: nat)
    requires Enabled(s, step) && u != Mover(step)
    ensures Stack(Apply(s, step), u) == Stack(s, u) && (Top(Apply(s, step), u) <==> Top(s, u))
    ensures Top(s, u) ==> TopOf(Apply(s, step), u) == TopOf(s, u)
  {
  }

  /** How a thread comes to wait for a plugin. */
  lemma StepWaits(s: Service, step: Step)
    requires WellFormed(s) && Enabled(s, step) && Mover(step) >= 0
    requires Top(Apply(s, step), Mover(step)) && Busy(Apply(s, step), Mover(step))
    ensures step.Enter? || step.DeactivateBegin? || step.DeactivateWait? || step.UnsubscribeBegin?
  {
    match step
    case Snapshot(t, _) =>
    case Enter(t) =>
    case Check(t) => WellFormedPop(s, t);
    case Finish(t) => WellFormedPop(s, t);
    case EndDispatch(t) => WellFormedPop(s, t);
    case DeactivateBegin(t, _) =>
    case DeactivateWait(t, _) =>
    case DeactivateEnd(t) => WellFormedPop(s, t);
    case UnsubscribeBegin(t, _, _) =>
    case UnsubscribeEnd(t) => WellFormedPop(s, t);
  }

  lemma SettledHas(s: Service, t: nat, p: nat)
    requires Settled(s, p) && Top(s, t) && TopOf(s, t).Deactivating?
    ensures TopOf(s, t).plugin != p
  {
  }

  lemma BeginSilences(s: Service, t: nat, p: nat)
    requires WellFormed(s) && GoneIsOff(s.subs, s.threads) && Enabled(s, DeactivateBegin(t, p))
    ensures Silent(Apply(s, DeactivateBegin(t, p)), p, Owned(s.subs, p))
  {
    forall c | c in s.subs && s.subs[c].owner == p && !s.subs[c].listed
      ensures !RunsIn(Apply(s, DeactivateBegin(t, p)).threads, c)
    {
      RunsPush(s, t, Deactivating(p, Owned(s.subs, p)), c);
    }
  }

  lemma WaitSilences(s: Service, t: nat, c: nat)
    requires WellFormed(s) && Counted(s.subs, s.threads) && Draining(s) && Enabled(s, DeactivateWait(t, c))
    ensures Silent(Apply(s, DeactivateWait(t, c)), TopOf(s, t).plugin, TopOf(s, t).owned - {c})
  {
    var p, owned := TopOf(s, t).plugin, TopOf(s, t).owned;
    IdleDoesNotRun(s, c);
    assert Silent(s, p, owned - {c});
    SilentKept(s, DeactivateWait(t, c), p, owned - {c});
  }

  lemma StepDraining(s: Service, step: Step)
    requires WellFormed(s) && Counted(s.subs, s.threads) && GoneIsOff(s.subs, s.threads) && Draining(s) && Enabled(s, step)
    ensures Draining(Apply(s, step))
  {
    var after := Apply(s, step);
    forall u | Top(after, u) && TopOf(after, u).Deactivating?
      ensures TopOf(after, u).plugin !in after.accepting && Silent(after, TopOf(after, u).plugin, TopOf(after, u).owned)
    {
      if u == Mover(step) {
        StepWaits(s, step);
        if step.DeactivateBegin? {
          BeginSilences(s, u, step.p);
        } else {
          WaitSilences(s, u, step.c);
        }
      } else {
        OthersStay(s, step, u);
        if step.Open? || step.Restore? {
          SettledHas(s, u, step.p);
        }
        SilentKept(s, step, TopOf(s, u).plugin, TopOf(s, u).owned);
      }
    }
  }

  lemma StepQuiet(s: Service, step: Step)
    requires WellFormed(s) && Draining(s) && QuietIsSilent(s) && Enabled(s, step)
    ensures QuietIsSilent(Apply(s, step))
  {
    var after := Apply(s, step);
    forall p | p in after.quiet
      ensures p !in after.accepting && Silent(after, p, {})
    {
      assert p in s.quiet || (step.DeactivateEnd? && TopOf(s, step.t).plugin == p && TopOf(s, step.t).owned == {});
      assert p !in s.accepting && Silent(s, p, {});
      SilentKept(s, step, p, {});
    }
  }

  lemma StepNeverSelfWaits(s: Service, step: Step)
    requires WellFormed(s) && NeverSelfWaits(s) && Enabled(s, step)
    ensures NeverSelfWaits(Apply(s, step))
  {
    var after := Apply(s, step);
    forall u | Top(after, u) && (TopOf(after, u).Deactivating? || TopOf(after, u).Unsubscribing?)
      ensures TopOf(after, u).Deactivating? ==> !InsideOwner(after, u, TopOf(after, u).plugin)
      ensures TopOf(after, u).Unsubscribing? ==> !InsideCallback(after, u, TopOf(after, u).callback)
    {
      if u == Mover(step) {
        StepWaits(s, step);
        MoverWaits(s, step, u);
      } else {
        OthersStay(s, step, u);
        SameOwners(s, step, u);
      }
    }
  }

  lemma SameOwners(s: Service, step: Step, u: nat)
    requires WellFormed(s) && Enabled(s, step) && u != Mover(step) && Top(s, u)
    ensures forall p :: InsideOwner(Apply(s, step), u, p) ==> InsideOwner(s, u, p)
  {
    OthersStay(s, step, u);
    var after := Apply(s, step);
    forall i | 0 <= i < |Stack(s, u)| && Stack(s, u)[i].Running?
      ensures Stack(s, u)[i].callback in s.subs && after.subs[Stack(s, u)[i].callback].owner == s.subs[Stack(s, u)[i].callback].owner
    {
      assert GoodFrame(s.subs, Stack(s, u)[i]);
      StepSwitches(s, step, Stack(s, u)[i].callback);
    }
  }

  lemma InsidePush(s: Service, t: nat, f: Frame, p: nat)
    requires !f.Running? && InsideOwner(Push(s, t, f), t, p)
    ensures InsideOwner(s, t, p)
  {
    var after := Push(s, t, f);
    var i :| 0 <= i < |Stack(after, t)| && Stack(after, t)[i].Running? && Stack(after, t)[i].callback in after.subs
      && after.subs[Stack(after, t)[i].callback].owner == p;
    assert Stack(s, t)[i] == Stack(after, t)[i];
  }

  lemma InsidePop(s: Service, t: nat, p: nat)
    requires Top(s, t) && InsideOwner(Pop(s, t), t, p)
    ensures InsideOwner(s, t, p)
  {
    var after := Pop(s, t);
    var i :| 0 <= i < |Stack(after, t)| && Stack(after, t)[i].Running? && Stack(after, t)[i].callback in after.subs
      && after.subs[Stack(after, t)[i].callback].owner == p;
    assert Stack(s, t)[i] == Stack(after, t)[i];
  }

  lemma InsideSwitched(s: Service, p: nat, t: nat, q: nat)
    requires InsideOwner(s.(subs := Switched(s.subs, p, false)), t, q)
    ensures InsideOwner(s, t, q)
  {
    var after := s.(subs := Switched(s.subs, p, false));
    var i :| 0 <= i < |Stack(after, t)| && Stack(after, t)[i].Running? && Stack(after, t)[i].callback in after.subs
      && after.subs[Stack(after, t)[i].callback].owner == q;
    assert Stack(s, t)[i] == Stack(after, t)[i];
  }

  lemma MoverWaits(s: Service, step: Step, u: nat)
    requires WellFormed(s) && NeverSelfWaits(s) && Enabled(s, step) && u == Mover(step)
    requires step.DeactivateBegin? || step.DeactivateWait? || step.UnsubscribeBegin?
    ensures var after := Apply(s, step);
      && (Top(after, u) && TopOf(after, u).Deactivating? ==> !InsideOwner(after, u, TopOf(after, u).plugin))
      && (Top(after, u) && TopOf(after, u).Unsubscribing? ==> !InsideCallback(after, u, TopOf(after, u).callback))
  {
    var after := Apply(s, step);
    match step
    case DeactivateBegin(t, p) =>
      var off := s.(subs := Switched(s.subs, p, false));
      if InsideOwner(after, t, p) {
        InsidePush(off, t, Deactivating(p, Owned(s.subs, p)), p);
        InsideSwitched(s, p, t, p);
      }
    case DeactivateWait(t, c) =>
      var p := TopOf(s, t).plugin;
      if InsideOwner(after, t, p) {
        InsidePush(Pop(s, t), t, Deactivating(p, TopOf(s, t).owned - {c}), p);
        InsidePop(s, t, p);
      }
    case UnsubscribeBegin(t, p, c) =>
  }

  // ---- every step, every run ----

  lemma StepSafe(s: Service, step: Step)
    requires Safe(s) && Enabled(s, step) && !Lost(s, step)
    ensures Safe(Apply(s, step))
  {
    StepWellFormed(s, step);
    StepCounted(s, step);
    StepGone(s, step);
    StepDraining(s, step);
    StepQuiet(s, step);
    StepNeverSelfWaits(s, step);
  }

  ghost predicate Legal(s: Service, steps: seq<Step>)
    decreases |steps|
  {
    steps == [] || (Enabled(s, steps[0]) && Legal(Apply(s, steps[0]), steps[1..]))
  }

  ghost function After(s: Service, steps: seq<Step>): Service
    requires Legal(s, steps)
    decreases |steps|
  {
    if steps == [] then s else After(Apply(s, steps[0]), steps[1..])
  }

  ghost predicate EverLost(s: Service, steps: seq<Step>)
    requires Legal(s, steps)
    decreases |steps|
  {
    steps != [] && (Lost(s, steps[0]) || EverLost(Apply(s, steps[0]), steps[1..]))
  }

  ghost predicate AlwaysOff(s: Service, steps: seq<Step>)
    requires Legal(s, steps)
    decreases |steps|
  {
    GoneIsOff(s.subs, s.threads) && (steps == [] || AlwaysOff(Apply(s, steps[0]), steps[1..]))
  }

  /** What is gone from the table stays off exactly when nothing was switched on again while its removal waited. */
  lemma {:induction false} RunKeepsGoneOff(s: Service, steps: seq<Step>)
    requires Safe(s) && Legal(s, steps)
    ensures AlwaysOff(s, steps) <==> !EverLost(s, steps)
    decreases |steps|
  {
    if steps != [] {
      StepGone(s, steps[0]);
      if !Lost(s, steps[0]) {
        StepSafe(s, steps[0]);
        RunKeepsGoneOff(Apply(s, steps[0]), steps[1..]);
      }
    }
  }

  lemma {:induction false} RunSafe(s: Service, steps: seq<Step>)
    requires Safe(s) && Legal(s, steps) && !EverLost(s, steps)
    ensures Safe(After(s, steps))
    decreases |steps|
  {
    if steps != [] {
      StepSafe(s, steps[0]);
      RunSafe(Apply(s, steps[0]), steps[1..]);
    }
  }

  /** After a deactivation returned OK and until dispatch is restored, no callback of the plugin runs. */
  lemma QuietPluginsDoNotRun(steps: seq<Step>, p: nat, t: nat, c: nat)
    requires Legal(Initial, steps) && !EverLost(Initial, steps) && p in After(Initial, steps).quiet
    requires c in After(Initial, steps).subs && After(Initial, steps).subs[c].owner == p
    ensures Running(c) !in Stack(After(Initial, steps), t) && !After(Initial, steps).subs[c].enabled
  {
    RunSafe(Initial, steps);
    var s := After(Initial, steps);
    assert Silent(s, p, {}) && !RunsIn(s.threads, c);
  }

  predicate WaitsFor(s: Service, t: nat, c: nat)
    requires c in s.subs && Top(s, t)
  {
    TopOf(s, t) == Unsubscribing(c) || (TopOf(s, t).Deactivating? && s.subs[c].owner == TopOf(s, t).plugin)
  }

  /** Every counter is the number of places that hold it, and no thread waits for a counter it holds. */
  lemma WaitersHoldNothing(steps: seq<Step>, t: nat, c: nat)
    requires Legal(Initial, steps) && !EverLost(Initial, steps)
    requires c in After(Initial, steps).subs && Top(After(Initial, steps), t)
    requires WaitsFor(After(Initial, steps), t, c)
    ensures var s := After(Initial, steps);
      s.subs[c].active == |Holders(s.threads, c)| && forall i :: 0 <= i < |s.threads[t]| ==> (t, i) !in Holders(s.threads, c)
  {
    RunSafe(Initial, steps);
    var s := After(Initial, steps);
    assert GoodStack(s.subs, s.threads[t]);
    var owner := s.subs[c].owner;
    forall i | 0 <= i < |s.threads[t]|
      ensures !HoldsCounter(s.threads[t][i], c)
    {
      assert Stack(s, t)[i] == s.threads[t][i];
      assert s.threads[t][i] == Running(c) ==> InsideOwner(s, t, owner);
      assert s.threads[t][i] == Running(c) ==> InsideCallback(s, t, c);
    }
  }

  // ---- a subscription that is switched on while its removal waits ----

  const Revived: seq<Step> := [
    Open(1), Subscribe(1, true), Snapshot(1, [1]), UnsubscribeBegin(2, 1, 1), Restore(1), UnsubscribeEnd(2),
    Close(1), DeactivateBegin(2, 1), DeactivateEnd(2), Enter(1), Check(1)]

  lemma {:induction false} Extend(s: Service, steps: seq<Step>, step: Step)
    requires Legal(s, steps) && Enabled(After(s, steps), step)
    ensures Legal(s, steps + [step]) && After(s, steps + [step]) == Apply(After(s, steps), step)
    decreases |steps|
  {
    if steps == [] {
      assert [step][1..] == [];
    } else {
      assert (steps + [step])[1..] == steps[1..] + [step];
      Extend(Apply(s, steps[0]), steps[1..], step);
    }
  }

  lemma ExtendRevived(k: nat, s: Service, next: Service)
    requires k < |Revived| && Legal(Initial, Revived[..k]) && After(Initial, Revived[..k]) == s
    requires Enabled(s, Revived[k]) && Apply(s, Revived[k]) == next
    ensures Legal(Initial, Revived[..k + 1]) && After(Initial, Revived[..k + 1]) == next
  {
    Extend(Initial, Revived[..k], Revived[k]);
    assert Revived[..k + 1] == Revived[..k] + [Revived[k]];
  }

  const On: Subscription := Subscription(1, true, true, 0)
  const Off: Subscription := On.(enabled := false)
  const Gone: map<nat, Subscription> := map[1 := On.(listed := false)]

  function Shot(subs: map<nat, Subscription>, one: seq<Frame>, two: seq<Frame>, accepting: set<nat>,
        quiet: set<nat>): Service {
    Service(subs, map[1 := one, 2 := two], accepting, quiet, 2)
  }

  lemma RevivedSnapshot()
    ensures Legal(Initial, Revived[..3])
    ensures After(Initial, Revived[..3]) == Service(map[1 := On], map[1 := [Dispatching([1])]], {1}, {}, 2)
  {
    var s1 := Service(map[], map[], {1}, {}, 1);
    var s2 := Service(map[1 := On], map[], {1}, {}, 2);
    ExtendRevived(0, Initial, s1);
    assert s1.subs[1 := On] == map[1 := On];
    ExtendRevived(1, s1, s2);
    assert Stack(s2, 1) + [Dispatching([1])] == [Dispatching([1])];
    assert s2.threads[1 := [Dispatching([1])]] == map[1 := [Dispatching([1])]];
    assert Enabled(s2, Snapshot(1, [1]));
    ExtendRevived(2, s2, Service(map[1 := On], map[1 := [Dispatching([1])]], {1}, {}, 2));
  }

  lemma RevivedUnsubscribes()
    ensures Legal(Initial, Revived[..4])
    ensures After(Initial, Revived[..4]) == Shot(map[1 := Off], [Dispatching([1])], [Unsubscribing(1)], {1}, {})
  {
    RevivedSnapshot();
    var s3 := Service(map[1 := On], map[1 := [Dispatching([1])]], {1}, {}, 2);
    assert Stack(s3, 2) + [Unsubscribing(1)] == [Unsubscribing(1)] && !InsideCallback(s3, 2, 1);
    assert s3.subs[1 := Off] == map[1 := Off];
    ExtendRevived(3, s3, Shot(map[1 := Off], [Dispatching([1])], [Unsubscribing(1)], {1}, {}));
  }

  lemma RevivedRemoved()
    ensures Legal(Initial, Revived[..6])
    ensures After(Initial, Revived[..6]) == Shot(Gone, [Dispatching([1])], [], {1}, {})
  {
    RevivedUnsubscribes();
    var s4 := Shot(map[1 := Off], [Dispatching([1])], [Unsubscribing(1)], {1}, {});
    var s5 := Shot(map[1 := On], [Dispatching([1])], [Unsubscribing(1)], {1}, {});
    assert Switched(s4.subs, 1, true) == map[1 := On];
    ExtendRevived(4, s4, s5);
    assert s5.threads[2][..0] == [] && Apply(s5, Revived[5]) == Shot(Gone, [Dispatching([1])], [], {1}, {});
    ExtendRevived(5, s5, Shot(Gone, [Dispatching([1])], [], {1}, {}));
  }

  lemma RevivedQuiet()
    ensures Legal(Initial, Revived[..9])
    ensures After(Initial, Revived[..9]) == Shot(Gone, [Dispatching([1])], [], {}, {1})
  {
    RevivedRemoved();
    var s6 := Shot(Gone, [Dispatching([1])], [], {1}, {});
    var s7 := Shot(Gone, [Dispatching([1])], [], {}, {});
    var s8 := Shot(Gone, [Dispatching([1])], [Deactivating(1, {})], {}, {});
    ExtendRevived(6, s6, s7);
    assert Switched(Gone, 1, false) == Gone && Owned(Gone, 1) == {};
    assert Stack(s7, 2) + [Deactivating(1, {})] == [Deactivating(1, {})] && !InsideOwner(s7, 2, 1);
    assert Apply(s7, Revived[7]) == s8;
    ExtendRevived(7, s7, s8);
    assert s8.threads[2][..0] == [] && Apply(s8, Revived[8]) == Shot(Gone, [Dispatching([1])], [], {}, {1});
    ExtendRevived(8, s8, Shot(Gone, [Dispatching([1])], [], {}, {1}));
  }

  lemma RevivedEnters()
    ensures Enabled(Shot(Gone, [Dispatching([1])], [], {}, {1}), Enter(1))
    ensures Apply(Shot(Gone, [Dispatching([1])], [], {}, {1}), Enter(1)) ==
            Shot(map[1 := On.(listed := false, active := 1)], [Dispatching([]), Entered(1)], [], {}, {1})
  {
    var s9 := Shot(Gone, [Dispatching([1])], [], {}, {1});
    var popped := Pop(s9, 1);
    assert popped.threads[1] == [] && [1][1..] == [];
    assert Push(popped, 1, Dispatching([])).threads[1] == [Dispatching([])];
    assert Push(Push(popped, 1, Dispatching([])), 1, Entered(1)).threads[1] == [Dispatching([]), Entered(1)];
  }

  lemma RevivedChecks()
    ensures var s10 := Shot(map[1 := On.(listed := false, active := 1)], [Dispatching([]), Entered(1)], [], {}, {1});
      && Enabled(s10, Check(1)) && 1 in Apply(s10, Check(1)).quiet && Running(1) in Stack(Apply(s10, Check(1)), 1)
  {
    var s10 := Shot(map[1 := On.(listed := false, active := 1)], [Dispatching([]), Entered(1)], [], {}, {1});
    assert Depth(s10.threads[1]) == 0 by {
      assert s10.threads[1][1..] == [Entered(1)] && [Entered(1)][1..] == [];
    }
  }

  lemma RevivedEntered()
    ensures Legal(Initial, Revived[..10])
    ensures After(Initial, Revived[..10]) ==
            Shot(map[1 := On.(listed := false, active := 1)], [Dispatching([]), Entered(1)], [], {}, {1})
  {
    RevivedQuiet();
    RevivedEnters();
    ExtendRevived(9, Shot(Gone, [Dispatching([1])], [], {}, {1}),
      Shot(map[1 := On.(listed := false, active := 1)], [Dispatching([]), Entered(1)], [], {}, {1}));
  }

  /** The plugin is quiet, and yet its callback runs. */
  lemma RevivedRuns()
    ensures Legal(Initial, Revived)
    ensures 1 in After(Initial, Revived).quiet && Running(1) in Stack(After(Initial, Revived), 1)
  {
    RevivedEntered();
    RevivedChecks();
    var s10 := Shot(map[1 := On.(listed := false, active := 1)], [Dispatching([]), Entered(1)], [], {}, {1});
    ExtendRevived(10, s10, Apply(s10, Check(1)));
    assert Revived[..11] == Revived;
  }
}
