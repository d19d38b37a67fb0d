/**
  What each step does to one subscription, one plugin and one thread, in both directions; and that no
  thread ever nests more callbacks than the limit.
 */
module QuiescenceEffects {
  import opened Quiescence
  import opened QuiescenceSafety

  // ---- one subscription ----

  predicate Adds(s: Service, step: Step, c: nat) {
    step.Subscribe? && c == s.next
  }

  /** The end of a removal, or the erasing of its plugin, takes it off the table. */
  predicate Unlists(s: Service, step: Step, c: nat)
    requires c in s.subs
  {
    || (step.UnsubscribeEnd? && Top(s, step.t) && TopOf(s, step.t) == Unsubscribing(c))
    || (step.Erase? && s.subs[c].owner == step.p)
  }

  predicate SwitchesOn(s: Service, step: Step, c: nat)
    requires c in s.subs
  {
    step.Restore? && s.subs[c].listed && s.subs[c].owner == step.p
  }

  predicate SwitchesOff(s: Service, step: Step, c: nat)
    requires c in s.subs
  {
    || (step.DeactivateBegin? && s.subs[c].listed && s.subs[c].owner == step.p)
    || (step.UnsubscribeBegin? && step.c == c)
  }

  /** A subscription is there once it was made, for the plugin that made it, listed and switched as asked. */
  lemma MadeIff(s: Service, step: Step, c: nat)
    requires (forall d :: d in s.subs ==> d < s.next) && Enabled(s, step)
    ensures c in Apply(s, step).subs <==> c in s.subs || Adds(s, step, c)
    ensures Adds(s, step, c) ==> c !in s.subs && Apply(s, step).subs[c] == Subscription(step.p, true, step.enabled, 0)
  {
  }

  /** It stays its plugin's, and is listed and switched on until something takes it off the table or switches it off. */
  lemma SubscriptionIff(s: Service, step: Step, c: nat)
    requires (forall d :: d in s.subs ==> d < s.next) && Enabled(s, step) && c in s.subs
    ensures c in Apply(s, step).subs && Apply(s, step).subs[c].owner == s.subs[c].owner
    ensures Apply(s, step).subs[c].listed <==> s.subs[c].listed && !Unlists(s, step, c)
    ensures Apply(s, step).subs[c].enabled <==> SwitchesOn(s, step, c) || (s.subs[c].enabled && !SwitchesOff(s, step, c))
  {
  }

  // ---- one plugin ----

  lemma AcceptingIff(s: Service, step: Step, p: nat)
    requires Enabled(s, step)
    ensures p in Apply(s, step).accepting <==>
      ((step.Open? || step.Restore?) && step.p == p) || (p in s.accepting && !(step.Close? && step.p == p))
    ensures p in Apply(s, step).quiet <==>
      || (step.DeactivateEnd? && TopOf(s, step.t).plugin == p)
      || (p in s.quiet && !((step.Open? || step.Restore?) && step.p == p))
  {
  }

  // ---- one thread ----

  /** A callback starts exactly when the check finds it switched on and the thread not too deep, and nowhere else. */
  lemma StartsIff(s: Service, step: Step, t: nat, c: nat)
    requires Enabled(s, step)
    ensures step == Check(t) && TopOf(s, t) == Entered(c) ==>
      (Stack(Apply(s, step), t) == Stack(s, t)[..|Stack(s, t)| - 1] + [Running(c)]
       <==> s.subs[c].enabled && Depth(Stack(s, t)) < MAX_CALLBACK_DEPTH)
    ensures step != Check(t) ==> forall i :: 0 <= i < |Stack(Apply(s, step), t)| && Stack(Apply(s, step), t)[i].Running? ==>
      i < |Stack(s, t)| && Stack(s, t)[i] == Stack(Apply(s, step), t)[i]
  {
  }

  // ---- how deep a thread nests ----

  lemma {:induction false} DepthAppend(stack: seq<Frame>, f: Frame)
    ensures Depth(stack + [f]) == Depth(stack) + if f.Running? then 1 else 0
  {
    if stack == [] {
      assert [f][1..] == [];
    } else {
      assert (stack + [f])[1..] == stack[1..] + [f];
      DepthAppend(stack[1..], f);
    }
  }

  lemma DepthTop(stack: seq<Frame>)
    requires stack != []
    ensures Depth(stack) == Depth(stack[..|stack| - 1]) + if stack[|stack| - 1].Running? then 1 else 0
  {
    assert stack == stack[..|stack| - 1] + [stack[|stack| - 1]];
    DepthAppend(stack[..|stack| - 1], stack[|stack| - 1]);
  }

  ghost predicate Shallow(s: Service) {
    forall t :: Depth(Stack(s, t)) <= MAX_CALLBACK_DEPTH
  }

  /** A stack without its top, with up to two frames on it instead. */
  predicate Follows(before: seq<Frame>, after: seq<Frame>) {
    || after == before
    || (after != [] && after[..|after| - 1] == before && !after[|after| - 1].Running?)
    || (before != [] && after == before[..|before| - 1])
    || (before != [] && after != [] && after[..|after| - 1] == before[..|before| - 1]
        && (after[|after| - 1].Running? ==> Depth(before) < MAX_CALLBACK_DEPTH))
    || (before != [] && |after| == |before| + 1 && after[..|after| - 2] == before[..|before| - 1]
        && !after[|after| - 1].Running? && !after[|after| - 2].Running?)
  }

  lemma StepFollows(s: Service, step: Step, t: nat)
    requires Enabled(s, step)
    ensures Follows(Stack(s, t), Stack(Apply(s, step), t))
  {
  }

  lemma FollowsShallow(before: seq<Frame>, after: seq<Frame>)
    requires Follows(before, after) && Depth(before) <= MAX_CALLBACK_DEPTH
    ensures Depth(after) <= MAX_CALLBACK_DEPTH
  {
    if before != [] {
      DepthTop(before);
    }
    if after != [] {
      DepthTop(after);
      if after[..|after| - 1] != [] {
        DepthTop(after[..|after| - 1]);
        assert after[..|after| - 1][..|after| - 2] == after[..|after| - 2];
      }
    }
  }

  lemma StepShallow(s: Service, step: Step)
    requires Shallow(s) && Enabled(s, step)
    ensures Shallow(Apply(s, step))
  {
    forall t: nat
      ensures Depth(Stack(Apply(s, step), t)) <= MAX_CALLBACK_DEPTH
    {
      StepFollows(s, step, t);
      FollowsShallow(Stack(s, t), Stack(Apply(s, step), t));
    }
  }

  /** However calls nest, a thread is never inside more callbacks than the limit. */
  lemma {:induction false} RunShallow(s: Service, steps: seq<Step>)
    requires Shallow(s) && Legal(s, steps)
    ensures Shallow(After(s, steps))
    decreases |steps|
  {
    if steps != [] {
      StepShallow(s, steps[0]);
      RunShallow(Apply(s, steps[0]), steps[1..]);
    }
  }
}
