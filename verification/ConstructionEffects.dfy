/**
  What each step does to one construction, one handle and one token, in both directions; and that a
  token that was used up by a spawn is with no construction any more.
 */
module ConstructionEffects {
  import opened ConstructionTokens

  predicate StateOf(s: Service, f: nat, i: nat) {
    f in s.frames && !s.frames[f].Releasing? && !s.frames[f].Pruning? && s.frames[f].state == i
  }

  predicate First(s: Service, f: nat, i: nat) {
    f in s.frames && (s.frames[f].Releasing? || s.frames[f].Pruning?) && s.frames[f].pending != [] && s.frames[f].pending[0] == i
  }

  /** The step closes the construction and hands its token, if it has one, back to the adapter. */
  predicate Cancels(s: Service, step: Step, i: nat) {
    || (step.CreateEnd? && !step.accepted && StateOf(s, step.f, i))
    || (step.ReleaseEntity? && step.h in s.entities && s.entities[step.h].builder && s.entities[step.h].state == i
        && i in s.states && Pending(s.states[i]))
    || (step.ReleaseNext? && First(s, step.f, i))
    || (step.PruneNext? && step.missing && First(s, step.f, i))
  }

  // ---- one construction ----

  lemma MadeIff(s: Service, step: Step, i: nat)
    requires Tidy(s) && Enabled(s, step)
    ensures i in Apply(s, step).states <==> i in s.states || (step.CreateBegin? && i == s.next)
    ensures step.CreateBegin? ==>
      s.next !in s.states && Apply(s, step).states[s.next] == Construction(step.p, 0, true, false, false)
  {
  }

  /** A release of its plugin, or of everyone, has to cancel it. */
  predicate Doomed(s: Service, step: Step, i: nat)
    requires i in s.states
  {
    step.ReleaseBegin? && Pending(s.states[i]) &&
    exists h :: h in s.entities && s.entities[h].builder && s.entities[h].state == i && (step.everyone || s.entities[h].owner == step.p)
  }

  lemma OwnerKept(s: Service, step: Step, i: nat)
    requires Tidy(s) && Enabled(s, step) && i in s.states
    ensures i in Apply(s, step).states && Apply(s, step).states[i].owner == s.states[i].owner
  {
  }

  /** It is closed, for good, by a cancellation or by the release of its plugin. */
  lemma ClosedIff(s: Service, step: Step, i: nat)
    requires Tidy(s) && Enabled(s, step) && i in s.states
    ensures i in Apply(s, step).states
    ensures Apply(s, step).states[i].closed <==> s.states[i].closed || Cancels(s, step, i) || Doomed(s, step, i)
  {
  }

  /** It is being initialised until its creation ends, and busy while one spawn or change of it is under way. */
  lemma BusyIff(s: Service, step: Step, i: nat)
    requires Tidy(s) && Enabled(s, step) && i in s.states
    ensures i in Apply(s, step).states
    ensures Apply(s, step).states[i].initializing <==> s.states[i].initializing && !(step.CreateEnd? && StateOf(s, step.f, i))
    ensures Apply(s, step).states[i].busy <==>
      || ((step.SpawnBegin? || step.ChangeBegin?) && s.entities[step.h].state == i)
      || (s.states[i].busy && !((step.SpawnEnd? || step.ChangeEnd?) && StateOf(s, step.f, i)))
  {
  }

  /** The construction has the token its creation brought, until it is cancelled or its spawn used it up. */
  lemma TokenIff(s: Service, step: Step, i: nat)
    requires Tidy(s) && Enabled(s, step) && i in s.states
    ensures Apply(s, step).states[i].token ==
      if Cancels(s, step, i) || (step.SpawnEnd? && step.dispatched && StateOf(s, step.f, i)) then 0
      else if step.CreateEnd? && StateOf(s, step.f, i) then step.token
      else s.states[i].token
  {
  }

  // ---- the adapter ----

  /** The adapter gets a token back exactly when a construction that has it is cancelled. */
  lemma CancelledIff(s: Service, step: Step, k: nat)
    requires Tidy(s) && Enabled(s, step)
    ensures k in Apply(s, step).cancelled <==>
      k in s.cancelled || (k != 0 && exists i :: i in s.states && Cancels(s, step, i) && TokenAt(s, step, i) == k)
  {
  }

  /** The token the construction has, or is just being given. */
  function TokenAt(s: Service, step: Step, i: nat): nat
    requires i in s.states
  {
    if step.CreateEnd? then step.token else s.states[i].token
  }

  lemma ConsumedIff(s: Service, step: Step, k: nat)
    requires Enabled(s, step)
    ensures k in Apply(s, step).consumed <==>
      k in s.consumed || (step.SpawnEnd? && step.dispatched && s.frames[step.f].token == k)
    ensures k in Apply(s, step).issued <==> k in s.issued || (step.CreateEnd? && step.token == k && k != 0)
  {
  }

  // ---- one handle ----

  predicate Drops(s: Service, step: Step, h: nat)
    requires h in s.entities
  {
    || (step.ReleaseEntity? && step.h == h)
    || (step.ReleaseBegin? && (step.everyone || s.entities[h].owner == step.p))
    || (step.CreateEnd? && !step.accepted && step.f in s.frames && s.frames[step.f].Creating? && s.frames[step.f].handle == h)
  }

  /** A handle stands for the construction it was given for until its plugin lets go of it, is released, or the creation fails. */
  lemma HandleIff(s: Service, step: Step, h: nat)
    requires Tidy(s) && Enabled(s, step)
    ensures h in Apply(s, step).entities <==>
      ((step.CreateBegin? || step.Observe?) && h == s.next) || (h in s.entities && !Drops(s, step, h))
    ensures h in Apply(s, step).entities && h in s.entities ==> Apply(s, step).entities[h] == s.entities[h]
    ensures step.CreateBegin? ==> Apply(s, step).entities[s.next] == Entity(step.p, s.next, true)
    ensures step.Observe? ==> Apply(s, step).entities[s.next] == Entity(step.p, s.entities[step.h].state, false)
  {
  }

  // ---- a token is used up once ----

  /** A spawn is under way from its begin to its end. */
  lemma SpawningIff(s: Service, step: Step, f: nat)
    requires Enabled(s, step)
    ensures f in Apply(s, step).frames && Apply(s, step).frames[f].Spawning? <==>
      || (step.SpawnBegin? && step.f == f)
      || (f in s.frames && s.frames[f].Spawning? && !(step.SpawnEnd? && step.f == f))
    ensures f in Apply(s, step).frames && Apply(s, step).frames[f].Spawning? ==>
      if step.SpawnBegin? && step.f == f
      then s.entities[step.h].state in s.states &&
           Apply(s, step).frames[f] == Spawning(s.entities[step.h].state, s.states[s.entities[step.h].state].token)
      else f in s.frames && Apply(s, step).frames[f] == s.frames[f]
  {
  }

  /** Only this spawn's own construction can have the token it is about to use up. */
  predicate Exclusive(states: map<nat, Construction>, issued: set<nat>, x: Frame)
    requires x.Spawning?
  {
    x.token in issued && x.token != 0 && forall i :: i in states && i != x.state ==> states[i].token != x.token
  }

  ghost predicate AllExclusive(s: Service) {
    forall f :: f in s.frames && s.frames[f].Spawning? ==> Exclusive(s.states, s.issued, s.frames[f])
  }

  /** What was used up was issued, and is with no construction. */
  ghost predicate UsedUp(s: Service) {
    s.consumed <= s.issued && forall i :: i in s.states && s.states[i].token != 0 ==> s.states[i].token !in s.consumed
  }

  lemma TokenChanges(s: Service, step: Step, i: nat)
    requires Tidy(s) && Enabled(s, step) && i in Apply(s, step).states && Apply(s, step).states[i].token != 0
    ensures i in s.states
    ensures Apply(s, step).states[i].token == s.states[i].token || (step.CreateEnd? && Apply(s, step).states[i].token == step.token)
  {
    MadeIff(s, step, i);
    if i in s.states {
      TokenIff(s, step, i);
    }
  }

  lemma ExclusiveStays(s: Service, step: Step, f: nat)
    requires Tidy(s) && Enabled(s, step) && f in Apply(s, step).frames && Apply(s, step).frames[f].Spawning?
    requires Exclusive(s.states, s.issued, Apply(s, step).frames[f])
    ensures Exclusive(Apply(s, step).states, Apply(s, step).issued, Apply(s, step).frames[f])
  {
    var x, after := Apply(s, step).frames[f], Apply(s, step);
    ConsumedIff(s, step, x.token);
    forall i | i in after.states && i != x.state
      ensures after.states[i].token != x.token
    {
      if after.states[i].token != 0 {
        TokenChanges(s, step, i);
      }
    }
  }

  lemma StepExclusive(s: Service, step: Step)
    requires Tidy(s) && Single(s) && AllExclusive(s) && Enabled(s, step)
    ensures AllExclusive(Apply(s, step))
  {
    forall f | f in Apply(s, step).frames && Apply(s, step).frames[f].Spawning?
      ensures Exclusive(Apply(s, step).states, Apply(s, step).issued, Apply(s, step).frames[f])
    {
      SpawningIff(s, step, f);
      assert Exclusive(s.states, s.issued, Apply(s, step).frames[f]);
      ExclusiveStays(s, step, f);
    }
  }

  lemma TokenStaysUsable(s: Service, step: Step, i: nat)
    requires Tidy(s) && AllExclusive(s) && UsedUp(s) && Enabled(s, step)
    requires i in Apply(s, step).states && Apply(s, step).states[i].token != 0
    ensures Apply(s, step).states[i].token !in Apply(s, step).consumed
  {
    var k := Apply(s, step).states[i].token;
    TokenChanges(s, step, i);
    ConsumedIff(s, step, k);
    if step.SpawnEnd? && step.dispatched {
      TokenIff(s, step, i);
      assert Exclusive(s.states, s.issued, s.frames[step.f]);
    }
  }

  lemma StepUsedUp(s: Service, step: Step)
    requires Tidy(s) && AllExclusive(s) && UsedUp(s) && Enabled(s, step)
    ensures UsedUp(Apply(s, step))
  {
    forall k | k in Apply(s, step).consumed
      ensures k in Apply(s, step).issued
    {
      ConsumedIff(s, step, k);
      assert step.SpawnEnd? ==> Exclusive(s.states, s.issued, s.frames[step.f]);
    }
    forall i | i in Apply(s, step).states && Apply(s, step).states[i].token != 0
      ensures Apply(s, step).states[i].token !in Apply(s, step).consumed
    {
      TokenStaysUsable(s, step, i);
    }
  }

  lemma {:induction false} RunUsedUp(s: Service, steps: seq<Step>)
    requires Safe(s) && AllExclusive(s) && UsedUp(s) && Legal(s, steps)
    ensures UsedUp(After(s, steps))
    decreases |steps|
  {
    if steps != [] {
      StepSafe(s, steps[0]);
      StepExclusive(s, steps[0]);
      StepUsedUp(s, steps[0]);
      RunUsedUp(Apply(s, steps[0]), steps[1..]);
    }
  }

  /** In every reachable state, a token that a spawn used up is with no construction. */
  lemma UsedUpOnce(steps: seq<Step>, i: nat)
    requires Legal(Initial, steps) && i in After(Initial, steps).states
    ensures var s := After(Initial, steps); s.states[i].token != 0 ==> s.states[i].token !in s.consumed
  {
    RunUsedUp(Initial, steps);
  }
}
