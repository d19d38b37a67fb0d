/**
  Who leases what, over any interleaving of commands: a plugin holds a lease exactly when it queried for
  the service and has not given it back since, and a service is on offer exactly when it was published
  and has not been taken back since.
 */
module HostLeases {
  import opened PublishedServices
  import opened HostProtocol
  import opened HostSafety

  // ---- one step ----

  /** The plugin is granted a lease of another plugin's service. */
  ghost predicate Takes(s: Host, step: Step, publication: nat, c: nat) {
    && step.Query? && step.h == c && step.key in s.reg.byKey && s.reg.byKey[step.key] == publication
    && publication in s.reg.pubs && s.reg.pubs[publication].provider != c
  }

  /** The host takes back everything of the plugin, as it fails to start or is unloaded. */
  predicate Clears(step: Step, p: nat) {
    (step.FailRelease? || step.UnloadRelease?) && step.h == p
  }

  /** The plugin returns its lease, or everything of it is taken back. */
  ghost predicate GivesUp(s: Host, step: Step, publication: nat, c: nat) {
    || (step.Release? && step.h == c && step.key in s.reg.byKey && s.reg.byKey[step.key] == publication)
    || Clears(step, c)
  }

  lemma RegistryUntouched(s: Host, step: Step)
    requires Enabled(s, step) && !OnRegistry(step) && !step.FailRelease? && !step.UnloadRelease?
    ensures Apply(s, step).reg == s.reg
  {
  }

  lemma ClearedReg(s: Host, step: Step)
    requires Safe(s) && Enabled(s, step) && (step.FailRelease? || step.UnloadRelease?)
    ensures !s.reg.Leased(step.h) && Apply(s, step).reg == s.reg.Without(step.h)
  {
    ReleaseNeverBusy(s, step.h);
  }

  /** What one step does to one lease. */
  lemma LeaseIff(s: Host, step: Step, publication: nat, c: nat)
    requires Safe(s) && Enabled(s, step)
    ensures Apply(s, step).reg.Lends(publication, c) <==>
      Takes(s, step, publication, c) || (s.reg.Lends(publication, c) && !GivesUp(s, step, publication, c))
  {
    if step.FailRelease? || step.UnloadRelease? {
      ClearedReg(s, step);
      s.reg.WithoutIs(step.h, publication, c);
    } else if OnRegistry(step) {
      RegistryLeaseIff(s, step, publication, c);
    } else {
      RegistryUntouched(s, step);
    }
  }

  lemma RegistryLeaseIff(s: Host, step: Step, publication: nat, c: nat)
    requires s.reg.Valid() && Enabled(s, step) && OnRegistry(step)
    ensures Apply(s, step).reg.Lends(publication, c) <==>
      Takes(s, step, publication, c) || (s.reg.Lends(publication, c) && !GivesUp(s, step, publication, c))
  {
  }

  /** The step publishes this, or it was on offer and is not taken back. */
  ghost predicate Stands(s: Host, step: Step, publication: nat) {
    || (step.Publish? && publication == s.reg.next)
    || (publication in s.reg.pubs && !(step.Withdraw? && step.publication == publication)
        && !Clears(step, s.reg.pubs[publication].provider))
  }

  /** What the offer is, but for its leases. */
  function Offer(s: Host, step: Step, publication: nat): Publication
    requires publication in s.reg.pubs || step.Publish?
  {
    if publication in s.reg.pubs then s.reg.pubs[publication].(consumers := {})
    else Publication(step.h, step.key, step.service, {})
  }

  /** The offer is there exactly if it stands, and is what it was or what was published. */
  ghost predicate Offered(s: Host, step: Step, publication: nat, after: Registry) {
    && (publication in after.pubs <==> Stands(s, step, publication))
    && (publication in after.pubs ==>
          (publication in s.reg.pubs || step.Publish?) && after.pubs[publication].(consumers := {}) == Offer(s, step, publication))
  }

  /**
    What one step does to one service on offer. An offer never changes hands, key or content; a new one is
    what was published, under a handle nothing had.
   */
  lemma OfferIff(s: Host, step: Step, publication: nat)
    requires Safe(s) && Enabled(s, step)
    ensures Offered(s, step, publication, Apply(s, step).reg)
    ensures step.Publish? ==> s.reg.next !in s.reg.pubs
  {
    if step.FailRelease? || step.UnloadRelease? {
      ClearedReg(s, step);
      ClearedOffered(s, step, publication, Apply(s, step).reg);
    } else if OnRegistry(step) {
      RegistryOffered(s, step, publication);
    } else {
      RegistryUntouched(s, step);
    }
  }

  lemma ClearedOffered(s: Host, step: Step, publication: nat, after: Registry)
    requires s.reg.Valid() && (step.FailRelease? || step.UnloadRelease?)
    requires !s.reg.Leased(step.h) && after == s.reg.Without(step.h)
    ensures Offered(s, step, publication, after)
  {
    s.reg.WithoutIs(step.h, publication, 0);
  }

  lemma RegistryOffered(s: Host, step: Step, publication: nat)
    requires s.reg.Valid() && Enabled(s, step) && OnRegistry(step)
    ensures Offered(s, step, publication, Apply(s, step).reg)
    ensures step.Publish? ==> s.reg.next !in s.reg.pubs
  {
  }

  // ---- whole runs ----

  /** The lease is not given up in this run. */
  ghost predicate Keeps(s: Host, steps: seq<Step>, publication: nat, c: nat)
    requires Legal(s, steps)
    decreases |steps|
  {
    steps == [] || (!GivesUp(s, steps[0], publication, c) && Keeps(Apply(s, steps[0]), steps[1..], publication, c))
  }

  /** Somewhere in this run the lease is granted, and it is not given up after. */
  ghost predicate Earns(s: Host, steps: seq<Step>, publication: nat, c: nat)
    requires Legal(s, steps)
    decreases |steps|
  {
    && steps != []
    && var next := Apply(s, steps[0]);
       || (Takes(s, steps[0], publication, c) && Keeps(next, steps[1..], publication, c))
       || Earns(next, steps[1..], publication, c)
  }

  lemma {:induction false} RunLeases(s: Host, steps: seq<Step>, publication: nat, c: nat)
    requires Safe(s) && Legal(s, steps)
    ensures After(s, steps).reg.Lends(publication, c) <==>
      (s.reg.Lends(publication, c) && Keeps(s, steps, publication, c)) || Earns(s, steps, publication, c)
    decreases |steps|
  {
    if steps != [] {
      StepSafe(s, steps[0]);
      LeaseIff(s, steps[0], publication, c);
      RunLeases(Apply(s, steps[0]), steps[1..], publication, c);
    }
  }

  /** A plugin holds a lease exactly when it was granted and not given up since. */
  lemma LeaseHistory(steps: seq<Step>, publication: nat, c: nat)
    requires Legal(Initial, steps)
    ensures After(Initial, steps).reg.Lends(publication, c) <==> Earns(Initial, steps, publication, c)
  {
    RunLeases(Initial, steps, publication, c);
  }
}
