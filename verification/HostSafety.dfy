/**
  Every reachable state of the host, whatever the interleaving of commands: running plugins have
  their dependencies running, leased services belong to running plugins, and no release of services
  inside a command can find a lease.
 */
module HostSafety {
  import opened Options
  import opened PublishedServices
  import opened HostProtocol

  // ---- one change at a time ----

  /** A record that claims no name and neither runs nor leaves disturbs nobody. */
  lemma UnclaimedNames(recs: map<nat, Plugin>, h: nat, p: Plugin)
    requires NamesUnique(recs) && Undisturbed(recs)
    requires p.selectable ==> Claims(recs, h) && recs[h].name == p.name
    requires p.state == Loaded ==> h in recs && recs[h].state == Loaded && recs[h].deps == p.deps
    requires Leaving(p) ==> h in recs && Leaving(recs[h]) && recs[h].name == p.name
    ensures NamesUnique(recs[h := p]) && Undisturbed(recs[h := p])
  {
    var after := recs[h := p];
    assert forall g :: Claims(after, g) ==> Claims(recs, g) && after[g].name == recs[g].name;
    forall g, q | g in after && q in after && q != g && Leaving(after[g]) && after[q].state == Loaded
      ensures !Names(after[q], after[g].name)
    {
      assert !Names(recs[q], recs[g].name);
    }
  }

  lemma StrangerDisturbsNobody(recs: map<nat, Plugin>, h: nat, p: Plugin)
    requires Undisturbed(recs) && p.state != Loaded && !Leaving(p)
    ensures Undisturbed(recs[h := p])
  {
  }

  lemma OwnedSteady(recs: map<nat, Plugin>, after: map<nat, Plugin>, reg: Registry)
    requires Owned(recs, reg) && forall k :: Owner(recs, k) ==> Owner(after, k)
    ensures Owned(after, reg)
  {
  }

  lemma PinnedSteady(recs: map<nat, Plugin>, after: map<nat, Plugin>, reg: Registry)
    requires Pinned(recs, reg)
    requires forall k :: Steady(recs, k) && reg.Leased(k) ==> Steady(after, k)
    ensures Pinned(after, reg)
  {
    forall k | k in reg.pubs && reg.pubs[k].consumers != {}
      ensures Steady(after, reg.pubs[k].provider)
    {
      assert reg.Leased(reg.pubs[k].provider);
    }
  }

  lemma OwnedWithout(recs: map<nat, Plugin>, after: map<nat, Plugin>, reg: Registry, h: nat)
    requires Owned(recs, reg) && forall k :: k != h && Owner(recs, k) ==> Owner(after, k)
    ensures Owned(after, reg.Without(h))
  {
  }

  lemma PinnedWithout(recs: map<nat, Plugin>, after: map<nat, Plugin>, reg: Registry, h: nat)
    requires Pinned(recs, reg) && forall k :: k != h && Steady(recs, k) ==> Steady(after, k)
    ensures Pinned(after, reg.Without(h))
  {
    forall k | k in reg.Without(h).pubs && reg.Without(h).pubs[k].consumers != {}
      ensures Steady(after, reg.Without(h).pubs[k].provider)
    {
      assert reg.pubs[k].consumers != {};
    }
  }

  // ---- blocks on one record ----

  lemma ActedSound(p: Plugin, a: Act, ready: bool)
    requires Sound(p)
    requires Fits(p, a)
    ensures Sound(Acted(p, a, ready))
    ensures Acted(p, a, ready).selectable == p.selectable && Acted(p, a, ready).name == p.name
    ensures Acted(p, a, ready).deps == p.deps && Acted(p, a, ready).version == p.version
    ensures MayOwn(p) ==> MayOwn(Acted(p, a, ready))
    ensures Inert(p) ==> Inert(Acted(p, a, ready))
    ensures Leaving(Acted(p, a, ready)) ==> Leaving(p) || a.PauseBegin? || a.UnloadBegin?
    ensures (p.state == Loaded && !p.transitioning && !a.PauseBegin? && !a.UnloadBegin?) ==>
              Acted(p, a, ready).state == Loaded && !Acted(p, a, ready).transitioning
    ensures Acted(p, a, ready).state == Loaded ==> p.state == Loaded || (a.StartCommit? && ready) || a.Resume?
    ensures p.state == Loaded ==> Acted(p, a, ready).state == Loaded || p.doing == Pausing
  {
  }

  /** A ready plugin names no plugin that is leaving: what answers to the name is the one that claims it. */
  lemma ReadyAvoidsLeaving(s: Host, h: nat, g: nat)
    requires Listed(s) && NamesUnique(s.recs) && h in s.recs && Ready(s, h)
    requires g in s.recs && Leaving(s.recs[g])
    ensures !Names(s.recs[h], s.recs[g].name)
  {
    forall i | 0 <= i < |s.recs[h].deps|
      ensures s.recs[h].deps[i].name != s.recs[g].name
    {
      var d := s.recs[h].deps[i];
      assert d in s.recs[h].deps && Met(s, h, d);
      var t := First(s.order, s.recs, d.name).value;
      assert Claims(s.recs, t) && Claims(s.recs, g) && t != g;
    }
  }

  lemma LocalListed(s: Host, h: nat, a: Act)
    requires Listed(s) && MayAct(s, h, a)
    ensures Listed(Apply(s, Local(h, a)))
    ensures Apply(s, Local(h, a)).recs[h] == Acted(s.recs[h], a, Ready(s, h))
  {
    ActedSound(s.recs[h], a, Ready(s, h));
    SetListed(s, h, Acted(s.recs[h], a, Ready(s, h)));
  }

  lemma KeptNames(recs: map<nat, Plugin>, h: nat, p: Plugin)
    requires NamesUnique(recs) && h in recs && p.name == recs[h].name
    requires p.selectable && !Inert(p) ==> Claims(recs, h)
    ensures NamesUnique(recs[h := p])
  {
    assert forall g :: Claims(recs[h := p], g) ==> Claims(recs, g);
  }

  lemma KeptUndisturbed(recs: map<nat, Plugin>, h: nat, p: Plugin)
    requires Undisturbed(recs) && h in recs && p.name == recs[h].name
    requires Leaving(p) ==> forall q :: q in recs && q != h && recs[q].state == Loaded ==> !Names(recs[q], p.name)
    requires p.state == Loaded ==> forall g :: g in recs && g != h && Leaving(recs[g]) ==> !Names(p, recs[g].name)
    ensures Undisturbed(recs[h := p])
  {
  }

  lemma LocalNames(s: Host, h: nat, a: Act)
    requires Listed(s) && NamesUnique(s.recs) && MayAct(s, h, a)
    ensures NamesUnique(Apply(s, Local(h, a)).recs)
  {
    ActedSound(s.recs[h], a, Ready(s, h));
    KeptNames(s.recs, h, Acted(s.recs[h], a, Ready(s, h)));
  }

  lemma LocalUndisturbed(s: Host, h: nat, a: Act)
    requires Listed(s) && NamesUnique(s.recs) && Undisturbed(s.recs) && MayAct(s, h, a)
    ensures Undisturbed(Apply(s, Local(h, a)).recs)
  {
    ActedSound(s.recs[h], a, Ready(s, h));
    var p, p' := s.recs[h], Acted(s.recs[h], a, Ready(s, h));
    KeptUndisturbed(s.recs, h, p') by {
      if p'.state == Loaded && p.state != Loaded {
        forall g | g in s.recs && g != h && Leaving(s.recs[g])
          ensures !Names(p', s.recs[g].name)
        {
          ReadyAvoidsLeaving(s, h, g);
        }
      }
    }
  }

  lemma LocalOwned(s: Host, h: nat, a: Act)
    requires Listed(s) && Owned(s.recs, s.reg) && MayAct(s, h, a)
    ensures Owned(Apply(s, Local(h, a)).recs, s.reg)
  {
    LocalListed(s, h, a);
    ActedSound(s.recs[h], a, Ready(s, h));
    OwnedSteady(s.recs, Apply(s, Local(h, a)).recs, s.reg);
  }

  lemma LocalPinned(s: Host, h: nat, a: Act)
    requires Listed(s) && Pinned(s.recs, s.reg) && MayAct(s, h, a)
    ensures Pinned(Apply(s, Local(h, a)).recs, s.reg)
  {
    LocalListed(s, h, a);
    ActedSound(s.recs[h], a, Ready(s, h));
    PinnedSteady(s.recs, Apply(s, Local(h, a)).recs, s.reg);
  }

  lemma LocalSafe(s: Host, h: nat, a: Act)
    requires Safe(s) && MayAct(s, h, a)
    ensures Safe(Apply(s, Local(h, a)))
  {
    LocalListed(s, h, a);
    LocalNames(s, h, a);
    LocalUndisturbed(s, h, a);
    LocalOwned(s, h, a);
    LocalPinned(s, h, a);
  }

  lemma KeptMet(s: Host, h: nat, p: Plugin, q: nat, d: Dependency)
    requires h in s.recs && p.selectable == s.recs[h].selectable && p.name == s.recs[h].name && p.version == s.recs[h].version
    requires Met(s, q, d) && (First(s.order, s.recs, d.name) == Some(h) ==> p.state == Loaded)
    ensures Met(Set(s, h, p), q, d)
  {
    FirstSteady(s.order, s.recs, h, p, d.name);
  }

  lemma LocalKeepsDependencies(s: Host, h: nat, a: Act)
    requires Safe(s) && MayAct(s, h, a) && DependenciesRun(s)
    ensures DependenciesRun(Apply(s, Local(h, a)))
  {
    ActedSound(s.recs[h], a, Ready(s, h));
    var p, p' := s.recs[h], Acted(s.recs[h], a, Ready(s, h));
    var after := Apply(s, Local(h, a));
    forall q, d | q in after.recs && after.recs[q].state == Loaded && d in after.recs[q].deps
      ensures Met(after, q, d)
    {
      assert Running(s, q) && Met(s, q, d);
      assert First(s.order, s.recs, d.name) == Some(h) ==> Names(s.recs[q], p.name);
      KeptMet(s, h, p', q, d);
    }
  }

  // ---- discovery ----

  lemma DiscoverListed(s: Host, image: Image)
    requires Listed(s) && s.next != 0
    ensures Listed(Apply(s, Discover(image))) && s.next !in s.recs
  {
    assert s.next !in s.recs;
  }

  lemma DiscoverSafe(s: Host, image: Image)
    requires Safe(s) && s.next != 0
    ensures Safe(Apply(s, Discover(image)))
  {
    DiscoverListed(s, image);
    UnclaimedNames(s.recs, s.next, Fresh(image));
    OwnedSteady(s.recs, s.recs[s.next := Fresh(image)], s.reg);
    PinnedSteady(s.recs, s.recs[s.next := Fresh(image)], s.reg);
  }

  lemma DiscoverKeepsDependencies(s: Host, image: Image)
    requires Safe(s) && s.next != 0 && DependenciesRun(s)
    ensures DependenciesRun(Apply(s, Discover(image)))
  {
    var after := Apply(s, Discover(image));
    forall q, d | q in after.recs && after.recs[q].state == Loaded && d in after.recs[q].deps
      ensures Met(after, q, d)
    {
      FirstAppended(s.order, s.recs, s.next, Fresh(image), d.name);
      assert Running(s, q) && Met(s, q, d);
    }
  }

  lemma ExamineSafe(s: Host, h: nat, info: Option<Info>)
    requires Safe(s) && Enabled(s, Examine(h, info))
    ensures Safe(Apply(s, Examine(h, info)))
  {
    var p' := Examined(s, h, info);
    var after := Apply(s, Examine(h, info));
    ExaminedSound(s, h, info);
    SetListed(s, h, p');
    StrangerDisturbsNobody(s.recs, h, p');
    OwnedSteady(s.recs, after.recs, s.reg);
    PinnedSteady(s.recs, after.recs, s.reg);
    ExamineNames(s, h, info);
  }

  lemma ExaminedSound(s: Host, h: nat, info: Option<Info>)
    requires h in s.recs && s.recs[h].doing == Examining && Sound(s.recs[h])
    ensures Sound(Examined(s, h, info)) && Examined(s, h, info).state != Loaded
    ensures !Leaving(Examined(s, h, info)) && !MayOwn(s.recs[h])
  {
  }

  lemma ExamineNames(s: Host, h: nat, info: Option<Info>)
    requires Safe(s) && Enabled(s, Examine(h, info))
    ensures NamesUnique(Apply(s, Examine(h, info)).recs)
  {
    var p' := Examined(s, h, info);
    var after := Apply(s, Examine(h, info));
    assert forall g :: g != h && Claims(after.recs, g) ==> Claims(s.recs, g);
    forall g | g != h && Claims(after.recs, g) && Claims(after.recs, h)
      ensures after.recs[g].name != after.recs[h].name
    {
      assert !Answers(s.recs, g, p'.name);
    }
  }

  /** The commit of a self-dependent record that stands before the one its name belongs to. */
  ghost predicate Shadows(s: Host, step: Step) {
    && step.Examine? && step.info.Some? && SelfDependent(step.info.value)
    && var holder := First(s.order, s.recs, step.info.value.name);
       holder.Some? && StandsBefore(s.order, step.h, holder.value) && Wanted(s, step.info.value.name)
  }

  /** Some running plugin names it. */
  ghost predicate Wanted(s: Host, name: string) {
    exists q :: q in s.recs && s.recs[q].state == Loaded && Names(s.recs[q], name)
  }

  lemma ExamineAnswers(s: Host, h: nat, info: Option<Info>, name: string)
    requires Safe(s) && Enabled(s, Examine(h, info)) && First(s.order, s.recs, name).Some?
    ensures First(s.order, s.recs[h := Examined(s, h, info)], name) ==
            if info.Some? && SelfDependent(info.value) && info.value.name == name
               && StandsBefore(s.order, h, First(s.order, s.recs, name).value)
            then Some(h) else First(s.order, s.recs, name)
  {
    var p' := Examined(s, h, info);
    var t := First(s.order, s.recs, name).value;
    if Answers(s.recs[h := p'], h, name) {
      assert t != h && Answers(s.recs, t, name);
      FirstGained(s.order, s.recs, h, p', name);
    } else {
      FirstSteady(s.order, s.recs, h, p', name);
    }
  }

  lemma NamesStopped(s: Host, q: nat, name: string)
    requires q in s.recs && s.recs[q].state == Loaded && Names(s.recs[q], name)
    requires First(s.order, s.recs, name).Some? && s.recs[First(s.order, s.recs, name).value].state != Loaded
    ensures !DependenciesRun(s)
  {
    var i :| 0 <= i < |s.recs[q].deps| && s.recs[q].deps[i].name == name;
    assert s.recs[q].deps[i] in s.recs[q].deps && !Met(s, q, s.recs[q].deps[i]);
    assert !Running(s, q);
  }

  lemma ShadowBreaks(s: Host, h: nat, info: Option<Info>)
    requires Safe(s) && Enabled(s, Examine(h, info)) && Shadows(s, Examine(h, info))
    ensures !DependenciesRun(Apply(s, Examine(h, info)))
  {
    var after := Apply(s, Examine(h, info));
    var q :| q in s.recs && s.recs[q].state == Loaded && Names(s.recs[q], info.value.name);
    ExamineAnswers(s, h, info, info.value.name);
    NamesStopped(after, q, info.value.name);
  }

  lemma ExamineKeepsMet(s: Host, h: nat, info: Option<Info>, q: nat, d: Dependency)
    requires Safe(s) && Enabled(s, Examine(h, info)) && !Shadows(s, Examine(h, info))
    requires q in s.recs && s.recs[q].state == Loaded && d in s.recs[q].deps && Met(s, q, d)
    ensures Met(Apply(s, Examine(h, info)), q, d)
  {
    var i :| 0 <= i < |s.recs[q].deps| && s.recs[q].deps[i] == d;
    assert Names(s.recs[q], d.name);
    ExamineAnswers(s, h, info, d.name);
  }

  lemma ExamineDependencies(s: Host, h: nat, info: Option<Info>)
    requires Safe(s) && Enabled(s, Examine(h, info)) && DependenciesRun(s)
    ensures DependenciesRun(Apply(s, Examine(h, info))) <==> !Shadows(s, Examine(h, info))
  {
    var after := Apply(s, Examine(h, info));
    if Shadows(s, Examine(h, info)) {
      ShadowBreaks(s, h, info);
    } else {
      forall q, d | q in after.recs && after.recs[q].state == Loaded && d in after.recs[q].deps
        ensures Met(after, q, d)
      {
        assert Running(s, q) && Met(s, q, d);
        ExamineKeepsMet(s, h, info, q, d);
      }
    }
  }

  // ---- removal ----

  lemma {:induction false} RemovedDistinct(order: seq<nat>, h: nat)
    requires forall i, j :: 0 <= i < j < |order| ==> order[i] != order[j]
    ensures forall i, j :: 0 <= i < j < |Removed(order, h)| ==> Removed(order, h)[i] != Removed(order, h)[j]
  {
    if order != [] {
      RemovedDistinct(order[1..], h);
      assert forall x :: x in order[1..] ==> x != order[0];
      var rest := Removed(order[1..], h);
      assert forall k :: 0 <= k < |rest| ==> rest[k] in rest;
    }
  }

  ghost predicate Removable(s: Host, h: nat) {
    h in s.recs && !MayOwn(s.recs[h]) && (s.recs[h].state == Loaded ==> s.recs[h].doing == Released)
  }

  lemma WithoutSafe(s: Host, h: nat)
    requires Safe(s) && Removable(s, h)
    ensures Safe(Without(s, h))
  {
    RemovedDistinct(s.order, h);
    var after := Without(s, h);
    assert forall g :: Claims(after.recs, g) ==> Claims(s.recs, g);
    OwnedSteady(s.recs, after.recs, s.reg);
    PinnedSteady(s.recs, after.recs, s.reg);
  }

  lemma WithoutKeepsDependencies(s: Host, h: nat)
    requires Safe(s) && Removable(s, h) && DependenciesRun(s)
    ensures DependenciesRun(Without(s, h))
  {
    var after := Without(s, h);
    forall q, d | q in after.recs && after.recs[q].state == Loaded && d in after.recs[q].deps
      ensures Met(after, q, d)
    {
      assert Running(s, q) && Met(s, q, d);
      var i :| 0 <= i < |s.recs[q].deps| && s.recs[q].deps[i] == d;
      assert Names(s.recs[q], d.name) && First(s.order, s.recs, d.name) != Some(h);
      FirstRemoved(s.order, s.recs, h, d.name);
    }
  }

  // ---- services ----

  /** While a plugin fails to start, or is unloaded, nobody can lease its services. */
  lemma ReleaseNeverBusy(s: Host, h: nat)
    requires Safe(s) && h in s.recs && s.recs[h].doing in {Failing, Unloading}
    ensures !s.reg.Leased(h)
  {
  }

  lemma SetListed(s: Host, h: nat, p: Plugin)
    requires Listed(s) && h in s.recs && Sound(p)
    ensures Listed(Set(s, h, p))
  {
  }

  lemma ReleasedSafe(s: Host, h: nat, p: Plugin)
    requires Safe(s) && h in s.recs && s.recs[h].doing in {Failing, Unloading}
    requires p == s.recs[h].(doing := if s.recs[h].doing == Failing then Failed(false) else Released)
    ensures Safe(Set(s, h, p).(reg := s.reg.Without(h)))
  {
    SetListed(s, h, p);
    s.reg.WithoutValid(h);
    UnclaimedNames(s.recs, h, p);
    OwnedWithout(s.recs, s.recs[h := p], s.reg, h);
    PinnedWithout(s.recs, s.recs[h := p], s.reg, h);
  }

  lemma PhaseKeepsDependencies(s: Host, h: nat, doing: Phase)
    requires Safe(s) && h in s.recs && DependenciesRun(s)
    ensures DependenciesRun(Set(s, h, s.recs[h].(doing := doing)))
  {
    var p' := s.recs[h].(doing := doing);
    var after := Set(s, h, p');
    forall q, d | q in after.recs && after.recs[q].state == Loaded && d in after.recs[q].deps
      ensures Met(after, q, d)
    {
      assert Running(s, q) && Met(s, q, d);
      KeptMet(s, h, p', q, d);
    }
  }

  predicate OnRegistry(step: Step) {
    step.Publish? || step.Withdraw? || step.Release? || step.Query?
  }

  lemma RegistryValid(s: Host, step: Step)
    requires s.reg.Valid() && Enabled(s, step) && OnRegistry(step)
    ensures Apply(s, step).reg.Valid()
  {
    match step
    case Publish(h, key, service) => s.reg.PublishedValid(h, key, service);
    case Withdraw(h, publication) => s.reg.WithdrawnValid(publication);
    case Release(h, key) =>
    case Query(h, key) =>
  }

  lemma RegistryOwned(s: Host, step: Step)
    requires Listed(s) && Owned(s.recs, s.reg) && Enabled(s, step) && OnRegistry(step)
    ensures Owned(s.recs, Apply(s, step).reg)
  {
    var after := Apply(s, step).reg;
    match step
    case Publish(h, key, service) => assert Owner(s.recs, h);
    case Withdraw(h, publication) =>
    case Release(h, key) =>
    case Query(h, key) => assert Owner(s.recs, h);
  }

  lemma RegistryPinned(s: Host, step: Step)
    requires Pinned(s.recs, s.reg) && Enabled(s, step) && OnRegistry(step)
    ensures Pinned(s.recs, Apply(s, step).reg)
  {
  }

  // ---- every step, every run ----

  lemma StepSafe(s: Host, step: Step)
    requires Safe(s) && Enabled(s, step)
    ensures Safe(Apply(s, step))
  {
    match step
    case Local(h, act) => LocalSafe(s, h, act);
    case Discover(image) => DiscoverSafe(s, image);
    case Examine(h, info) => ExamineSafe(s, h, info);
    case FailRelease(h) =>
      ReleaseNeverBusy(s, h);
      ReleasedSafe(s, h, s.recs[h].(doing := Failed(false)));
    case UnloadRelease(h) =>
      ReleaseNeverBusy(s, h);
      ReleasedSafe(s, h, s.recs[h].(doing := Released));
    case UnloadEnd(h) => WithoutSafe(s, h);
    case Forget(h) => WithoutSafe(s, h);
    case _ =>
      RegistryValid(s, step);
      RegistryOwned(s, step);
      RegistryPinned(s, step);
      RegistryOnly(s, step);
  }

  lemma RegistryOnly(s: Host, step: Step)
    requires Enabled(s, step) && OnRegistry(step)
    ensures Apply(s, step) == s.(reg := Apply(s, step).reg)
  {
  }

  lemma RegistryKeepsDependencies(s: Host, reg: Registry)
    requires DependenciesRun(s)
    ensures DependenciesRun(s.(reg := reg))
  {
    var after := s.(reg := reg);
    forall q, d | q in after.recs && after.recs[q].state == Loaded && d in after.recs[q].deps
      ensures Met(after, q, d)
    {
      assert Running(s, q) && Met(s, q, d);
    }
  }

  /** The one step that can leave a running plugin without its dependency. */
  lemma StepDependencies(s: Host, step: Step)
    requires Safe(s) && Enabled(s, step) && DependenciesRun(s)
    ensures DependenciesRun(Apply(s, step)) <==> !Shadows(s, step)
  {
    match step
    case Local(h, act) => LocalKeepsDependencies(s, h, act);
    case Discover(image) => DiscoverKeepsDependencies(s, image);
    case Examine(h, info) => ExamineDependencies(s, h, info);
    case FailRelease(h) =>
      ReleaseNeverBusy(s, h);
      PhaseKeepsDependencies(s, h, Failed(false));
      RegistryKeepsDependencies(Set(s, h, s.recs[h].(doing := Failed(false))), s.reg.Without(h));
    case UnloadRelease(h) =>
      ReleaseNeverBusy(s, h);
      PhaseKeepsDependencies(s, h, Released);
      RegistryKeepsDependencies(Set(s, h, s.recs[h].(doing := Released)), s.reg.Without(h));
    case UnloadEnd(h) => WithoutKeepsDependencies(s, h);
    case Forget(h) => WithoutKeepsDependencies(s, h);
    case _ =>
      RegistryOnly(s, step);
      RegistryKeepsDependencies(s, Apply(s, step).reg);
  }
}
