/**
  Whole runs of the host from its start, over every interleaving of commands.
 */
module HostRuns {
  import opened Options
  import opened HostProtocol
  import opened HostSafety

  lemma {:induction false} RunSafe(s: Host, steps: seq<Step>)
    requires Safe(s) && Legal(s, steps)
    ensures Safe(After(s, steps))
    decreases |steps|
  {
    if steps != [] {
      StepSafe(s, steps[0]);
      RunSafe(Apply(s, steps[0]), steps[1..]);
    }
  }

  /** No command is where its release of services would find a lease, and none ever was. */
  ghost predicate NeverRefused(s: Host) {
    && (forall h :: h in s.recs && s.recs[h].doing in {Failing, Unloading} ==> !s.reg.Leased(h))
    && (forall h :: h in s.recs ==> s.recs[h].doing != Failed(true))
  }

  lemma SafeNeverRefused(s: Host)
    requires Safe(s)
    ensures NeverRefused(s)
  {
    forall h | h in s.recs && s.recs[h].doing in {Failing, Unloading}
      ensures !s.reg.Leased(h)
    {
      ReleaseNeverBusy(s, h);
    }
    assert forall h :: h in s.recs ==> Sound(s.recs[h]);
  }

  /** Whatever was run, a leased service has a steady provider, and the two service indexes are inverse. */
  lemma LeasesPinProviders(steps: seq<Step>)
    requires Legal(Initial, steps)
    ensures Pinned(After(Initial, steps).recs, After(Initial, steps).reg)
    ensures NeverRefused(After(Initial, steps))
    ensures After(Initial, steps).reg.Valid()
  {
    RunSafe(Initial, steps);
    SafeNeverRefused(After(Initial, steps));
  }

  ghost predicate AlwaysRun(s: Host, steps: seq<Step>)
    requires Legal(s, steps)
    decreases |steps|
  {
    DependenciesRun(s) && (steps == [] || AlwaysRun(Apply(s, steps[0]), steps[1..]))
  }

  ghost predicate EverShadowed(s: Host, steps: seq<Step>)
    requires Legal(s, steps)
    decreases |steps|
  {
    steps != [] && (Shadows(s, steps[0]) || EverShadowed(Apply(s, steps[0]), steps[1..]))
  }

  /** Dependencies run in every state of a run exactly when no commit of the run shadows a name. */
  lemma {:induction false} RunDependencies(s: Host, steps: seq<Step>)
    requires Safe(s) && DependenciesRun(s) && Legal(s, steps)
    ensures AlwaysRun(s, steps) <==> !EverShadowed(s, steps)
    decreases |steps|
  {
    if steps != [] {
      StepSafe(s, steps[0]);
      StepDependencies(s, steps[0]);
      if !Shadows(s, steps[0]) {
        RunDependencies(Apply(s, steps[0]), steps[1..]);
      }
    }
  }

  // ---- discoveries that do not overlap ----

  /** The plugin under examination, if there is one, is the last of the list. */
  ghost predicate Lone(s: Host) {
    forall h :: h in s.recs && s.recs[h].doing == Examining ==> s.order != [] && s.order[|s.order| - 1] == h
  }

  ghost predicate Quiet(s: Host) {
    forall h :: h in s.recs ==> s.recs[h].doing != Examining
  }

  /** No discovery begins while another is under way. */
  ghost predicate OneByOne(s: Host, steps: seq<Step>)
    requires Legal(s, steps)
    decreases |steps|
  {
    steps == [] || ((steps[0].Discover? ==> Quiet(s)) && OneByOne(Apply(s, steps[0]), steps[1..]))
  }

  lemma {:induction false} LastStandsBeforeNobody(order: seq<nat>, a: nat, b: nat)
    requires order != [] && order[|order| - 1] == a && b in order && a != b
    requires forall i, j :: 0 <= i < j < |order| ==> order[i] != order[j]
    ensures !StandsBefore(order, a, b)
  {
    if order[0] != b {
      LastStandsBeforeNobody(order[1..], a, b);
    }
  }

  lemma {:induction false} RemovedKeepsLast(order: seq<nat>, h: nat)
    requires order != [] && order[|order| - 1] != h
    ensures var rest := Removed(order, h); rest != [] && rest[|rest| - 1] == order[|order| - 1]
  {
    if |order| > 1 {
      RemovedKeepsLast(order[1..], h);
    }
  }

  lemma LoneNeverShadows(s: Host, step: Step)
    requires Safe(s) && Lone(s) && Enabled(s, step)
    ensures !Shadows(s, step)
  {
    if step.Examine? && step.info.Some? {
      var holder := First(s.order, s.recs, step.info.value.name);
      if holder.Some? {
        LastStandsBeforeNobody(s.order, step.h, holder.value);
      }
    }
  }

  lemma ActedNeverExamines(p: Plugin, a: Act, ready: bool)
    requires Fits(p, a)
    ensures Acted(p, a, ready).doing != Examining
  {
  }

  lemma SetKeepsLone(s: Host, h: nat, p: Plugin)
    requires Lone(s) && h in s.recs && p.doing != Examining
    ensures Lone(Set(s, h, p))
  {
  }

  lemma DiscoverKeepsLone(s: Host, image: Image)
    requires Quiet(s) && s.next != 0
    ensures Lone(Apply(s, Discover(image)))
  {
  }

  lemma LocalKeepsLone(s: Host, h: nat, a: Act)
    requires Lone(s) && MayAct(s, h, a)
    ensures Lone(Apply(s, Local(h, a)))
  {
    ActedNeverExamines(s.recs[h], a, Ready(s, h));
    SetKeepsLone(s, h, Acted(s.recs[h], a, Ready(s, h)));
  }

  lemma ReleaseKeepsLone(s: Host, step: Step)
    requires Lone(s) && Enabled(s, step) && (step.FailRelease? || step.UnloadRelease?)
    requires !s.reg.Leased(step.h)
    ensures Lone(Apply(s, step))
  {
    SetKeepsLone(s, step.h, s.recs[step.h].(doing := if step.FailRelease? then Failed(false) else Released));
  }

  lemma RegistryKeepsLone(s: Host, step: Step)
    requires Lone(s) && Enabled(s, step) && OnRegistry(step)
    ensures Lone(Apply(s, step))
  {
    RegistryOnly(s, step);
  }

  lemma StepKeepsLone(s: Host, step: Step)
    requires Safe(s) && Lone(s) && Enabled(s, step) && (step.Discover? ==> Quiet(s))
    ensures Lone(Apply(s, step))
  {
    match step
    case Local(h, act) => LocalKeepsLone(s, h, act);
    case Discover(image) => DiscoverKeepsLone(s, image);
    case Examine(h, info) => SetKeepsLone(s, h, Examined(s, h, info));
    case FailRelease(h) =>
      ReleaseNeverBusy(s, h);
      ReleaseKeepsLone(s, step);
    case UnloadRelease(h) =>
      ReleaseNeverBusy(s, h);
      ReleaseKeepsLone(s, step);
    case UnloadEnd(h) => RemovedKeepsLone(s, h);
    case Forget(h) => RemovedKeepsLone(s, h);
    case _ => RegistryKeepsLone(s, step);
  }

  lemma RemovedKeepsLone(s: Host, h: nat)
    requires Safe(s) && Lone(s) && h in s.recs && s.recs[h].doing != Examining
    ensures Lone(Without(s, h))
  {
    forall e | e in s.recs && s.recs[e].doing == Examining
      ensures Removed(s.order, h) != [] && Removed(s.order, h)[|Removed(s.order, h)| - 1] == e
    {
      RemovedKeepsLast(s.order, h);
    }
  }

  lemma {:induction false} LoneRunNeverShadowed(s: Host, steps: seq<Step>)
    requires Safe(s) && Lone(s) && Legal(s, steps) && OneByOne(s, steps)
    ensures !EverShadowed(s, steps)
    decreases |steps|
  {
    if steps != [] {
      LoneNeverShadows(s, steps[0]);
      StepSafe(s, steps[0]);
      StepKeepsLone(s, steps[0]);
      LoneRunNeverShadowed(Apply(s, steps[0]), steps[1..]);
    }
  }

  /** When discoveries do not overlap, running plugins have their dependencies running, always. */
  lemma DependenciesAlwaysRun(steps: seq<Step>)
    requires Legal(Initial, steps) && OneByOne(Initial, steps)
    ensures AlwaysRun(Initial, steps)
  {
    LoneRunNeverShadowed(Initial, steps);
    RunDependencies(Initial, steps);
  }

  // ---- a run with overlapping discoveries that breaks it ----

  const One: Option<Version> := Some(Version(1, 0, 0))
  const OnLib: seq<Dependency> := [Dependency("lib", One, Exact)]

  const Overlap: seq<Step> := [
    Discover(Opened), Discover(Opened),
    Examine(2, Some(Info("lib", One, []))), Local(2, StartBegin), Local(2, StartCommit(true, true)),
    Discover(Opened),
    Examine(3, Some(Info("app", One, OnLib))), Local(3, StartBegin), Local(3, StartCommit(true, true)),
    Examine(1, Some(Info("lib", One, OnLib)))]

  const Lib: Plugin := Plugin("lib", One, [], Loading, true, false, false, true, false, Idle)
  const App: Plugin := Plugin("app", One, OnLib, Loading, true, false, false, true, false, Idle)
  const Pending: Plugin := Plugin("", None, [], Error, false, false, false, true, false, Examining)
  const Running2: Plugin := Lib.(state := Loaded, accepting := true)

  function Snapshot(order: seq<nat>, recs: map<nat, Plugin>): Host {
    Host(order, recs, |order| + 1, Initial.reg)
  }

  lemma {:induction false} Extend(s: Host, steps: seq<Step>, step: Step)
    requires Legal(s, steps) && Enabled(After(s, steps), step)
    ensures Legal(s, steps + [step]) && After(s, steps + [step]) == Apply(After(s, steps), step)
    decreases |steps|
  {
    if steps == [] {
      assert [step][1..] == [];
    } else {
      assert (steps + [step])[1..] == steps[1..] + [step];
      Extend(Apply(s, steps[0]), steps[1..], step);
    }
  }

  lemma ExtendOverlap(k: nat, s: Host, next: Host)
    requires k < |Overlap| && Legal(Initial, Overlap[..k]) && After(Initial, Overlap[..k]) == s
    requires Enabled(s, Overlap[k]) && Apply(s, Overlap[k]) == next
    ensures Legal(Initial, Overlap[..k + 1]) && After(Initial, Overlap[..k + 1]) == next
  {
    Extend(Initial, Overlap[..k], Overlap[k]);
    assert Overlap[..k + 1] == Overlap[..k] + [Overlap[k]];
  }

  lemma LibStarts()
    ensures Legal(Initial, Overlap[..5])
    ensures After(Initial, Overlap[..5]) == Snapshot([1, 2], map[1 := Pending, 2 := Running2])
  {
    var s3 := Snapshot([1, 2], map[1 := Pending, 2 := Lib]);
    var s4 := Snapshot([1, 2], map[1 := Pending, 2 := Lib.(accepting := true, doing := Starting)]);
    LibExamined();
    ExtendOverlap(3, s3, s4);
    LibRuns();
    ExtendOverlap(4, s4, Snapshot([1, 2], map[1 := Pending, 2 := Running2]));
  }

  lemma LibExamined()
    ensures Legal(Initial, Overlap[..3])
    ensures After(Initial, Overlap[..3]) == Snapshot([1, 2], map[1 := Pending, 2 := Lib])
  {
    var s1 := Snapshot([1], map[1 := Pending]);
    var s2 := Snapshot([1, 2], map[1 := Pending, 2 := Pending]);
    assert Initial.recs[1 := Pending] == map[1 := Pending];
    ExtendOverlap(0, Initial, s1);
    ExtendOverlap(1, s1, s2);
    assert !SelfDependent(Info("lib", One, [])) && !Taken(s2, 2, "lib");
    ExtendOverlap(2, s2, Snapshot([1, 2], map[1 := Pending, 2 := Lib]));
  }

  lemma LibRuns()
    ensures var s4 := Snapshot([1, 2], map[1 := Pending, 2 := Lib.(accepting := true, doing := Starting)]);
      && Enabled(s4, Overlap[4])
      && Apply(s4, Overlap[4]) == Snapshot([1, 2], map[1 := Pending, 2 := Running2])
  {
    assert Ready(Snapshot([1, 2], map[1 := Pending, 2 := Lib.(accepting := true, doing := Starting)]), 2);
  }

  const Up: Plugin := App.(accepting := true, doing := Starting)
  const BothRun: Host := Snapshot([1, 2, 3], map[1 := Pending, 2 := Running2, 3 := Up.(state := Loaded, doing := Idle)])

  lemma AppFound()
    ensures Legal(Initial, Overlap[..7])
    ensures After(Initial, Overlap[..7]) == Snapshot([1, 2, 3], map[1 := Pending, 2 := Running2, 3 := App])
  {
    LibStarts();
    var s6 := Snapshot([1, 2, 3], map[1 := Pending, 2 := Running2, 3 := Pending]);
    ExtendOverlap(5, Snapshot([1, 2], map[1 := Pending, 2 := Running2]), s6);
    assert OnLib[0].name == "lib" && !SelfDependent(Info("app", One, OnLib)) && !Taken(s6, 3, "app");
    ExtendOverlap(6, s6, Snapshot([1, 2, 3], map[1 := Pending, 2 := Running2, 3 := App]));
  }

  lemma AppStarts()
    ensures Legal(Initial, Overlap[..9]) && After(Initial, Overlap[..9]) == BothRun
  {
    AppFound();
    var s7 := Snapshot([1, 2, 3], map[1 := Pending, 2 := Running2, 3 := App]);
    var s8 := Snapshot([1, 2, 3], map[1 := Pending, 2 := Running2, 3 := Up]);
    LibAnswers(s7);
    ExtendOverlap(7, s7, s8);
    LibAnswers(s8);
    ExtendOverlap(8, s8, BothRun);
  }

  /** Two overlapping discoveries: a running plugin is left with a dependency that does not run. */
  lemma OverlapBreaksDependencies()
    ensures Legal(Initial, Overlap) && !DependenciesRun(After(Initial, Overlap))
  {
    AppStarts();
    var last := Apply(BothRun, Overlap[9]);
    ExtendOverlap(9, BothRun, last);
    assert Overlap[..10] == Overlap;
    assert OnLib[0].name == "lib" && SelfDependent(Info("lib", One, OnLib));
    assert First(last.order, last.recs, "lib") == Some(1);
    assert OnLib[0] in last.recs[3].deps && !Met(last, 3, OnLib[0]);
    assert !Running(last, 3);
  }

  lemma LibAnswers(s: Host)
    requires s.order == [1, 2, 3] && s.recs.Keys == {1, 2, 3}
    requires s.recs[1] == Pending && s.recs[2] == Running2 && s.recs[3].deps == OnLib
    ensures First(s.order, s.recs, "lib") == Some(2) && Ready(s, 3)
  {
    assert [1, 2, 3][1..] == [2, 3];
    assert First([2, 3], s.recs, "lib") == Some(2);
  }
}
