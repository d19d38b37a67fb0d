/**
  What each step does to one plugin, in both directions: when it comes and goes, when it runs, takes on
  resources, keeps its module open, or is put aside for clean-up.
 */
module HostEffects {
  import opened Options
  import opened HostProtocol

  // ---- the plugin list ----

  predicate Leaves(step: Step, h: nat) {
    (step.UnloadEnd? || step.Forget?) && step.h == h
  }

  /** A plugin is listed from its discovery until its unload ends or it is forgotten. */
  lemma PresentIff(s: Host, step: Step, h: nat)
    requires Listed(s) && Enabled(s, step)
    ensures h in Apply(s, step).recs <==> (step.Discover? && h == s.next) || (h in s.recs && !Leaves(step, h))
    ensures step.Discover? ==> s.next !in s.recs && Apply(s, step).order == s.order + [s.next]
  {
  }

  /** What a discovery finds of the module decides what is kept of it. */
  lemma DiscoveredIs(s: Host, image: Image)
    requires s.next != 0
    ensures var p := Apply(s, Discover(image)).recs[s.next];
      && !p.selectable && !p.accepting && !p.transitioning && !p.cleanup
      && (image.Opened? <==> p.open) && (image.Opened? <==> p.doing == Examining)
      && (image.Unreadable? || image.Opened? <==> p.state == Error) && (image.NoExports? <==> p.state == Invalid)
  {
  }

  predicate Concerns(step: Step, h: nat) {
    || ((step.Local? || step.Examine? || step.FailRelease? || step.UnloadRelease?) && step.h == h)
  }

  /** A step of one plugin leaves every other record alone, and no step of the service registry touches any. */
  lemma OthersKept(s: Host, step: Step, h: nat)
    requires Listed(s) && Enabled(s, step) && h in s.recs && !Concerns(step, h) && !Leaves(step, h)
    ensures h in Apply(s, step).recs && Apply(s, step).recs[h] == s.recs[h]
  {
  }

  // ---- one plugin's own steps ----

  predicate Does(step: Step, h: nat, a: Act) {
    step == Local(h, a)
  }

  /** The start succeeds: the plugin's load callback did, and its dependencies still run. */
  ghost predicate Loads(s: Host, step: Step, h: nat)
    requires h in s.recs
  {
    Does(step, h, StartCommit(true, true)) && Ready(s, h)
  }

  /** It runs from a start that succeeds, or from its resumption, until its pause succeeds or it is gone. */
  lemma LoadedIff(s: Host, step: Step, h: nat)
    requires Safe(s) && Enabled(s, step) && h in s.recs && !Leaves(step, h)
    ensures h in Apply(s, step).recs
    ensures Apply(s, step).recs[h].state == Loaded <==>
      || Loads(s, step, h) || Does(step, h, Resume)
      || (s.recs[h].state == Loaded && !Does(step, h, PauseEnd(true)))
  {
    if Concerns(step, h) && !step.Local? {
      ConcernedState(s, step, h);
    } else if !Concerns(step, h) {
      OthersKept(s, step, h);
    }
  }

  lemma ConcernedState(s: Host, step: Step, h: nat)
    requires Safe(s) && Enabled(s, step) && h in s.recs && Concerns(step, h) && !step.Local?
    ensures h in Apply(s, step).recs
    ensures Apply(s, step).recs[h].state == Loaded <==> s.recs[h].state == Loaded
    ensures Apply(s, step).recs[h].state == Paused <==> s.recs[h].state == Paused
  {
  }

  /** It is paused from a pause, or a start that asks for it, that succeeds, until it is resumed. */
  lemma PausedIff(s: Host, step: Step, h: nat)
    requires Safe(s) && Enabled(s, step) && h in s.recs && !Leaves(step, h)
    ensures h in Apply(s, step).recs
    ensures Apply(s, step).recs[h].state == Paused <==>
      || Does(step, h, PauseEnd(true)) || Does(step, h, PrepareEnd(true))
      || (s.recs[h].state == Paused && !Does(step, h, Resume))
  {
    if Concerns(step, h) && !step.Local? {
      ConcernedState(s, step, h);
    } else if !Concerns(step, h) {
      OthersKept(s, step, h);
    }
  }

  predicate Admits(a: Act, ready: bool) {
    a.StartBegin? || (a == StartCommit(true, true) && ready) || a == PauseEnd(false) || a.Resume? || (a.UnloadFail? && a.restore)
  }

  predicate Bars(a: Act, ready: bool) {
    || a.Reject? || (a.StartCommit? && !(a.loaded && a.activate && ready)) || a == PrepareEnd(true)
    || a.PauseBegin? || a.UnloadBegin? || (a.UnloadFail? && !a.restore)
  }

  /** What an act on a record does to it, field by field. */
  lemma ActedIff(p: Plugin, a: Act, ready: bool)
    requires Fits(p, a)
    ensures Acted(p, a, ready).accepting <==> Admits(a, ready) || (p.accepting && !Bars(a, ready))
    ensures Acted(p, a, ready).open <==> p.open && !a.Reject? && !a.FailEnd?
    ensures Acted(p, a, ready).cleanup <==>
      || p.cleanup || a == StopEnd(false) || (a.FailCommit? && (!a.released || p.doing.busy)) || (a.UnloadFail? && a.quarantine)
    ensures Acted(p, a, ready).transitioning <==>
      || a.PauseBegin? || a.Resume? || a.UnloadBegin?
      || (p.transitioning && a != PauseEnd(false) && !a.AnnounceEnd? && !a.UnloadFail?)
    ensures Acted(p, a, ready).state == Error <==>
      || a.Reject? || a == PrepareEnd(false) || a.FailCommit? || (p.state == Error && a != PrepareEnd(true)
         && !(a == StartCommit(true, true) && ready) && a != PauseEnd(true) && !a.Resume?)
  {
  }

  /** A plugin put aside for clean-up stays listed, and put aside, until an unload of it ends. */
  lemma CleanupStays(s: Host, step: Step, h: nat)
    requires Safe(s) && Enabled(s, step) && h in s.recs && s.recs[h].cleanup && step != UnloadEnd(h)
    ensures h in Apply(s, step).recs && Apply(s, step).recs[h].cleanup
  {
    if step.Local? && step.h == h {
      ActedIff(s.recs[h], step.act, Ready(s, h));
    }
  }

  /** A plugin is paused or unloaded only while no plugin that runs, and unloaded while none whose module is open, names it. */
  lemma LeavingAlone(s: Host, h: nat, a: Act, q: nat, i: nat)
    requires Enabled(s, Local(h, a)) && (a.PauseBegin? || a.UnloadBegin?)
    requires q in s.recs && q != h && i < |s.recs[q].deps| && s.recs[q].deps[i].name == s.recs[h].name
    ensures s.recs[q].state != Loaded && (a.UnloadBegin? ==> !s.recs[q].open)
  {
    assert Names(s.recs[q], s.recs[h].name);
  }

  // ---- examination ----

  /** The plugin names itself among its dependencies. */
  predicate NamesItself(info: Info) {
    exists d :: d in info.deps && d.name == info.name
  }

  /** Another plugin of that name is in the list. */
  ghost predicate NameTaken(s: Host, h: nat, name: string) {
    exists q :: q in s.recs && q != h && s.recs[q].selectable && s.recs[q].name == name
  }

  /**
    An examination admits the plugin to start-up exactly when its module told about itself, it does not name
    itself as a dependency, and its name is free; what it told is taken over in any case.
   */
  lemma ExaminedIff(s: Host, h: nat, info: Option<Info>)
    requires Enabled(s, Examine(h, info))
    ensures var p := Apply(s, Examine(h, info)).recs[h];
      && (p.state == Loading <==>
          info.Some? && !NamesItself(info.value) && !NameTaken(s, h, info.value.name))
      && (info.Some? ==> p.name == info.value.name && p.version == info.value.version && p.deps == info.value.deps)
      && (info.None? ==> p.state == Invalid && !p.open)
      && (info.Some? && p.state != Loading ==> p.state == Error && !p.open)
      && (info.Some? && NamesItself(info.value) ==> p.selectable)
  {
  }
}
