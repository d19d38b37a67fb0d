/**
  Start-up of the discovered plugins, one thread, with the outcome of every load callback fixed in
  advance: a fixpoint loop over the plugin records, updated in place.
 */
module PluginStartup {
  import opened Options
  import opened HostProtocol

  datatype Verdict = Start | Wait | Refuse

  /** `loads`: the plugins whose load callback succeeds; `cleans`: those whose failed load rolls back. */
  datatype Oracle = Oracle(loads: set<nat>, cleans: set<nat>)

  // ---- what start-up should compute ----

  /** The dependency names another plugin of the right version. */
  predicate Matches(order: seq<nat>, recs: map<nat, Plugin>, h: nat, d: Dependency) {
    var target := First(order, recs, d.name);
    target.Some? && target.value != h && Satisfies(recs[target.value].version, d)
  }

  function Target(order: seq<nat>, recs: map<nat, Plugin>, d: Dependency): nat {
    var target := First(order, recs, d.name);
    if target.Some? then target.value else 0
  }

  /** The plugin loads, and each of its dependencies fits, is in the set and is not in a transition. */
  predicate Supported(order: seq<nat>, recs: map<nat, Plugin>, o: Oracle, among: set<nat>, h: nat)
    requires h in recs
  {
    h in o.loads && AllBacked(order, recs, among, h)
  }

  predicate AllBacked(order: seq<nat>, recs: map<nat, Plugin>, among: set<nat>, h: nat)
    requires h in recs
  {
    forall d :: d in recs[h].deps ==> Backed(order, recs, among, h, d)
  }

  predicate Backed(order: seq<nat>, recs: map<nat, Plugin>, among: set<nat>, h: nat, d: Dependency) {
    && Matches(order, recs, h, d)
    && Target(order, recs, d) in among && !recs[Target(order, recs, d)].transitioning
  }

  /** A plugin that asks for a later version than the one that answers is not ready, whatever runs. */
  lemma OldVersionBlocks(order: seq<nat>, recs: map<nat, Plugin>, among: set<nat>, h: nat, d: Dependency, base: nat)
    requires h in recs && d in recs[h].deps && d.requirement == AtLeast && d.version.Some? && Digits(d.version.value, base)
    requires First(order, recs, d.name).Some?
    requires var running := recs[First(order, recs, d.name).value].version;
      running.Some? && Digits(running.value, base) && Number(running.value, base) < Number(d.version.value, base)
    ensures !AllBacked(order, recs, among, h)
  {
    SatisfiesIff(recs[First(order, recs, d.name).value].version.value, d, base);
    assert !Backed(order, recs, among, h, d);
  }

  /** The plugins that wait to be started. */
  function Waiting(recs: map<nat, Plugin>, discovered: seq<nat>): set<nat> {
    set h | h in discovered && h in recs && recs[h].state == Loading
  }

  function AllLoaded(recs: map<nat, Plugin>): set<nat> {
    set h | h in recs && recs[h].state == Loaded
  }

  /** Holds what already runs, and every waiting plugin it supports. */
  ghost predicate Closed(order: seq<nat>, recs: map<nat, Plugin>, discovered: seq<nat>, o: Oracle, among: set<nat>) {
    && AllLoaded(recs) <= among
    && forall h :: h in Waiting(recs, discovered) && Supported(order, recs, o, among, h) ==> h in among
  }

  ghost predicate Least(order: seq<nat>, recs: map<nat, Plugin>, discovered: seq<nat>, o: Oracle, among: set<nat>) {
    && Closed(order, recs, discovered, o, among)
    && forall other :: Closed(order, recs, discovered, o, other) ==> among <= other
  }

  /** `a` depends on `b` by name. */
  predicate DependsOn(order: seq<nat>, recs: map<nat, Plugin>, a: nat, b: nat) {
    a in recs && exists i :: 0 <= i < |recs[a].deps| && First(order, recs, recs[a].deps[i].name) == Some(b)
  }

  ghost predicate Cycle(order: seq<nat>, recs: map<nat, Plugin>, c: seq<nat>) {
    c != [] && forall i :: 0 <= i < |c| ==> DependsOn(order, recs, c[i], c[if i + 1 < |c| then i + 1 else 0])
  }

  /** What the records keep through start-up. */
  ghost predicate SameNames(a: map<nat, Plugin>, b: map<nat, Plugin>) {
    a.Keys == b.Keys && forall h :: h in a ==> SameName(a[h], b[h])
  }

  predicate SameName(p: Plugin, q: Plugin) {
    && p.name == q.name && p.selectable == q.selectable && p.version == q.version
    && p.deps == q.deps && p.transitioning == q.transitioning
  }

  lemma {:induction false} SameFirst(order: seq<nat>, a: map<nat, Plugin>, b: map<nat, Plugin>, name: string)
    requires SameNames(a, b)
    ensures First(order, a, name) == First(order, b, name)
  {
    if order != [] {
      assert order[0] in a ==> SameName(a[order[0]], b[order[0]]);
      SameFirst(order[1..], a, b, name);
    }
  }

  lemma SameMatch(order: seq<nat>, a: map<nat, Plugin>, b: map<nat, Plugin>, h: nat, d: Dependency)
    requires SameNames(a, b)
    ensures Matches(order, a, h, d) == Matches(order, b, h, d)
    ensures Target(order, a, d) == Target(order, b, d)
  {
    SameFirst(order, a, b, d.name);
    assert Target(order, a, d) in a ==> SameName(a[Target(order, a, d)], b[Target(order, a, d)]);
  }

  /** A dependency that settles the matter: missing, itself, the wrong version, or not going to run. */
  predicate Bad(order: seq<nat>, recs: map<nat, Plugin>, h: nat, d: Dependency) {
    !Matches(order, recs, h, d) || recs[Target(order, recs, d)].state !in {Loading, Loaded}
  }

  predicate Pending(order: seq<nat>, recs: map<nat, Plugin>, d: Dependency) {
    Target(order, recs, d) in recs && recs[Target(order, recs, d)].state == Loading
  }

  function Rejected(p: Plugin): Plugin {
    p.(state := Error, accepting := false, open := false)
  }

  /** The record after its load callback ran and, if that failed, was rolled back. */
  function Tried(p: Plugin, loaded: bool, cleaned: bool): Plugin {
    if loaded then p.(state := Loaded, accepting := true)
    else if cleaned then Rejected(p)
    else p.(state := Error, accepting := false, cleanup := true)
  }

  /** The record ends where the interleaved blocks of a start leave it when nothing comes between them. */
  lemma TriedIsBlocks(p: Plugin, h: nat, loaded: bool, cleaned: bool)
    requires p.state == Loading && p.doing == Idle
    ensures var begun := Acted(Acted(p, StartBegin, true), StartCommit(loaded, true), true);
      if loaded then begun == Tried(p, true, cleaned)
      else
        var failed := Acted(begun.(doing := Failed(false)), FailCommit(cleaned), true);
        (if cleaned then Acted(failed, FailEnd, true) else failed) == Tried(p, false, cleaned)
  {
  }

  /** Opening a plugin's resources changes nothing its dependencies are judged by. */
  lemma BegunBacked(order: seq<nat>, recs: map<nat, Plugin>, begun: map<nat, Plugin>, h: nat)
    requires h in recs && recs[h].state == Loading && begun == recs[h := recs[h].(accepting := true)]
    ensures AllBacked(order, begun, AllLoaded(begun), h) == AllBacked(order, recs, AllLoaded(recs), h)
  {
    assert AllLoaded(begun) == AllLoaded(recs);
    forall d | d in recs[h].deps
      ensures Backed(order, begun, AllLoaded(begun), h, d) == Backed(order, recs, AllLoaded(recs), h, d)
    {
      SameMatch(order, begun, recs, h, d);
    }
  }

  // ---- what the fixpoint loop keeps; `was` holds the records as start-up found them ----

  /** This dependency will never be met. */
  predicate Hopeless(order: seq<nat>, was: map<nat, Plugin>, now: map<nat, Plugin>, h: nat, d: Dependency) {
    || !Matches(order, was, h, d)
    || Target(order, was, d) !in now
    || now[Target(order, was, d)].state !in {Loading, Loaded}
    || was[Target(order, was, d)].transitioning
  }

  ghost predicate GivenUp(order: seq<nat>, was: map<nat, Plugin>, now: map<nat, Plugin>, o: Oracle, h: nat)
    requires h in was
  {
    h !in o.loads || exists d :: d in was[h].deps && Hopeless(order, was, now, h, d)
  }

  /** What may have become of a plugin that waited. */
  ghost predicate Moved(order: seq<nat>, was: map<nat, Plugin>, now: map<nat, Plugin>, o: Oracle, h: nat)
    requires h in was && h in now
  {
    match now[h].state
    case Loading => now[h] == was[h]
    case Loaded => Supported(order, was, o, AllLoaded(now), h)
    case Error => GivenUp(order, was, now, o, h)
    case _ => false
  }

  ghost predicate Progressed(order: seq<nat>, was: map<nat, Plugin>, now: map<nat, Plugin>, discovered: seq<nat>,
        o: Oracle) {
    && SameNames(was, now)
    && (forall h :: h in now && h !in Waiting(was, discovered) ==> now[h] == was[h])
    && (forall h :: h in Waiting(was, discovered) ==> Moved(order, was, now, o, h))
  }

  ghost predicate Within(order: seq<nat>, was: map<nat, Plugin>, now: map<nat, Plugin>, discovered: seq<nat>,
        o: Oracle) {
    forall other :: Closed(order, was, discovered, o, other) ==> AllLoaded(now) <= other
  }

  lemma SupportedGrows(order: seq<nat>, was: map<nat, Plugin>, o: Oracle, a: set<nat>, b: set<nat>, h: nat)
    requires h in was && a <= b && Supported(order, was, o, a, h)
    ensures Supported(order, was, o, b, h)
  {
  }

  ghost predicate Settles(order: seq<nat>, was: map<nat, Plugin>, now: map<nat, Plugin>, o: Oracle, h: nat, p: Plugin) {
    && h in was && h in now && now[h].state == Loading && SameName(was[h], p)
    && (p.state == Loaded ==> Supported(order, was, o, AllLoaded(now), h))
    && (p.state != Loaded ==> p.state == Error && GivenUp(order, was, now, o, h))
  }

  /** One waiting plugin settled: the others keep their verdicts. */
  lemma SettledMoved(order: seq<nat>, was: map<nat, Plugin>, now: map<nat, Plugin>, o: Oracle, h: nat, p: Plugin,
        e: nat)
    requires Settles(order, was, now, o, h, p) && e in was && e in now && Moved(order, was, now, o, e)
    ensures Moved(order, was, now[h := p], o, e)
  {
    var after := now[h := p];
    assert AllLoaded(now) <= AllLoaded(after);
    if after[e].state == Loaded {
      SupportedGrows(order, was, o, AllLoaded(now), AllLoaded(after), e);
    } else if after[e].state == Error {
      GivenUpStays(order, was, now, o, e, h, p);
    }
  }

  lemma SettledWithin(order: seq<nat>, was: map<nat, Plugin>, now: map<nat, Plugin>, discovered: seq<nat>, o: Oracle,
        h: nat, p: Plugin)
    requires Within(order, was, now, discovered, o) && Settles(order, was, now, o, h, p) && h in Waiting(was, discovered)
    ensures Within(order, was, now[h := p], discovered, o)
  {
    forall other | Closed(order, was, discovered, o, other)
      ensures AllLoaded(now[h := p]) <= other
    {
      assert AllLoaded(now) <= other;
      if p.state == Loaded {
        SupportedGrows(order, was, o, AllLoaded(now), other, h);
      }
    }
  }

  lemma SettledKeeps(order: seq<nat>, was: map<nat, Plugin>, now: map<nat, Plugin>, discovered: seq<nat>, o: Oracle,
        h: nat, p: Plugin)
    requires Progressed(order, was, now, discovered, o) && Within(order, was, now, discovered, o)
    requires h in Waiting(now, discovered) && Settles(order, was, now, o, h, p)
    ensures Progressed(order, was, now[h := p], discovered, o)
    ensures Within(order, was, now[h := p], discovered, o)
    ensures Waiting(now[h := p], discovered) == Waiting(now, discovered) - {h}
  {
    assert h in Waiting(was, discovered);
    forall e | e in Waiting(was, discovered)
      ensures Moved(order, was, now[h := p], o, e)
    {
      SettledMoved(order, was, now, o, h, p, e);
    }
    SettledWithin(order, was, now, discovered, o, h, p);
  }

  lemma GivenUpStays(order: seq<nat>, was: map<nat, Plugin>, now: map<nat, Plugin>, o: Oracle, e: nat, h: nat,
        p: Plugin)
    requires e in was && h in now && now[h].state == Loading && GivenUp(order, was, now, o, e)
    ensures GivenUp(order, was, now[h := p], o, e)
  {
    if e in o.loads {
      var d :| d in was[e].deps && Hopeless(order, was, now, e, d);
      assert Hopeless(order, was, now[h := p], e, d);
    }
  }

  lemma RefusedGivesUp(order: seq<nat>, was: map<nat, Plugin>, now: map<nat, Plugin>, o: Oracle, h: nat, d: Dependency)
    requires SameNames(was, now) && h in was && d in was[h].deps && Bad(order, now, h, d)
    ensures GivenUp(order, was, now, o, h)
  {
    SameMatch(order, was, now, h, d);
    assert Hopeless(order, was, now, h, d);
  }

  lemma TriedSettles(order: seq<nat>, was: map<nat, Plugin>, now: map<nat, Plugin>, o: Oracle, h: nat)
    requires SameNames(was, now) && h in was && SameName(was[h], now[h])
    requires forall d :: d in now[h].deps ==> !Bad(order, now, h, d) && !Pending(order, now, d)
    ensures if Supported(order, now, o, AllLoaded(now), h)
      then Supported(order, was, o, AllLoaded(now), h) else GivenUp(order, was, now, o, h)
  {
    forall d | d in was[h].deps
      ensures Backed(order, was, AllLoaded(now), h, d) == Backed(order, now, AllLoaded(now), h, d)
      ensures Backed(order, was, AllLoaded(now), h, d) || Hopeless(order, was, now, h, d)
    {
      SameMatch(order, was, now, h, d);
      var t := Target(order, was, d);
      assert t in now ==> SameName(was[t], now[t]);
    }
  }

  /**
    `added` is what start-up appended to the load order: whatever runs is in it, and each plugin comes
    after the plugins it depends on, unless those ran before.
   */
  ghost predicate Ordered(order: seq<nat>, was: map<nat, Plugin>, now: map<nat, Plugin>, discovered: seq<nat>,
        added: seq<nat>) {
    && (forall h :: h in Waiting(was, discovered) && h in now && now[h].state == Loaded ==> h in added)
    && forall i :: 0 <= i < |added| ==> Placed(order, was, discovered, added[..i], added[i])
  }

  ghost predicate Placed(order: seq<nat>, was: map<nat, Plugin>, discovered: seq<nat>, before: seq<nat>, h: nat) {
    && h in Waiting(was, discovered)
    && (forall d :: d in was[h].deps ==> Matches(order, was, h, d))
    && forall d :: d in was[h].deps ==> Target(order, was, d) in before || Target(order, was, d) !in Waiting(was, discovered)
  }

  lemma StartedOrdered(order: seq<nat>, was: map<nat, Plugin>, now: map<nat, Plugin>, discovered: seq<nat>,
        added: seq<nat>, h: nat, p: Plugin)
    requires SameNames(was, now) && h in Waiting(was, discovered)
    requires forall d :: d in now[h].deps ==> !Bad(order, now, h, d) && !Pending(order, now, d)
    requires Ordered(order, was, now, discovered, added)
    ensures Ordered(order, was, now[h := p], discovered, added + [h])
  {
    assert SameName(was[h], now[h]);
    forall d | d in was[h].deps
      ensures Matches(order, was, h, d)
      ensures Target(order, was, d) in added || Target(order, was, d) !in Waiting(was, discovered)
    {
      SameMatch(order, was, now, h, d);
    }
    var all := added + [h];
    forall i | 0 <= i < |all|
      ensures Placed(order, was, discovered, all[..i], all[i])
    {
      if i < |added| {
        assert all[..i] == added[..i];
      } else {
        assert all[..i] == added;
      }
    }
  }

  /** Every plugin that still waits does so for another that still loads. */
  ghost predicate Deadlocked(order: seq<nat>, now: map<nat, Plugin>, h: nat) {
    h in now && exists d :: d in now[h].deps && Matches(order, now, h, d) && Pending(order, now, d)
  }

  lemma IdleNotSupported(order: seq<nat>, was: map<nat, Plugin>, now: map<nat, Plugin>, o: Oracle, h: nat)
    requires SameNames(was, now) && h in was && now[h].state != Loaded && Moved(order, was, now, o, h)
    requires now[h].state == Loading ==> Deadlocked(order, now, h)
    ensures !Supported(order, was, o, AllLoaded(now), h)
  {
    if now[h].state == Loading {
      var d :| d in now[h].deps && Matches(order, now, h, d) && Pending(order, now, d);
      SameMatch(order, was, now, h, d);
      assert d in was[h].deps && !Backed(order, was, AllLoaded(now), h, d);
    } else if h in o.loads {
      var d :| d in was[h].deps && Hopeless(order, was, now, h, d);
      assert !Backed(order, was, AllLoaded(now), h, d);
    }
  }

  /** When nothing that waits can move, what runs is the least closed set. */
  lemma LeastReached(order: seq<nat>, was: map<nat, Plugin>, now: map<nat, Plugin>, discovered: seq<nat>, o: Oracle)
    requires Progressed(order, was, now, discovered, o) && Within(order, was, now, discovered, o)
    requires forall h :: h in Waiting(now, discovered) ==> Deadlocked(order, now, h)
    ensures Least(order, was, discovered, o, AllLoaded(now))
  {
    forall h | h in Waiting(was, discovered) && now[h].state != Loaded
      ensures !Supported(order, was, o, AllLoaded(now), h)
    {
      assert now[h].state == Loading ==> h in Waiting(now, discovered);
      IdleNotSupported(order, was, now, o, h);
    }
  }

  /** Everything that waited has been settled; the rest is untouched. */
  ghost predicate Finished(was: map<nat, Plugin>, now: map<nat, Plugin>, discovered: seq<nat>) {
    && SameNames(was, now)
    && (forall h :: h in now && h !in Waiting(was, discovered) ==> now[h] == was[h])
    && (forall h :: h in Waiting(was, discovered) ==> now[h].state in {Loaded, Error})
  }

  lemma PassesFinish(order: seq<nat>, was: map<nat, Plugin>, now: map<nat, Plugin>, discovered: seq<nat>, o: Oracle)
    requires Progressed(order, was, now, discovered, o) && Waiting(now, discovered) == {}
    ensures Finished(was, now, discovered)
  {
    forall h | h in Waiting(was, discovered)
      ensures now[h].state in {Loaded, Error}
    {
      assert Moved(order, was, now, o, h) && h !in Waiting(now, discovered);
    }
  }

  lemma RejectionLoadsNone(now: map<nat, Plugin>, after: map<nat, Plugin>, discovered: seq<nat>)
    requires after.Keys == now.Keys
    requires forall h :: h in Waiting(now, discovered) ==> after[h] == Rejected(now[h])
    requires forall h :: h in now && h !in Waiting(now, discovered) ==> after[h] == now[h]
    ensures AllLoaded(after) == AllLoaded(now) && SameNames(now, after)
  {
  }

  /** The cycle branch: what still waits is rejected, so what runs does not change. */
  lemma RejectionFinishes(order: seq<nat>, was: map<nat, Plugin>, now: map<nat, Plugin>, after: map<nat, Plugin>,
                          discovered: seq<nat>, o: Oracle, added: seq<nat>)
    requires Progressed(order, was, now, discovered, o) && after.Keys == now.Keys
    requires Ordered(order, was, now, discovered, added)
    requires forall h :: h in Waiting(now, discovered) ==> after[h] == Rejected(now[h])
    requires forall h :: h in now && h !in Waiting(now, discovered) ==> after[h] == now[h]
    ensures Finished(was, after, discovered) && AllLoaded(after) == AllLoaded(now)
    ensures Ordered(order, was, after, discovered, added)
  {
    RejectionLoadsNone(now, after, discovered);
    forall h | h in was
      ensures SameName(was[h], after[h])
    {
      assert SameName(was[h], now[h]) && SameName(now[h], after[h]);
    }
  }

  /** Of the first `n` discovered plugins, those that wait are deadlocked. */
  ghost predicate Stuck(order: seq<nat>, now: map<nat, Plugin>, discovered: seq<nat>, n: nat, waiting: set<nat>) {
    forall j :: 0 <= j < |discovered| && j < n && discovered[j] in waiting ==> Deadlocked(order, now, discovered[j])
  }

  predicate NoneIn(discovered: seq<nat>, n: nat, waiting: set<nat>) {
    forall j :: 0 <= j < |discovered| && j < n ==> discovered[j] !in waiting
  }

  lemma StuckFurther(order: seq<nat>, now: map<nat, Plugin>, discovered: seq<nat>, n: nat, waiting: set<nat>)
    requires n < |discovered|
    ensures Stuck(order, now, discovered, n + 1, waiting) <==>
      Stuck(order, now, discovered, n, waiting) && (discovered[n] in waiting ==> Deadlocked(order, now, discovered[n]))
    ensures NoneIn(discovered, n + 1, waiting) <==> NoneIn(discovered, n, waiting) && discovered[n] !in waiting
  {
  }

  lemma DeadlockFollows(order: seq<nat>, was: map<nat, Plugin>, now: map<nat, Plugin>, discovered: seq<nat>, o: Oracle,
        h: nat) returns (next: nat)
    requires Progressed(order, was, now, discovered, o) && h in Waiting(now, discovered) && Deadlocked(order, now, h)
    requires forall x :: x in was && was[x].state == Loading ==> x in discovered
    ensures next in Waiting(now, discovered) && DependsOn(order, was, h, next)
  {
    var d :| d in now[h].deps && Matches(order, now, h, d) && Pending(order, now, d);
    next := Target(order, now, d);
    assert SameName(was[h], now[h]);
    SameFirst(order, was, now, d.name);
    var i :| 0 <= i < |was[h].deps| && was[h].deps[i] == d;
    assert First(order, was, was[h].deps[i].name) == Some(next);
    assert now[next].state == Loading;
  }

  ghost predicate Path(order: seq<nat>, was: map<nat, Plugin>, p: seq<nat>) {
    forall i :: 0 <= i < |p| - 1 ==> DependsOn(order, was, p[i], p[i + 1])
  }

  lemma {:induction false} LongPath(order: seq<nat>, was: map<nat, Plugin>, now: map<nat, Plugin>,
        discovered: seq<nat>, o: Oracle, n: nat) returns (p: seq<nat>)
    requires Progressed(order, was, now, discovered, o) && Waiting(now, discovered) != {}
    requires forall h :: h in Waiting(now, discovered) ==> Deadlocked(order, now, h)
    requires forall x :: x in was && was[x].state == Loading ==> x in discovered
    ensures |p| == n + 1 && Path(order, was, p) && forall i :: 0 <= i < |p| ==> p[i] in Waiting(now, discovered)
  {
    if n == 0 {
      var h :| h in Waiting(now, discovered);
      p := [h];
    } else {
      var q := LongPath(order, was, now, discovered, o, n - 1);
      var next := DeadlockFollows(order, was, now, discovered, o, q[n - 1]);
      p := q + [next];
    }
  }

  lemma {:induction false} Pigeonhole(p: seq<nat>, among: set<nat>) returns (i: nat, j: nat)
    requires |p| > |among| && forall k :: 0 <= k < |p| ==> p[k] in among
    ensures i < j < |p| && p[i] == p[j]
  {
    var last := |p| - 1;
    if k :| 0 <= k < last && p[k] == p[last] {
      i, j := k, last;
    } else {
      i, j := Pigeonhole(p[..last], among - {p[last]});
    }
  }

  /** The branch that reports a dependency cycle is right: there is one. */
  lemma DeadlockIsCycle(order: seq<nat>, was: map<nat, Plugin>, now: map<nat, Plugin>, discovered: seq<nat>, o: Oracle)
    requires Progressed(order, was, now, discovered, o) && Waiting(now, discovered) != {}
    requires forall h :: h in Waiting(now, discovered) ==> Deadlocked(order, now, h)
    requires forall x :: x in was && was[x].state == Loading ==> x in discovered
    ensures exists c :: Cycle(order, was, c)
  {
    var p := LongPath(order, was, now, discovered, o, |Waiting(now, discovered)|);
    var i, j := Pigeonhole(p, Waiting(now, discovered));
    var c := p[i..j];
    forall k | 0 <= k < |c|
      ensures DependsOn(order, was, c[k], c[if k + 1 < |c| then k + 1 else 0])
    {
      assert DependsOn(order, was, p[i + k], p[i + k + 1]);
    }
    assert Cycle(order, was, c);
  }

  /** A plugin on a dependency cycle never starts. */
  lemma CyclesNeverStart(order: seq<nat>, recs: map<nat, Plugin>, discovered: seq<nat>, o: Oracle, among: set<nat>,
        c: seq<nat>, i: nat)
    requires Cycle(order, recs, c) && i < |c| && Least(order, recs, discovered, o, among)
    requires forall k :: 0 <= k < |c| ==> c[k] in Waiting(recs, discovered)
    ensures c[i] !in among
  {
    var other := recs.Keys - set k | 0 <= k < |c| :: c[k];
    forall h | h in Waiting(recs, discovered) && Supported(order, recs, o, other, h)
      ensures h in other
    {
      if k :| 0 <= k < |c| && c[k] == h {
        var next := c[if k + 1 < |c| then k + 1 else 0];
        var n :| 0 <= n < |recs[h].deps| && First(order, recs, recs[h].deps[n].name) == Some(next);
        assert !Backed(order, recs, other, h, recs[h].deps[n]);
      }
    }
    assert Closed(order, recs, discovered, o, other);
  }

  // ---- the order of discovery ----

  /** No two plugins answer to one name. */
  ghost predicate OneEach(recs: map<nat, Plugin>) {
    forall a, b, name :: Answers(recs, a, name) && Answers(recs, b, name) ==> a == b
  }

  predicate SameMembers(a: seq<nat>, b: seq<nat>) {
    (forall h :: h in a ==> h in b) && (forall h :: h in b ==> h in a)
  }

  /** Then it does not matter in which order the plugin list was filled. */
  lemma FirstAnyOrder(order: seq<nat>, other: seq<nat>, recs: map<nat, Plugin>, name: string)
    requires SameMembers(order, other) && OneEach(recs)
    ensures First(order, recs, name) == First(other, recs, name)
  {
    var a, b := First(order, recs, name), First(other, recs, name);
    if a.Some? {
      assert a.value in other && Answers(recs, a.value, name);
    }
    if b.Some? {
      assert b.value in order && Answers(recs, b.value, name);
    }
  }

  lemma BackedAnyOrder(order: seq<nat>, other: seq<nat>, recs: map<nat, Plugin>, among: set<nat>, h: nat, d: Dependency)
    requires SameMembers(order, other) && OneEach(recs)
    ensures Backed(order, recs, among, h, d) == Backed(other, recs, among, h, d)
  {
    FirstAnyOrder(order, other, recs, d.name);
  }

  lemma ClosedAnyOrder(order: seq<nat>, other: seq<nat>, recs: map<nat, Plugin>, a: seq<nat>, b: seq<nat>, o: Oracle,
        among: set<nat>)
    requires SameMembers(order, other) && SameMembers(a, b) && OneEach(recs) && Closed(order, recs, a, o, among)
    ensures Closed(other, recs, b, o, among)
  {
    assert Waiting(recs, a) == Waiting(recs, b);
    forall h | h in Waiting(recs, b) && Supported(other, recs, o, among, h)
      ensures h in among
    {
      forall d | d in recs[h].deps
        ensures Backed(order, recs, among, h, d)
      {
        BackedAnyOrder(order, other, recs, among, h, d);
      }
      assert Supported(order, recs, o, among, h);
    }
  }

  /** What runs in the end depends on what was discovered, not on the order of discovery. */
  lemma LeastIgnoresOrder(order: seq<nat>, other: seq<nat>, recs: map<nat, Plugin>, a: seq<nat>, b: seq<nat>, o: Oracle,
        x: set<nat>, y: set<nat>)
    requires SameMembers(order, other) && SameMembers(a, b) && OneEach(recs)
    requires Least(order, recs, a, o, x) && Least(other, recs, b, o, y)
    ensures x == y
  {
    ClosedAnyOrder(order, other, recs, a, b, o, x);
    ClosedAnyOrder(other, order, recs, b, a, o, y);
  }

  /**
    Two runs of start-up, with the plugins discovered in two orders and the plugin list filled in two
    orders, leave every plugin in the same state.
   */
  lemma OutcomeIgnoresDiscoveryOrder(order: seq<nat>, other: seq<nat>, was: map<nat, Plugin>, now: map<nat, Plugin>,
        later: map<nat, Plugin>,
        a: seq<nat>, b: seq<nat>, o: Oracle, h: nat)
    requires SameMembers(order, other) && SameMembers(a, b) && OneEach(was)
    requires Least(order, was, a, o, AllLoaded(now)) && Finished(was, now, a)
    requires Least(other, was, b, o, AllLoaded(later)) && Finished(was, later, b)
    requires h in was
    ensures now[h].state == later[h].state
  {
    LeastIgnoresOrder(order, other, was, a, b, o, AllLoaded(now), AllLoaded(later));
    assert Waiting(was, a) == Waiting(was, b);
    assert h in AllLoaded(now) <==> h in AllLoaded(later);
  }

  lemma Overwritten(recs: map<nat, Plugin>, h: nat, p: Plugin, q: Plugin)
    ensures recs[h := p][h := q] == recs[h := q]
  {
  }

  class Manager {
    var order: seq<nat>
    var recs: map<nat, Plugin>
    var loadOrder: seq<nat>

    constructor (order: seq<nat>, recs: map<nat, Plugin>, loadOrder: seq<nat>)
      ensures this.order == order && this.recs == recs && this.loadOrder == loadOrder
    {
      this.order, this.recs, this.loadOrder := order, recs, loadOrder;
    }

    method Judge(h: nat) returns (verdict: Verdict)
      requires h in recs
      ensures verdict == Refuse <==> exists d :: d in recs[h].deps && Bad(order, recs, h, d)
      ensures verdict == Start ==> forall d :: d in recs[h].deps ==> !Pending(order, recs, d)
      ensures verdict == Wait ==> exists d :: d in recs[h].deps && Pending(order, recs, d)
    {
      var deps := recs[h].deps;
      var waiting := false;
      for i := 0 to |deps|
        invariant forall j :: 0 <= j < i ==> !Bad(order, recs, h, deps[j])
        invariant waiting <==> exists j :: 0 <= j < i && Pending(order, recs, deps[j])
      {
        var target := First(order, recs, deps[i].name);
        assert deps[i] in deps;
        if target.None? || target.value == h || !Satisfies(recs[target.value].version, deps[i]) {
          return Refuse;
        }
        if recs[target.value].state == Loading {
          waiting := true;
        } else if recs[target.value].state != Loaded {
          return Refuse;
        }
      }
      return if waiting then Wait else Start;
    }

    method DependenciesReady(h: nat) returns (ready: bool)
      requires h in recs
      ensures ready == AllBacked(order, recs, AllLoaded(recs), h)
      ensures ready <==> forall d :: d in recs[h].deps ==>
        var target := First(order, recs, d.name);
        && target.Some? && target.value != h && Satisfies(recs[target.value].version, d)
        && recs[target.value].state == Loaded && !recs[target.value].transitioning
    {
      var deps := recs[h].deps;
      for i := 0 to |deps|
        invariant forall j :: 0 <= j < i ==> Backed(order, recs, AllLoaded(recs), h, deps[j])
      {
        var target := First(order, recs, deps[i].name);
        assert deps[i] in deps;
        if target.None? || target.value == h || !Satisfies(recs[target.value].version, deps[i]) {
          return false;
        }
        if recs[target.value].state != Loaded || recs[target.value].transitioning {
          return false;
        }
      }
      return true;
    }

    method StartPlugin(h: nat, o: Oracle) returns (loaded: bool)
      requires h in recs && h !in loadOrder
      requires recs[h].state == Loading
      modifies this`recs, this`loadOrder
      ensures loaded == Supported(order, old(recs), o, AllLoaded(old(recs)), h)
      ensures recs == old(recs)[h := Tried(old(recs)[h], loaded, h in o.cleans)]
      ensures loadOrder == if loaded || h !in o.cleans then old(loadOrder) + [h] else old(loadOrder)
    {
      recs := recs[h := recs[h].(accepting := true)];
      loadOrder := loadOrder + [h];
      loaded := h in o.loads;
      if loaded {
        loaded := DependenciesReady(h);
      }
      BegunBacked(order, old(recs), recs, h);
      if loaded {
        recs := recs[h := recs[h].(state := Loaded)];
        Overwritten(old(recs), h, old(recs)[h].(accepting := true), recs[h]);
      } else {
        RollBack(h, o);
        Overwritten(old(recs), h, old(recs)[h].(accepting := true), recs[h]);
        RemovedLast(old(loadOrder), h);
      }
    }

    /** What the loop keeps: `was` and `base` are the records and the load order it found. */
    ghost predicate Inv(discovered: seq<nat>, o: Oracle, was: map<nat, Plugin>, base: seq<nat>)
      reads this
    {
      && Progressed(order, was, recs, discovered, o) && Within(order, was, recs, discovered, o)
      && (forall h :: h in Waiting(recs, discovered) ==> h !in loadOrder)
      && base <= loadOrder && Ordered(order, was, recs, discovered, loadOrder[|base|..])
    }

    method RejectUnstarted(h: nat, discovered: seq<nat>, o: Oracle, ghost was: map<nat, Plugin>, ghost base: seq<nat>)
      requires Inv(discovered, o, was, base) && h in Waiting(recs, discovered)
      requires GivenUp(order, was, recs, o, h)
      modifies this`recs
      ensures Inv(discovered, o, was, base)
      ensures Waiting(recs, discovered) == Waiting(old(recs), discovered) - {h}
    {
      SettledKeeps(order, was, recs, discovered, o, h, Rejected(recs[h]));
      recs := recs[h := Rejected(recs[h])];
    }

    method StartWaiting(h: nat, discovered: seq<nat>, o: Oracle, ghost was: map<nat, Plugin>, ghost base: seq<nat>)
      requires Inv(discovered, o, was, base) && h in Waiting(recs, discovered)
      requires forall d :: d in recs[h].deps ==> !Bad(order, recs, h, d) && !Pending(order, recs, d)
      modifies this`recs, this`loadOrder
      ensures Inv(discovered, o, was, base)
      ensures Waiting(recs, discovered) == Waiting(old(recs), discovered) - {h}
    {
      ghost var now, added := recs, loadOrder[|base|..];
      assert SameName(was[h], now[h]);
      TriedSettles(order, was, now, o, h);
      AppendedTail(base, loadOrder, h);
      var loaded := StartPlugin(h, o);
      SettledKeeps(order, was, now, discovered, o, h, recs[h]);
      StartedOrdered(order, was, now, discovered, added, h, recs[h]);
    }

    method Settle(h: nat, discovered: seq<nat>, o: Oracle, ghost was: map<nat, Plugin>, ghost base: seq<nat>)
          returns (progress: bool)
      requires Inv(discovered, o, was, base) && h in Waiting(recs, discovered)
      modifies this`recs, this`loadOrder
      ensures Inv(discovered, o, was, base)
      ensures progress ==> Waiting(recs, discovered) == Waiting(old(recs), discovered) - {h}
      ensures !progress ==> recs == old(recs) && loadOrder == old(loadOrder) && Deadlocked(order, recs, h)
    {
      var verdict := Judge(h);
      if verdict == Refuse {
        ghost var d :| d in recs[h].deps && Bad(order, recs, h, d);
        assert SameName(was[h], recs[h]);
        RefusedGivesUp(order, was, recs, o, h, d);
        RejectUnstarted(h, discovered, o, was, base);
      } else if verdict == Start {
        StartWaiting(h, discovered, o, was, base);
      }
      return verdict != Wait;
    }

    /** One pass over the discovered plugins. */
    method PassOver(discovered: seq<nat>, o: Oracle, ghost was: map<nat, Plugin>, ghost base: seq<nat>)
          returns (remaining: bool, progress: bool)
      requires Inv(discovered, o, was, base)
      modifies this`recs, this`loadOrder
      ensures Inv(discovered, o, was, base)
      ensures progress ==> remaining && Waiting(recs, discovered) < Waiting(old(recs), discovered)
      ensures !progress ==> recs == old(recs) && loadOrder == old(loadOrder)
      ensures !progress ==> forall h :: h in Waiting(recs, discovered) ==> Deadlocked(order, recs, h)
      ensures remaining <==> Waiting(old(recs), discovered) != {}
    {
      remaining, progress := false, false;
      ghost var begun, waiting := recs, Waiting(recs, discovered);
      for i := 0 to |discovered|
        invariant Inv(discovered, o, was, base)
        invariant progress ==> remaining && Waiting(recs, discovered) < waiting
        invariant !progress ==> recs == begun && loadOrder == old(loadOrder)
        invariant !progress ==> Stuck(order, begun, discovered, i, waiting)
        invariant if remaining then waiting != {} else !progress && NoneIn(discovered, i, waiting)
      {
        var h := discovered[i];
        if h in recs && recs[h].state == Loading {
          assert h in Waiting(recs, discovered);
          remaining := true;
          var settled := Settle(h, discovered, o, was, base);
          progress := progress || settled;
        }
        StuckFurther(order, begun, discovered, i, waiting);
      }
    }

    /** What is still waiting when a pass settles nothing waits on a cycle. */
    method RejectDeadlocked(discovered: seq<nat>)
      modifies this`recs
      ensures recs.Keys == old(recs).Keys
      ensures forall h :: h in Waiting(old(recs), discovered) ==> recs[h] == Rejected(old(recs)[h])
      ensures forall h :: h in recs && h !in Waiting(old(recs), discovered) ==> recs[h] == old(recs)[h]
    {
      for i := 0 to |discovered|
        invariant recs.Keys == old(recs).Keys
        invariant forall h :: h in recs && h in Waiting(old(recs), discovered) && h in discovered[..i] ==> recs[h] == Rejected(old(recs)[h])
        invariant forall h :: h in recs && !(h in Waiting(old(recs), discovered) && h in discovered[..i]) ==> recs[h] == old(recs)[h]
      {
        var h := discovered[i];
        if h in recs && recs[h].state == Loading {
          recs := recs[h := Rejected(recs[h])];
        }
      }
    }

    method StartDiscoveredPlugins(discovered: seq<nat>, o: Oracle) returns (cyclic: bool)
      requires forall h :: h in Waiting(recs, discovered) ==> h !in loadOrder
      modifies this`recs, this`loadOrder
      ensures Least(order, old(recs), discovered, o, AllLoaded(recs))
      ensures Finished(old(recs), recs, discovered)
      ensures old(loadOrder) <= loadOrder && Ordered(order, old(recs), recs, discovered, loadOrder[|old(loadOrder)|..])
      ensures cyclic && (forall h :: h in old(recs) && old(recs)[h].state == Loading ==> h in discovered) ==>
        exists c :: Cycle(order, old(recs), c)
    {
      cyclic := false;
      ghost var was, base := recs, loadOrder;
      while true
        invariant Inv(discovered, o, was, base) && !cyclic
        decreases Waiting(recs, discovered)
      {
        var remaining, progress := PassOver(discovered, o, was, base);
        if !remaining {
          LeastReached(order, was, recs, discovered, o);
          PassesFinish(order, was, recs, discovered, o);
          break;
        }
        if !progress {
          ghost var now := recs;
          LeastReached(order, was, now, discovered, o);
          if forall h :: h in was && was[h].state == Loading ==> h in discovered {
            DeadlockIsCycle(order, was, now, discovered, o);
          }
          RejectDeadlocked(discovered);
          RejectionFinishes(order, was, now, recs, discovered, o, loadOrder[|base|..]);
          cyclic := true;
          break;
        }
      }
    }

    method RollBack(h: nat, o: Oracle)
      requires h in recs
      modifies this`recs, this`loadOrder
      ensures recs == old(recs)[h := Tried(old(recs)[h], false, h in o.cleans)]
      ensures loadOrder == if h in o.cleans then Removed(old(loadOrder), h) else old(loadOrder)
    {
      var p := recs[h].(accepting := false, state := Error);
      if h !in o.cleans {
        recs := recs[h := p.(cleanup := true)];
      } else {
        recs := recs[h := p.(open := false)];
        loadOrder := Removed(loadOrder, h);
      }
    }
  }

  lemma AppendedTail(base: seq<nat>, order: seq<nat>, h: nat)
    requires base <= order
    ensures (order + [h])[|base|..] == order[|base|..] + [h]
  {
  }

  lemma {:induction false} RemovedLast(order: seq<nat>, h: nat)
    requires h !in order
    ensures Removed(order + [h], h) == order
  {
    if order == [] {
      assert [h][1..] == [];
    } else {
      assert (order + [h])[1..] == order[1..] + [h];
      RemovedLast(order[1..], h);
    }
  }
}
