/**
  The plugin life cycle as the atomic blocks that run under the host lock. The lock is given up
  around every plugin and service callback, so the blocks of different commands interleave freely;
  a plugin's `doing` says which command is half way through it. A command that is refused changes
  nothing, so only the blocks that do something are steps.
 */
module HostProtocol {
  import opened Options
  import opened PublishedServices

  datatype Version = Version(major: nat, minor: nat, patch: nat)
  datatype Requirement = Exact | AtLeast | Other
  /** Names are case folded. A version that does not parse is `None`. */
  datatype Dependency = Dependency(name: string, version: Option<Version>, requirement: Requirement)

  datatype State = Loading | Loaded | Paused | Invalid | Error
  datatype Phase =
    | Idle | Examining
    | Starting | Preparing | Stopping | Failing | Failed(busy: bool) | Dropping
    | Pausing | Announcing
    | Unloading | Released

  datatype Plugin = Plugin(
    name: string, version: Option<Version>, deps: seq<Dependency>, state: State, selectable: bool,
    accepting: bool, transitioning: bool, open: bool, cleanup: bool, doing: Phase)

  /** What a plugin says of itself when it is examined. */
  datatype Info = Info(name: string, version: Option<Version>, deps: seq<Dependency>)
  datatype Image = Opened | Unreadable | NoExports

  /** A block that touches one plugin record and nothing else. */
  datatype Act =
    | Reject | StartBegin | StartCommit(loaded: bool, activate: bool) | PrepareEnd(prepared: bool)
    | StopEnd(ready: bool) | FailCommit(released: bool) | FailEnd
    | PauseBegin | PauseEnd(ok: bool) | Resume | AnnounceEnd
    | UnloadBegin | UnloadFail(restore: bool, quarantine: bool)

  datatype Step =
    | Local(h: nat, act: Act)
    | Discover(image: Image) | Examine(h: nat, info: Option<Info>)
    | FailRelease(h: nat) | UnloadRelease(h: nat) | UnloadEnd(h: nat) | Forget(h: nat)
    | Publish(h: nat, key: Key, service: nat) | Withdraw(h: nat, publication: nat)
    | Release(h: nat, key: Key) | Query(h: nat, key: Key)

  /** `order` is the order of the plugin list; it decides which plugin answers to a name. */
  datatype Host = Host(order: seq<nat>, recs: map<nat, Plugin>, next: nat, reg: Registry)

  const Initial: Host := Host([], map[], 1, Registry(map[], map[], 1))

  // ---- names and dependencies ----

  predicate Satisfies(actual: Option<Version>, d: Dependency) {
    && actual.Some? && d.version.Some?
    && match d.requirement
       case Exact => actual == d.version
       case AtLeast => NotBelow(actual.value, d.version.value)
       case Other => false
  }

  predicate NotBelow(a: Version, b: Version) {
    || a.major > b.major
    || (a.major == b.major && (a.minor > b.minor || (a.minor == b.minor && a.patch >= b.patch)))
  }

  /** A version as one number, in a base above all its components. */
  function Number(v: Version, base: nat): nat {
    (v.major * base + v.minor) * base + v.patch
  }

  predicate Digits(v: Version, base: nat) {
    v.major < base && v.minor < base && v.patch < base
  }

  lemma NumberOrder(x: nat, y: nat, u: nat, v: nat, base: nat)
    requires u < base && v < base
    ensures x * base + u >= y * base + v <==> x > y || (x == y && u >= v)
  {
    if x > y {
      assert x * base >= (y + 1) * base == y * base + base;
    } else if x < y {
      assert y * base >= (x + 1) * base == x * base + base;
    }
  }

  /** What a requirement asks for: the same version, or one whose number is not less. */
  lemma SatisfiesIff(actual: Version, d: Dependency, base: nat)
    requires d.version.Some? && Digits(actual, base) && Digits(d.version.value, base)
    ensures d.requirement == Exact ==> (Satisfies(Some(actual), d) <==> actual == d.version.value)
    ensures d.requirement == AtLeast ==> (Satisfies(Some(actual), d) <==> Number(actual, base) >= Number(d.version.value, base))
    ensures d.requirement == Other ==> !Satisfies(Some(actual), d)
  {
    var a, b := actual, d.version.value;
    NumberOrder(a.major, b.major, a.minor, b.minor, base);
    NumberOrder(b.major, a.major, b.minor, a.minor, base);
    NumberOrder(a.major * base + a.minor, b.major * base + b.minor, a.patch, b.patch, base);
  }

  /** A later version meets every lower bound the earlier one met. */
  lemma LaterSatisfies(actual: Version, later: Version, d: Dependency, base: nat)
    requires d.requirement == AtLeast && d.version.Some? && Satisfies(Some(actual), d)
    requires Digits(actual, base) && Digits(later, base) && Digits(d.version.value, base)
    requires Number(later, base) >= Number(actual, base)
    ensures Satisfies(Some(later), d)
  {
    SatisfiesIff(actual, d, base);
    SatisfiesIff(later, d, base);
  }

  predicate Answers(recs: map<nat, Plugin>, h: nat, name: string) {
    h in recs && recs[h].selectable && recs[h].name == name
  }

  /** The first selectable plugin of that name. */
  function First(order: seq<nat>, recs: map<nat, Plugin>, name: string): (r: Option<nat>)
    ensures r.Some? ==> r.value in order && Answers(recs, r.value, name)
    ensures r.None? ==> forall h :: h in order ==> !Answers(recs, h, name)
  {
    if order == [] then None
    else if Answers(recs, order[0], name) then Some(order[0])
    else First(order[1..], recs, name)
  }

  predicate StandsBefore(order: seq<nat>, a: nat, b: nat) {
    order != [] && (order[0] == a || (order[0] != b && StandsBefore(order[1..], a, b)))
  }

  predicate Names(p: Plugin, name: string) {
    exists i :: 0 <= i < |p.deps| && p.deps[i].name == name
  }

  ghost predicate Met(s: Host, h: nat, d: Dependency) {
    var target := First(s.order, s.recs, d.name);
    && target.Some? && target.value != h
    && Satisfies(s.recs[target.value].version, d)
    && s.recs[target.value].state == Loaded
  }

  ghost predicate Running(s: Host, h: nat)
    requires h in s.recs
  {
    forall d :: d in s.recs[h].deps ==> Met(s, h, d)
  }

  ghost predicate Ready(s: Host, h: nat)
    requires h in s.recs
  {
    && Running(s, h)
    && forall d :: d in s.recs[h].deps ==> !s.recs[First(s.order, s.recs, d.name).value].transitioning
  }

  /** Some other plugin that runs, or whose module is open where `retained`, names this one. */
  ghost predicate Needed(s: Host, h: nat, retained: bool)
    requires h in s.recs
  {
    exists q :: q in s.recs && q != h && (s.recs[q].state == Loaded || (retained && s.recs[q].open))
      && Names(s.recs[q], s.recs[h].name)
  }

  // ---- the steps ----

  predicate Live(p: Plugin) {
    p.state == Loaded || p.state == Paused
  }

  /** The part of a block's guard that the record itself decides. */
  predicate Fits(p: Plugin, a: Act) {
    match a
    case Reject => p.state == Loading && p.doing == Idle
    case StartBegin => p.state == Loading && p.doing == Idle
    case StartCommit(_, _) => p.doing == Starting
    case PrepareEnd(_) => p.doing == Preparing
    case StopEnd(_) => p.doing == Stopping
    case FailCommit(_) => p.doing.Failed?
    case FailEnd => p.doing == Dropping
    case PauseBegin => p.state == Loaded && !p.transitioning
    case PauseEnd(_) => p.doing == Pausing
    case Resume => p.state == Paused && !p.transitioning
    case AnnounceEnd => p.doing == Announcing
    case UnloadBegin => Live(p) && !p.transitioning
    case UnloadFail(restore, quarantine) =>
      (p.doing == Unloading && !(restore && quarantine)) || (p.doing == Released && quarantine && !restore)
  }

  ghost predicate MayAct(s: Host, h: nat, a: Act) {
    && h in s.recs && Fits(s.recs[h], a)
    && (a.StartBegin? ==> Running(s, h))
    && (a.Resume? ==> Ready(s, h))
    && (a.PauseBegin? || a.UnloadBegin? ==> !Needed(s, h, a.UnloadBegin?) && !s.reg.Leased(h))
  }

  /** `ready`: every dependency runs and is not in a transition. */
  function Acted(p: Plugin, a: Act, ready: bool): Plugin
    requires Fits(p, a)
  {
    match a
    case Reject => p.(state := Error, accepting := false, open := false)
    case StartBegin => p.(accepting := true, doing := Starting)
    case StartCommit(loaded, activate) =>
      if !(loaded && ready) then p.(accepting := false, doing := Failing)
      else if activate then p.(state := Loaded, accepting := true, doing := Idle)
      else p.(accepting := false, doing := Preparing)
    case PrepareEnd(prepared) =>
      if prepared then p.(state := Paused, accepting := false, doing := Idle)
      else p.(state := Error, doing := Stopping)
    case StopEnd(stopped) =>
      if stopped then p.(doing := Failing) else p.(cleanup := true, doing := Idle)
    case FailCommit(released) =>
      if released && !p.doing.busy then p.(state := Error, doing := Dropping)
      else p.(state := Error, cleanup := true, doing := Idle)
    case FailEnd => p.(open := false, doing := Idle)
    case PauseBegin => p.(accepting := false, transitioning := true, doing := Pausing)
    case PauseEnd(ok) =>
      if ok then p.(state := Paused, doing := Announcing)
      else p.(accepting := true, transitioning := false, doing := Idle)
    case Resume => p.(state := Loaded, accepting := true, transitioning := true, doing := Announcing)
    case AnnounceEnd => p.(transitioning := false, doing := Idle)
    case UnloadBegin => p.(accepting := false, transitioning := true, doing := Unloading)
    case UnloadFail(restore, quarantine) =>
      p.(accepting := restore, cleanup := p.cleanup || quarantine, transitioning := false, doing := Idle)
  }

  function SelfDependent(info: Info): bool {
    exists i :: 0 <= i < |info.deps| && info.deps[i].name == info.name
  }

  ghost predicate Taken(s: Host, h: nat, name: string) {
    exists q :: q in s.recs && q != h && Answers(s.recs, q, name)
  }

  /** The block that ends a discovery; the self-dependency test comes before the name test. */
  ghost function Examined(s: Host, h: nat, info: Option<Info>): Plugin
    requires h in s.recs
  {
    var p := s.recs[h].(doing := Idle);
    if info.None? then
      p.(state := Invalid, open := false)
    else
      var known := p.(name := info.value.name, version := info.value.version, deps := info.value.deps);
      if SelfDependent(info.value) then known.(state := Error, selectable := true, open := false)
      else if Taken(s, h, info.value.name) then known.(state := Error, open := false)
      else known.(state := Loading, selectable := true)
  }

  function Fresh(image: Image): Plugin {
    var p := Plugin("", None, [], Error, false, false, false, false, false, Idle);
    match image
    case Opened => p.(open := true, doing := Examining)
    case Unreadable => p
    case NoExports => p.(state := Invalid)
  }

  ghost predicate Enabled(s: Host, step: Step) {
    match step
    case Local(h, act) => MayAct(s, h, act)
    case Discover(_) => s.next != 0
    case Examine(h, _) => h in s.recs && s.recs[h].doing == Examining
    case FailRelease(h) => h in s.recs && s.recs[h].doing == Failing
    case UnloadRelease(h) => h in s.recs && s.recs[h].doing == Unloading
    case UnloadEnd(h) => h in s.recs && s.recs[h].doing == Released
    case Forget(h) => h in s.recs && !Live(s.recs[h]) && !s.recs[h].open && !s.recs[h].cleanup
    case Publish(h, key, _) =>
      h in s.recs && s.recs[h].accepting && key !in s.reg.byKey && s.reg.next != 0
    case Withdraw(h, publication) =>
      && h in s.recs && MayReturn(s.recs[h]) && publication in s.reg.pubs
      && s.reg.pubs[publication].provider == h && s.reg.pubs[publication].consumers == {}
    case Release(h, key) =>
      && h in s.recs && MayReturn(s.recs[h]) && s.reg.Leases(h, Some(key.name), key.version)
    case Query(h, key) =>
      && h in s.recs && s.recs[h].accepting && key in s.reg.byKey && s.reg.byKey[key] in s.reg.pubs
      && var provider := s.reg.pubs[s.reg.byKey[key]].provider;
         provider == h || (provider in s.recs && s.recs[provider].state == Loaded && !s.recs[provider].transitioning)
  }

  /** A plugin may return leases while it accepts resources or prepares to pause or unload. */
  predicate MayReturn(p: Plugin) {
    p.accepting || p.doing in {Preparing, Stopping, Pausing, Unloading}
  }

  function Set(s: Host, h: nat, p: Plugin): Host {
    s.(recs := s.recs[h := p])
  }

  function Removed(order: seq<nat>, h: nat): (r: seq<nat>)
    ensures forall x :: x in r <==> x in order && x != h
  {
    if order == [] then [] else if order[0] == h then Removed(order[1..], h) else [order[0]] + Removed(order[1..], h)
  }

  function Without(s: Host, h: nat): Host {
    s.(order := Removed(s.order, h), recs := s.recs - {h})
  }

  ghost function Apply(s: Host, step: Step): Host
    requires Enabled(s, step)
  {
    match step
    case Local(h, act) => Set(s, h, Acted(s.recs[h], act, Ready(s, h)))
    case Discover(image) =>
      s.(order := s.order + [s.next], recs := s.recs[s.next := Fresh(image)], next := (s.next + 1) % HANDLE_SPACE)
    case Examine(h, info) => Set(s, h, Examined(s, h, info))
    case FailRelease(h) =>
      var busy := s.reg.Leased(h);
      Set(s, h, s.recs[h].(doing := Failed(busy))).(reg := if busy then s.reg else s.reg.Without(h))
    case UnloadRelease(h) =>
      if s.reg.Leased(h) then Set(s, h, Acted(s.recs[h], UnloadFail(true, false), false))
      else Set(s, h, s.recs[h].(doing := Released)).(reg := s.reg.Without(h))
    case UnloadEnd(h) => Without(s, h)
    case Forget(h) => Without(s, h)
    case Publish(h, key, service) => s.(reg := s.reg.Published(h, key, service))
    case Withdraw(h, publication) => s.(reg := s.reg.Withdrawn(publication))
    case Release(h, key) => s.(reg := s.reg.Unconsumed(s.reg.byKey[key], h))
    case Query(h, key) => s.(reg := s.reg.Queried(s.reg.byKey[key], h))
  }

  ghost predicate Legal(s: Host, steps: seq<Step>)
    decreases |steps|
  {
    steps == [] || (Enabled(s, steps[0]) && Legal(Apply(s, steps[0]), steps[1..]))
  }

  ghost function After(s: Host, steps: seq<Step>): Host
    requires Legal(s, steps)
    decreases |steps|
  {
    if steps == [] then s else After(Apply(s, steps[0]), steps[1..])
  }

  // ---- what every step keeps ----

  /** What is true of one record, whatever the others do. */
  predicate Sound(p: Plugin) {
    && (p.transitioning <==> p.doing in {Pausing, Announcing, Unloading, Released})
    && (p.doing != Idle || p.accepting || p.state == Loading || Live(p) ==> p.open)
    && (p.state == Loading || Live(p) ==> p.selectable)
    && (p.accepting ==> p.doing == Starting || (Live(p) && p.doing in {Idle, Announcing}))
    && (p.state == Loading ==> p.doing in {Idle, Starting, Preparing, Failing, Failed(false)})
    && (p.cleanup ==> Live(p) || (p.state == Error && p.doing == Idle))
    && (Live(p) ==> p.doing in {Idle, Pausing, Announcing, Unloading, Released})
    && match p.doing
       case Idle => true
       case Examining => p.state == Error && !p.selectable
       case Starting => p.state == Loading
       case Preparing => p.state == Loading
       case Stopping => p.state == Error && p.selectable
       case Failing => p.state in {Loading, Error} && p.selectable
       case Failed(busy) => p.state in {Loading, Error} && p.selectable && !busy
       case Dropping => p.state == Error
       case Pausing => p.state == Loaded
       case Announcing => Live(p)
       case Unloading => Live(p)
       case Released => Live(p)
  }

  /** The plugin may still publish, or lease, or hold a service. */
  predicate MayOwn(p: Plugin) {
    && p.open
    && ((Live(p) && p.doing != Released) || p.doing in {Starting, Preparing, Stopping, Failing} || (p.cleanup && p.doing == Idle))
  }

  /** Rejected for naming itself: it keeps its name but can only ever be removed. */
  predicate Inert(p: Plugin) {
    p.state == Error && !p.open && p.doing == Idle
  }

  predicate Claims(recs: map<nat, Plugin>, h: nat) {
    h in recs && recs[h].selectable && !Inert(recs[h])
  }

  ghost predicate Listed(s: Host) {
    && (forall h :: h in s.order <==> h in s.recs)
    && (forall h :: h in s.recs ==> h != 0 && (s.next == 0 || h < s.next) && Sound(s.recs[h]))
    && (forall i, j :: 0 <= i < j < |s.order| ==> s.order[i] != s.order[j])
    && s.next < HANDLE_SPACE
  }

  ghost predicate NamesUnique(recs: map<nat, Plugin>) {
    forall g, h :: Claims(recs, g) && Claims(recs, h) && g != h ==> recs[g].name != recs[h].name
  }

  predicate Leaving(p: Plugin) {
    p.doing in {Pausing, Unloading, Released}
  }

  /** No running plugin names one that is on its way out. */
  ghost predicate Undisturbed(recs: map<nat, Plugin>) {
    forall h, q :: (h in recs && q in recs && q != h && Leaving(recs[h]) && recs[q].state == Loaded)
      ==> !Names(recs[q], recs[h].name)
  }

  predicate Owner(recs: map<nat, Plugin>, h: nat) {
    h in recs && MayOwn(recs[h])
  }

  ghost predicate Owned(recs: map<nat, Plugin>, reg: Registry) {
    && (forall k :: k in reg.pubs ==> Owner(recs, reg.pubs[k].provider))
    && (forall k, c :: k in reg.pubs && c in reg.pubs[k].consumers ==> Owner(recs, c))
  }

  predicate Steady(recs: map<nat, Plugin>, h: nat) {
    h in recs && recs[h].state == Loaded && !recs[h].transitioning
  }

  /** A leased service belongs to a plugin that runs and is not in a transition. */
  ghost predicate Pinned(recs: map<nat, Plugin>, reg: Registry) {
    forall k :: k in reg.pubs && reg.pubs[k].consumers != {} ==> Steady(recs, reg.pubs[k].provider)
  }

  ghost predicate Safe(s: Host) {
    && Listed(s) && NamesUnique(s.recs) && Undisturbed(s.recs)
    && s.reg.Valid() && Owned(s.recs, s.reg) && Pinned(s.recs, s.reg)
  }

  /** Every running plugin has each dependency answered by a running plugin of the right version. */
  ghost predicate DependenciesRun(s: Host) {
    forall h :: h in s.recs && s.recs[h].state == Loaded ==> Running(s, h)
  }

  // ---- which plugin answers to a name ----

  lemma {:induction false} FirstSteady(order: seq<nat>, recs: map<nat, Plugin>, h: nat, p: Plugin, name: string)
    requires h in recs && Answers(recs[h := p], h, name) == Answers(recs, h, name)
    ensures First(order, recs[h := p], name) == First(order, recs, name)
  {
    if order != [] {
      FirstSteady(order[1..], recs, h, p, name);
    }
  }

  lemma {:induction false} FirstAppended(order: seq<nat>, recs: map<nat, Plugin>, h: nat, p: Plugin, name: string)
    requires h !in order && !p.selectable
    ensures First(order + [h], recs[h := p], name) == First(order, recs, name)
  {
    if order == [] {
      assert order + [h] == [h];
      assert First([h][1..], recs[h := p], name) == None;
    } else {
      assert (order + [h])[1..] == order[1..] + [h];
      FirstAppended(order[1..], recs, h, p, name);
    }
  }

  lemma {:induction false} FirstRemoved(order: seq<nat>, recs: map<nat, Plugin>, h: nat, name: string)
    requires First(order, recs, name) != Some(h)
    ensures First(Removed(order, h), recs - {h}, name) == First(order, recs, name)
  {
    if order != [] && !Answers(recs, order[0], name) {
      FirstRemoved(order[1..], recs, h, name);
    }
  }

  /** A record that begins to answer takes the name over exactly when it stands first. */
  lemma {:induction false} FirstGained(order: seq<nat>, recs: map<nat, Plugin>, h: nat, p: Plugin, name: string)
    requires h in recs && h in order && !Answers(recs, h, name) && Answers(recs[h := p], h, name)
    ensures var was := First(order, recs, name);
      First(order, recs[h := p], name) == if was.None? || StandsBefore(order, h, was.value) then Some(h) else was
  {
    if order[0] != h && !Answers(recs, order[0], name) {
      FirstGained(order[1..], recs, h, p, name);
    }
  }
}
