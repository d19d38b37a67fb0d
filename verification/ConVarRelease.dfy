/**
  Console variables: creating and finding them, dispatching their changes, and releasing each one
  exactly once however many threads ask for it. Threads interleave at every access to a flag, a counter
  or the release state.
 */
module ConVarRelease {

  /**
    `state`: 0 live, 1 being released, 2 released. `listed` says the record is in the table; `given`
    counts how often its game handle was handed back to the adapter.
   */
  datatype Record = Record(key: string, created: bool, listed: bool, enabled: bool, state: nat, active: nat, given: nat)

  datatype Stage = Draining | Given | Erased

  /** Something a thread is in the middle of. */
  datatype Frame =
    | Entered(c: nat)
    | Running(c: nat)
    | Releasing(c: nat, stage: Stage)
    | Awaiting(c: nat)

  /** `definitions` maps a normalised name to the live record created under it, or 0. `done`: releases that returned OK. */
  datatype Service = Service(
    records: map<nat, Record>, definitions: map<string, nat>, frames: map<nat, Frame>, done: set<nat>, next: nat)

  const Initial: Service := Service(map[], map[], map[], {}, 1)

  datatype Step =
    | Create(key: string, made: bool) | Find(key: string) | Enable(c: nat, on: bool)
    | Enter(f: nat, c: nat) | Check(f: nat) | Invoke(f: nat, c: nat) | Finish(f: nat)
    | ReleaseBegin(f: nat, c: nat) | ReleaseGive(f: nat) | ReleaseErase(f: nat) | ReleaseEnd(f: nat)
    | AwaitEnd(f: nat)

  function SetRecord(s: Service, c: nat, r: Record): Service {
    s.(records := s.records[c := r])
  }

  function SetFrame(s: Service, f: nat, x: Frame): Service {
    s.(frames := s.frames[f := x])
  }

  function Dropped(s: Service, f: nat): Service {
    s.(frames := s.frames - {f})
  }

  predicate Free(s: Service, f: nat, c: nat) {
    f !in s.frames && c in s.records
  }

  predicate At(s: Service, f: nat) {
    f in s.frames && s.frames[f].c in s.records
  }

  predicate Stands(s: Service, f: nat, stage: Stage) {
    At(s, f) && s.frames[f] == Releasing(s.frames[f].c, stage)
  }

  predicate Enabled(s: Service, step: Step) {
    match step
    case Create(key, _) => key !in s.definitions || s.definitions[key] == 0
    case Find(_) => true
    case Enable(c, _) => c in s.records && s.records[c].listed
    case Enter(f, c) => Free(s, f, c)
    case Check(f) => At(s, f) && s.frames[f].Entered?
    case Invoke(f, c) => Free(s, f, c) && s.records[c].listed && s.records[c].state == 0
    case Finish(f) => At(s, f) && s.frames[f].Running?
    case ReleaseBegin(f, c) => Free(s, f, c)
    case ReleaseGive(f) => Stands(s, f, Draining) && s.records[s.frames[f].c].active == 0
    case ReleaseErase(f) => Stands(s, f, Given) && s.records[s.frames[f].c].active == 0
    case ReleaseEnd(f) => Stands(s, f, Erased)
    case AwaitEnd(f) => At(s, f) && s.frames[f].Awaiting? && s.records[s.frames[f].c].state == 2
  }

  function Apply(s: Service, step: Step): Service
    requires Enabled(s, step)
  {
    match step
    case Create(key, made) =>
      if made then
        s.(records := s.records[s.next := Record(key, true, true, false, 0, 0, 0)],
           definitions := s.definitions[key := s.next], next := s.next + 1)
      else s.(next := s.next + 1)
    case Find(key) => s.(records := s.records[s.next := Record(key, false, true, false, 0, 0, 0)], next := s.next + 1)
    case Enable(c, on) => SetRecord(s, c, s.records[c].(enabled := on))
    case Enter(f, c) => Taken(SetFrame(s, f, Entered(c)), c)
    case Check(f) =>
      var c := s.frames[f].c;
      if s.records[c].enabled && s.records[c].state == 0 then SetFrame(s, f, Running(c)) else Left(Dropped(s, f), c)
    case Invoke(f, c) => Taken(SetFrame(s, f, Running(c)), c)
    case Finish(f) => Left(Dropped(s, f), s.frames[f].c)
    case ReleaseBegin(f, c) =>
      if s.records[c].state == 0 then
        SetRecord(SetFrame(s, f, Releasing(c, Draining)), c, s.records[c].(state := 1, enabled := false))
      else SetFrame(s, f, Awaiting(c))
    case ReleaseGive(f) =>
      var c := s.frames[f].c;
      SetRecord(SetFrame(s, f, Releasing(c, Given)), c, s.records[c].(given := s.records[c].given + 1))
    case ReleaseErase(f) => Erase(SetFrame(s, f, Releasing(s.frames[f].c, Erased)), s.frames[f].c)
    case ReleaseEnd(f) =>
      var c := s.frames[f].c;
      SetRecord(Dropped(s, f), c, s.records[c].(state := 2)).(done := s.done + {c})
    case AwaitEnd(f) => Dropped(s, f).(done := s.done + {s.frames[f].c})
  }

  function Taken(s: Service, c: nat): Service
    requires c in s.records
  {
    SetRecord(s, c, s.records[c].(active := s.records[c].active + 1))
  }

  function Left(s: Service, c: nat): Service
    requires c in s.records
  {
    SetRecord(s, c, s.records[c].(active := if s.records[c].active == 0 then 0 else s.records[c].active - 1))
  }

  function Erase(s: Service, c: nat): Service
    requires c in s.records
  {
    var r := s.records[c];
    SetRecord(s, c, r.(listed := false))
      .(definitions := if r.created && r.key in s.definitions && s.definitions[r.key] == c then s.definitions[r.key := 0] else s.definitions)
  }

  // ---- what every step keeps ----

  function Holders(frames: map<nat, Frame>, c: nat): set<nat> {
    set f | f in frames && (frames[f] == Entered(c) || frames[f] == Running(c))
  }

  ghost predicate Counted(s: Service) {
    forall c :: c in s.records ==> s.records[c].active == |Holders(s.frames, c)|
  }

  /** Frames refer to records there are. */
  ghost predicate Known(s: Service) {
    && (forall f :: f in s.frames ==> s.frames[f].c in s.records)
    && (forall c :: c in s.records ==> 0 < c < s.next) && s.next > 0
  }

  predicate Releases(x: Frame, c: nat) {
    x.Releasing? && x.c == c
  }

  /** What a releasing frame says of its record. */
  predicate Agrees(r: Record, stage: Stage) {
    && r.state == 1
    && r.given == (if stage == Draining then 0 else 1)
    && (r.listed <==> stage != Erased)
  }

  /** One thread at most releases a record; the state tells how far it is. */
  ghost predicate Staged(s: Service) {
    && (forall f :: f in s.frames && s.frames[f].Releasing? && s.frames[f].c in s.records ==> Agrees(s.records[s.frames[f].c], s.frames[f].stage))
    && (forall f, g :: f in s.frames && g in s.frames && s.frames[f].Releasing? && s.frames[g].Releasing? && s.frames[f].c == s.frames[g].c ==> f == g)
    && (forall c :: c in s.records ==>
          match s.records[c].state
          case 0 => s.records[c].given == 0 && s.records[c].listed
          case 1 => exists f :: f in s.frames && Releases(s.frames[f], c)
          case 2 => s.records[c].given == 1 && !s.records[c].listed
          case _ => false)
  }

  predicate Quiet(s: Service, c: nat) {
    forall f :: f in s.frames ==> s.frames[f] != Running(c)
  }

  /** No body runs once the handle was given back. */
  ghost predicate GivenIsQuiet(s: Service) {
    forall c :: c in s.records && s.records[c].given > 0 ==> s.records[c].state != 0 && Quiet(s, c)
  }

  /** A definition's record is the one live record created under its name, and each such record is its definition's. */
  ghost predicate Defined(s: Service) {
    && (forall k :: k in s.definitions && s.definitions[k] != 0 ==>
          s.definitions[k] in s.records && Live(s.records[s.definitions[k]], k))
    && (forall c, k :: c in s.records && Live(s.records[c], k) ==> k in s.definitions && s.definitions[k] == c)
  }

  predicate Live(r: Record, key: string) {
    r.created && r.listed && r.key == key
  }

  ghost predicate DoneIsReleased(s: Service) {
    forall c :: c in s.done ==> c in s.records && s.records[c].state == 2
  }

  ghost predicate Safe(s: Service) {
    Known(s) && Counted(s) && Staged(s) && GivenIsQuiet(s) && Defined(s) && DoneIsReleased(s)
  }

  // ---- counters ----

  predicate Holds(x: Frame, c: nat) {
    x == Entered(c) || x == Running(c)
  }

  lemma HoldersSet(frames: map<nat, Frame>, f: nat, x: Frame, c: nat)
    ensures Holders(frames[f := x], c) == Holders(frames, c) - {f} + if Holds(x, c) then {f} else {}
    ensures Holders(frames - {f}, c) == Holders(frames, c) - {f}
    ensures f in Holders(frames, c) <==> f in frames && Holds(frames[f], c)
  {
  }

  lemma HoldersAdd(frames: map<nat, Frame>, f: nat, x: Frame, c: nat, d: nat)
    requires f !in frames && Holds(x, c)
    ensures |Holders(frames[f := x], d)| == |Holders(frames, d)| + if c == d then 1 else 0
  {
    HoldersSet(frames, f, x, d);
    assert f !in Holders(frames, d);
  }

  /** A frame that holds the counter comes or goes, and the counter with it. */
  lemma CountedTaken(s: Service, f: nat, x: Frame, c: nat)
    requires Counted(s) && Free(s, f, c) && Holds(x, c)
    ensures Counted(Taken(SetFrame(s, f, x), c))
  {
    forall d | d in s.records
      ensures Taken(SetFrame(s, f, x), c).records[d].active == |Holders(s.frames[f := x], d)|
    {
      HoldersAdd(s.frames, f, x, c, d);
    }
  }

  lemma CountedLeft(s: Service, f: nat, c: nat)
    requires Counted(s) && At(s, f) && Holds(s.frames[f], c)
    ensures Counted(Left(Dropped(s, f), c))
  {
    forall d | d in s.records
      ensures Left(Dropped(s, f), c).records[d].active == |Holders(s.frames - {f}, d)|
    {
      HoldersSet(s.frames, f, s.frames[f], d);
    }
  }

  /** A frame changes without taking or giving back a counter. */
  lemma CountedSame(s: Service, f: nat, x: Frame)
    requires Counted(s) && forall c :: c in s.records ==> (Holds(x, c) <==> f in s.frames && Holds(s.frames[f], c))
    ensures Counted(SetFrame(s, f, x))
  {
    forall c | c in s.records
      ensures s.records[c].active == |Holders(s.frames[f := x], c)|
    {
      HoldersSet(s.frames, f, x, c);
      assert Holders(s.frames[f := x], c) == Holders(s.frames, c);
    }
  }

  lemma CountedDropped(s: Service, f: nat)
    requires Counted(s) && f in s.frames && forall c :: c in s.records ==> !Holds(s.frames[f], c)
    ensures Counted(Dropped(s, f))
  {
    forall c | c in s.records
      ensures s.records[c].active == |Holders(s.frames - {f}, c)|
    {
      HoldersSet(s.frames, f, s.frames[f], c);
      assert Holders(s.frames - {f}, c) == Holders(s.frames, c);
    }
  }

  lemma CountedRecord(s: Service, c: nat, r: Record)
    requires Counted(s) && c in s.records && r.active == s.records[c].active
    ensures Counted(SetRecord(s, c, r))
  {
  }

  lemma CountedNew(s: Service, r: Record)
    requires Counted(s) && Known(s) && r.active == 0
    ensures forall d :: d in s.records[s.next := r] ==> s.records[s.next := r][d].active == |Holders(s.frames, d)|
  {
    assert s.next !in s.records;
    assert Holders(s.frames, s.next) == {};
  }

  lemma ReleaseCounted(s: Service, step: Step)
    requires Known(s) && Counted(s) && Enabled(s, step) && (step.ReleaseBegin? || step.ReleaseGive? || step.ReleaseErase?)
    ensures Counted(Apply(s, step))
  {
    match step
    case ReleaseBegin(f, c) =>
      CountedSame(s, f, Releasing(c, Draining));
      CountedSame(s, f, Awaiting(c));
      CountedRecord(SetFrame(s, f, Releasing(c, Draining)), c, s.records[c].(state := 1, enabled := false));
    case ReleaseGive(f) =>
      var c := s.frames[f].c;
      CountedSame(s, f, Releasing(c, Given));
      CountedRecord(SetFrame(s, f, Releasing(c, Given)), c, s.records[c].(given := s.records[c].given + 1));
    case ReleaseErase(f) => CountedSame(s, f, Releasing(s.frames[f].c, Erased));
  }

  lemma StepCounted(s: Service, step: Step)
    requires Known(s) && Counted(s) && Enabled(s, step)
    ensures Counted(Apply(s, step))
  {
    match step
    case Create(key, made) => CountedNew(s, Record(key, true, true, false, 0, 0, 0));
    case Find(key) => CountedNew(s, Record(key, false, true, false, 0, 0, 0));
    case Enable(c, on) => CountedRecord(s, c, s.records[c].(enabled := on));
    case Enter(f, c) => CountedTaken(s, f, Entered(c), c);
    case Check(f) =>
      CountedSame(s, f, Running(s.frames[f].c));
      CountedLeft(s, f, s.frames[f].c);
    case Invoke(f, c) => CountedTaken(s, f, Running(c), c);
    case Finish(f) => CountedLeft(s, f, s.frames[f].c);
    case ReleaseEnd(f) => CountedDropped(s, f);
    case AwaitEnd(f) => CountedDropped(s, f);
    case _ => ReleaseCounted(s, step);
  }

  lemma IdleIsQuiet(s: Service, c: nat)
    requires Counted(s) && c in s.records && s.records[c].active == 0
    ensures Quiet(s, c)
  {
    forall f | f in s.frames
      ensures s.frames[f] != Running(c)
    {
      assert s.frames[f] == Running(c) ==> f in Holders(s.frames, c);
    }
  }

  // ---- the other invariants ----

  lemma StepKnown(s: Service, step: Step)
    requires Known(s) && Enabled(s, step)
    ensures Known(Apply(s, step))
  {
  }

  predicate SameStage(r: Record, q: Record) {
    r.state == q.state && r.given == q.given && r.listed == q.listed
  }

  predicate ReleasingHere(frames: map<nat, Frame>, f: nat) {
    f in frames && frames[f].Releasing?
  }

  /** Nothing that has to do with releasing changed. */
  ghost predicate SameReleases(s: Service, t: Service) {
    && (forall c :: c in s.records ==> c in t.records && SameStage(s.records[c], t.records[c]))
    && (forall f :: ReleasingHere(t.frames, f) <==> ReleasingHere(s.frames, f))
    && (forall f :: ReleasingHere(s.frames, f) ==> t.frames[f] == s.frames[f])
  }

  lemma StagedSame(s: Service, t: Service)
    requires Staged(s) && SameReleases(s, t) && t.records.Keys == s.records.Keys
    ensures Staged(t)
  {
    forall c | c in t.records && t.records[c].state == 1
      ensures exists f :: f in t.frames && Releases(t.frames[f], c)
    {
      var f :| f in s.frames && Releases(s.frames[f], c);
      assert ReleasingHere(s.frames, f) && Releases(t.frames[f], c);
    }
    forall f | f in t.frames && t.frames[f].Releasing? && t.frames[f].c in t.records
      ensures Agrees(t.records[t.frames[f].c], t.frames[f].stage)
    {
      assert ReleasingHere(t.frames, f);
      assert Agrees(s.records[s.frames[f].c], s.frames[f].stage);
    }
    forall f, g | f in t.frames && g in t.frames && t.frames[f].Releasing? && t.frames[g].Releasing? && t.frames[f].c == t.frames[g].c
      ensures f == g
    {
      assert ReleasingHere(t.frames, f) && ReleasingHere(t.frames, g);
    }
  }

  lemma StagedNew(s: Service, r: Record, t: Service)
    requires Known(s) && Staged(s) && r.state == 0 && r.given == 0 && r.listed
    requires t.records == s.records[s.next := r] && t.frames == s.frames
    ensures Staged(t)
  {
    assert s.next !in s.records;
  }

  /** The releasing frame `f` and its record move on together. */
  lemma StagedMoves(s: Service, f: nat, c: nat, x: Frame, r: Record, t: Service)
    requires Known(s) && Staged(s) && c in s.records && Releases(x, c) && Agrees(r, x.stage)
    requires s.records[c].state == 0 || (f in s.frames && Releases(s.frames[f], c))
    requires f !in s.frames || Releases(s.frames[f], c)
    requires t.frames == s.frames[f := x] && t.records == s.records[c := r]
    ensures Staged(t)
  {
    forall g | g in s.frames && Releases(s.frames[g], c)
      ensures g == f
    {
      assert Agrees(s.records[c], s.frames[g].stage);
    }
    forall d | d in t.records && t.records[d].state == 1
      ensures exists g :: g in t.frames && Releases(t.frames[g], d)
    {
      if d == c {
        assert Releases(t.frames[f], c);
      } else {
        var g :| g in s.frames && Releases(s.frames[g], d);
        assert g != f && Releases(t.frames[g], d);
      }
    }
  }

  lemma StagedEnds(s: Service, f: nat, c: nat, t: Service)
    requires Known(s) && Staged(s) && Stands(s, f, Erased) && c == s.frames[f].c
    requires t.frames == s.frames - {f} && t.records == s.records[c := s.records[c].(state := 2)]
    ensures Staged(t)
  {
    assert Agrees(s.records[c], Erased);
    forall d | d in t.records && t.records[d].state == 1
      ensures exists g :: g in t.frames && Releases(t.frames[g], d)
    {
      var g :| g in s.frames && Releases(s.frames[g], d);
      assert g != f && Releases(t.frames[g], d);
    }
  }

  lemma MovedStaged(s: Service, step: Step)
    requires Known(s) && Staged(s) && Enabled(s, step) && MovesRelease(s, step)
    ensures Staged(Apply(s, step))
  {
    var t := Apply(s, step);
    match step
    case Create(key, made) => StagedNew(s, Record(key, true, true, false, 0, 0, 0), s.(records := s.records[s.next := Record(key, true, true, false, 0, 0, 0)]));
    case Find(key) => StagedNew(s, Record(key, false, true, false, 0, 0, 0), t);
    case ReleaseBegin(f, c) =>
      StagedMoves(s, f, c, Releasing(c, Draining), s.records[c].(state := 1, enabled := false), t);
    case ReleaseGive(f) =>
      var c := s.frames[f].c;
      assert Agrees(s.records[c], Draining);
      StagedMoves(s, f, c, Releasing(c, Given), s.records[c].(given := s.records[c].given + 1), t);
    case ReleaseErase(f) =>
      var c := s.frames[f].c;
      assert Agrees(s.records[c], Given);
      StagedMoves(s, f, c, Releasing(c, Erased), s.records[c].(listed := false), t);
    case ReleaseEnd(f) => StagedEnds(s, f, s.frames[f].c, t);
  }

  predicate MovesRelease(s: Service, step: Step) {
    || step.Create? || step.Find? || step.ReleaseGive? || step.ReleaseErase? || step.ReleaseEnd?
    || (step.ReleaseBegin? && step.c in s.records && s.records[step.c].state == 0)
  }

  lemma OtherwiseSame(s: Service, step: Step)
    requires Enabled(s, step) && !MovesRelease(s, step)
    ensures SameReleases(s, Apply(s, step)) && Apply(s, step).records.Keys == s.records.Keys
  {
  }

  lemma StepStaged(s: Service, step: Step)
    requires Known(s) && Staged(s) && Enabled(s, step)
    ensures Staged(Apply(s, step))
  {
    if MovesRelease(s, step) {
      MovedStaged(s, step);
    } else {
      OtherwiseSame(s, step);
      StagedSame(s, Apply(s, step));
    }
  }

  /** No step starts a body on a record whose release has begun. */
  lemma StepStarts(s: Service, step: Step, c: nat)
    requires Enabled(s, step) && c in s.records && s.records[c].state != 0 && Quiet(s, c)
    ensures Quiet(Apply(s, step), c)
  {
  }

  lemma StepGives(s: Service, step: Step, c: nat)
    requires Known(s) && Enabled(s, step) && c in s.records
    ensures c in Apply(s, step).records
    ensures Apply(s, step).records[c].given > 0 ==> s.records[c].given > 0 || (step.ReleaseGive? && s.frames[step.f].c == c)
    ensures s.records[c].state != 0 ==> Apply(s, step).records[c].state != 0
  {
    assert s.next !in s.records;
  }

  lemma StepQuiet(s: Service, step: Step)
    requires Known(s) && Counted(s) && Staged(s) && GivenIsQuiet(s) && Enabled(s, step)
    ensures GivenIsQuiet(Apply(s, step))
  {
    var t := Apply(s, step);
    forall c | c in t.records && t.records[c].given > 0
      ensures t.records[c].state != 0 && Quiet(t, c)
    {
      assert c in s.records;
      StepGives(s, step, c);
      if s.records[c].given == 0 {
        assert Agrees(s.records[c], s.frames[step.f].stage);
        IdleIsQuiet(s, c);
      }
      StepStarts(s, step, c);
    }
  }

  lemma DefinedSame(s: Service, t: Service)
    requires Defined(s) && t.definitions == s.definitions && t.records.Keys == s.records.Keys
    requires forall c, k :: c in s.records ==> (Live(t.records[c], k) <==> Live(s.records[c], k))
    ensures Defined(t)
  {
  }

  lemma OthersKeepLive(s: Service, step: Step)
    requires Enabled(s, step) && !step.Create? && !step.Find? && !step.ReleaseErase?
    ensures var t := Apply(s, step);
      && t.definitions == s.definitions && t.records.Keys == s.records.Keys
      && forall c, k :: c in s.records ==> (Live(t.records[c], k) <==> Live(s.records[c], k))
  {
  }

  lemma CreateDefined(s: Service, key: string, made: bool)
    requires Known(s) && Defined(s) && Enabled(s, Create(key, made))
    ensures Defined(Apply(s, Create(key, made)))
  {
    assert s.next !in s.records;
    assert made ==> forall c :: c in s.records ==> !Live(s.records[c], key);
  }

  lemma FindDefined(s: Service, key: string)
    requires Known(s) && Defined(s)
    ensures Defined(Apply(s, Find(key)))
  {
    assert s.next !in s.records;
  }

  lemma EraseDefined(s: Service, c: nat)
    requires Defined(s) && c in s.records
    ensures Defined(Erase(s, c))
  {
    assert Live(s.records[c], s.records[c].key) || Erase(s, c).definitions == s.definitions;
  }

  lemma StepDefined(s: Service, step: Step)
    requires Known(s) && Defined(s) && Enabled(s, step)
    ensures Defined(Apply(s, step))
  {
    match step
    case Create(key, made) => CreateDefined(s, key, made);
    case Find(key) => FindDefined(s, key);
    case ReleaseErase(f) => EraseDefined(SetFrame(s, f, Releasing(s.frames[f].c, Erased)), s.frames[f].c);
    case _ =>
      OthersKeepLive(s, step);
      DefinedSame(s, Apply(s, step));
  }

  lemma StepDone(s: Service, step: Step)
    requires Known(s) && Staged(s) && DoneIsReleased(s) && Enabled(s, step)
    ensures DoneIsReleased(Apply(s, step))
  {
  }

  lemma StepSafe(s: Service, step: Step)
    requires Safe(s) && Enabled(s, step)
    ensures Safe(Apply(s, step))
  {
    StepKnown(s, step);
    StepCounted(s, step);
    StepStaged(s, step);
    StepQuiet(s, step);
    StepDefined(s, step);
    StepDone(s, step);
  }

  predicate Legal(s: Service, steps: seq<Step>)
    decreases |steps|
  {
    steps == [] || (Enabled(s, steps[0]) && Legal(Apply(s, steps[0]), steps[1..]))
  }

  function After(s: Service, steps: seq<Step>): Service
    requires Legal(s, steps)
    decreases |steps|
  {
    if steps == [] then s else After(Apply(s, steps[0]), steps[1..])
  }

  lemma {:induction false} RunSafe(s: Service, steps: seq<Step>)
    requires Safe(s) && Legal(s, steps)
    ensures Safe(After(s, steps))
    decreases |steps|
  {
    if steps != [] {
      StepSafe(s, steps[0]);
      RunSafe(Apply(s, steps[0]), steps[1..]);
    }
  }

  /** A handle is given back once at most, by the one thread that releases, and exactly once when a release returns OK. */
  lemma ReleasedOnce(steps: seq<Step>, c: nat)
    requires Legal(Initial, steps) && c in After(Initial, steps).records
    ensures var s := After(Initial, steps);
      && s.records[c].given <= 1 && s.records[c].state <= 2
      && (c in s.done ==> s.records[c].state == 2 && s.records[c].given == 1 && !s.records[c].listed && Quiet(s, c))
      && (forall f, g :: f in s.frames && g in s.frames && Releases(s.frames[f], c) && Releases(s.frames[g], c) ==> f == g)
  {
    RunSafe(Initial, steps);
    var s := After(Initial, steps);
    forall f | f in s.frames && Releases(s.frames[f], c)
      ensures s.records[c].given <= 1
    {
      assert Agrees(s.records[c], s.frames[f].stage);
    }
  }

  /** The release state only ever grows, by one. */
  lemma StateGrows(s: Service, step: Step, c: nat)
    requires Safe(s) && Enabled(s, step) && c in s.records
    ensures Apply(s, step).records[c].state == s.records[c].state || Apply(s, step).records[c].state == s.records[c].state + 1
  {
    assert s.next !in s.records;
    if step.ReleaseEnd? && s.frames[step.f].c == c {
      assert Agrees(s.records[c], Erased);
    }
  }
}
