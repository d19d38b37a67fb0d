/**
  Tokens of entities under construction. The adapter hands one out for each entity it begins to create;
  it must come back through a cancellation or be used up by a spawn. Every adapter call may re-enter the
  service, so the blocks between adapter calls are steps and calls under way are frames.
 */
module ConstructionTokens {
  /** `token` is 0 when the adapter gave none yet or it is gone. */
  datatype Construction = Construction(owner: nat, token: nat, initializing: bool, busy: bool, closed: bool)

  /** A handle; `builder` marks the plugin's own handle of a construction, others only observe it. */
  datatype Entity = Entity(owner: nat, state: nat, builder: bool)

  datatype Frame =
    | Creating(state: nat, handle: nat)
    | Spawning(state: nat, token: nat)
    | Changing(state: nat)
    | Releasing(pending: seq<nat>)
    | Pruning(pending: seq<nat>)

  /** `issued`, `cancelled` and `consumed` record what the adapter saw; `cancelled` in order. */
  datatype Service = Service(
    states: map<nat, Construction>, entities: map<nat, Entity>, frames: map<nat, Frame>,
    issued: set<nat>, cancelled: seq<nat>, consumed: set<nat>, next: nat)

  const Initial: Service := Service(map[], map[], map[], {}, [], {}, 1)

  datatype Step =
    | CreateBegin(f: nat, p: nat) | CreateEnd(f: nat, token: nat, accepted: bool)
    | SpawnBegin(f: nat, h: nat) | SpawnEnd(f: nat, dispatched: bool)
    | ChangeBegin(f: nat, h: nat) | ChangeEnd(f: nat)
    | Observe(p: nat, h: nat)
    | ReleaseEntity(p: nat, h: nat)
    | ReleaseBegin(f: nat, everyone: bool, p: nat) | ReleaseNext(f: nat) | ReleaseEnd(f: nat)
    | PruneBegin(f: nat, pending: seq<nat>) | PruneNext(f: nat, missing: bool) | PruneEnd(f: nat)

  predicate Owned(s: Service, h: nat) {
    h in s.entities && s.entities[h].state in s.states
  }

  /** The construction may be worked on: its own handle, no other call on it, a token. */
  predicate Workable(s: Service, h: nat) {
    && Owned(s, h) && s.entities[h].builder
    && var x := s.states[s.entities[h].state]; !x.initializing && !x.busy && !x.closed && x.token != 0
  }

  predicate Pending(x: Construction) {
    x.initializing || x.token != 0
  }

  predicate Hit(e: Entity, everyone: bool, p: nat) {
    everyone || e.owner == p
  }

  /** The constructions a release of these handles has to cancel. */
  function ToCancel(s: Service, everyone: bool, p: nat): set<nat> {
    set h | h in s.entities && Hit(s.entities[h], everyone, p) && s.entities[h].builder && s.entities[h].state in s.states
            && Pending(s.states[s.entities[h].state]) :: s.entities[h].state
  }

  ghost predicate Lists(q: seq<nat>, xs: set<nat>) {
    forall x :: x in q <==> x in xs
  }

  ghost function Listed(xs: set<nat>): (q: seq<nat>)
    ensures Lists(q, xs)
  {
    if xs == {} then [] else
      var x :| x in xs;
      [x] + Listed(xs - {x})
  }

  /** Close the construction, take its token, and hand that to the adapter. */
  function Cancel(s: Service, i: nat): Service
    requires i in s.states
  {
    var x := s.states[i];
    s.(states := s.states[i := x.(closed := true, token := 0)],
       cancelled := if x.token == 0 then s.cancelled else s.cancelled + [x.token])
  }

  /** The adapter's answer, before it is known whether the construction is still wanted. */
  function Made(s: Service, f: nat, token: nat): Service
    requires f in s.frames && s.frames[f].Creating? && s.frames[f].state in s.states
  {
    var i := s.frames[f].state;
    s.(states := s.states[i := s.states[i].(token := token, initializing := false)],
       frames := s.frames - {f}, issued := if token == 0 then s.issued else s.issued + {token})
  }

  function WithoutHandle(s: Service, h: nat): Service {
    s.(entities := s.entities - {h})
  }

  predicate Enabled(s: Service, step: Step) {
    match step
    case CreateBegin(f, _) => f !in s.frames
    case CreateEnd(f, token, accepted) =>
      && f in s.frames && s.frames[f].Creating? && s.frames[f].state in s.states
      && (token == 0 || token !in s.issued)
      && (accepted ==> token != 0 && !s.states[s.frames[f].state].closed && s.frames[f].handle in s.entities)
    case SpawnBegin(f, h) => f !in s.frames && Workable(s, h)
    case SpawnEnd(f, _) => f in s.frames && s.frames[f].Spawning? && s.frames[f].state in s.states
    case ChangeBegin(f, h) => f !in s.frames && Workable(s, h)
    case ChangeEnd(f) => f in s.frames && s.frames[f].Changing? && s.frames[f].state in s.states
    case Observe(_, h) => Owned(s, h) && s.entities[h].builder
    case ReleaseEntity(p, h) => Owned(s, h) && s.entities[h].owner == p
    case ReleaseBegin(f, _, _) => f !in s.frames
    case ReleaseNext(f) =>
      f in s.frames && s.frames[f].Releasing? && s.frames[f].pending != [] && s.frames[f].pending[0] in s.states
    case ReleaseEnd(f) => f in s.frames && s.frames[f] == Releasing([])
    case PruneBegin(f, pending) => f !in s.frames && forall i :: i in pending ==> i in s.states
    case PruneNext(f, _) =>
      f in s.frames && s.frames[f].Pruning? && s.frames[f].pending != [] && s.frames[f].pending[0] in s.states
    case PruneEnd(f) => f in s.frames && s.frames[f] == Pruning([])
  }

  ghost function Apply(s: Service, step: Step): Service
    requires Enabled(s, step)
  {
    match step
    case CreateBegin(f, p) =>
      s.(states := s.states[s.next := Construction(p, 0, true, false, false)],
         entities := s.entities[s.next := Entity(p, s.next, true)],
         frames := s.frames[f := Creating(s.next, s.next)], next := s.next + 1)
    case CreateEnd(f, token, accepted) =>
      if accepted then Made(s, f, token) else Cancel(WithoutHandle(Made(s, f, token), s.frames[f].handle), s.frames[f].state)
    case SpawnBegin(f, h) => Begun(s, f, h, Spawning(s.entities[h].state, s.states[s.entities[h].state].token))
    case SpawnEnd(f, dispatched) =>
      var i := s.frames[f].state;
      var x := s.states[i].(busy := false);
      if dispatched then
        s.(states := s.states[i := x.(token := 0)], frames := s.frames - {f}, consumed := s.consumed + {s.frames[f].token})
      else s.(states := s.states[i := x], frames := s.frames - {f})
    case ChangeBegin(f, h) => Begun(s, f, h, Changing(s.entities[h].state))
    case ChangeEnd(f) =>
      var i := s.frames[f].state;
      s.(states := s.states[i := s.states[i].(busy := false)], frames := s.frames - {f})
    case Observe(p, h) => s.(entities := s.entities[s.next := Entity(p, s.entities[h].state, false)], next := s.next + 1)
    case ReleaseEntity(p, h) =>
      if s.entities[h].builder && Pending(s.states[s.entities[h].state]) then Cancel(WithoutHandle(s, h), s.entities[h].state)
      else WithoutHandle(s, h)
    case ReleaseBegin(f, everyone, p) =>
      var pending := ToCancel(s, everyone, p);
      s.(states := map i | i in s.states :: if i in pending then s.states[i].(closed := true) else s.states[i],
         entities := map h | h in s.entities && !Hit(s.entities[h], everyone, p) :: s.entities[h],
         frames := s.frames[f := Releasing(Listed(pending))])
    case ReleaseNext(f) =>
      Cancel(s.(frames := s.frames[f := Releasing(s.frames[f].pending[1..])]), s.frames[f].pending[0])
    case ReleaseEnd(f) => s.(frames := s.frames - {f})
    case PruneBegin(f, pending) => s.(frames := s.frames[f := Pruning(pending)])
    case PruneNext(f, missing) =>
      var i := s.frames[f].pending[0];
      var on := s.(frames := s.frames[f := Pruning(s.frames[f].pending[1..])]);
      if missing then Cancel(on, i) else on
    case PruneEnd(f) => s.(frames := s.frames - {f})
  }

  function Begun(s: Service, f: nat, h: nat, x: Frame): Service
    requires Workable(s, h)
  {
    var i := s.entities[h].state;
    s.(states := s.states[i := s.states[i].(busy := true)], frames := s.frames[f := x])
  }

  // ---- what every step keeps ----

  /** Every token handed out is with a construction, was cancelled, or was used up by a spawn. */
  ghost predicate Accounted(s: Service) {
    forall t :: t in s.issued ==> t in s.cancelled || t in s.consumed || exists i :: i in s.states && s.states[i].token == t
  }

  /** A construction's token is nobody else's and was not cancelled; nothing was cancelled twice. */
  ghost predicate Single(s: Service) {
    && 0 !in s.issued && 0 !in s.cancelled
    && (forall i :: i in s.states && s.states[i].token != 0 ==> s.states[i].token in s.issued && s.states[i].token !in s.cancelled)
    && (forall i, j :: i in s.states && j in s.states && i != j && s.states[i].token != 0 ==> s.states[i].token != s.states[j].token)
    && (forall m, n :: 0 <= m < n < |s.cancelled| ==> s.cancelled[m] != s.cancelled[n])
    && (forall t :: t in s.cancelled ==> t in s.issued)
  }

  predicate HasBuilder(entities: map<nat, Entity>, i: nat) {
    exists h :: h in entities && entities[h].state == i && entities[h].builder
  }

  predicate BeingReleased(frames: map<nat, Frame>, i: nat) {
    exists f :: f in frames && frames[f].Releasing? && i in frames[f].pending
  }

  predicate HeldBy(s: Service, i: nat)
    requires i in s.states
  {
    if s.states[i].closed then BeingReleased(s.frames, i) else HasBuilder(s.entities, i)
  }

  /** Whoever holds a token has an owner to cancel it: its own handle while open, a running release once closed. */
  ghost predicate Held(s: Service) {
    forall i :: i in s.states && s.states[i].token != 0 ==> HeldBy(s, i)
  }

  /** A construction being created has no token yet, and one creation and one handle of its own. */
  ghost predicate Tidy(s: Service) {
    && (forall i :: i in s.states ==> i < s.next)
    && (forall h :: h in s.entities ==> h < s.next && s.entities[h].state in s.states)
    && (forall h, g :: h in s.entities && g in s.entities && s.entities[h].builder && s.entities[g].builder && s.entities[h].state == s.entities[g].state ==> h == g)
    && (forall f :: f in s.frames && s.frames[f].Creating? ==> s.frames[f].state in s.states && CreationOpen(s, s.frames[f]))
    && (forall f, g :: f in s.frames && g in s.frames && s.frames[f].Creating? && s.frames[g].Creating? && s.frames[f].state == s.frames[g].state ==> f == g)
    && (forall f :: f in s.frames && s.frames[f].Spawning? ==> s.frames[f].state in s.states && SpawnOpen(s, s.frames[f]))
  }

  predicate SpawnOpen(s: Service, x: Frame)
    requires x.Spawning? && x.state in s.states
  {
    x.token != 0 && s.states[x.state].token in {0, x.token} && !s.states[x.state].initializing
  }

  predicate CreationOpen(s: Service, x: Frame)
    requires x.Creating? && x.state in s.states
  {
    && s.states[x.state].initializing && s.states[x.state].token == 0 && x.handle < s.next
    && (x.handle in s.entities ==> s.entities[x.handle].state == x.state && s.entities[x.handle].builder)
  }

  ghost predicate Safe(s: Service) {
    Tidy(s) && Accounted(s) && Single(s) && Held(s)
  }

  // ---- cancelling ----

  lemma CancelTidy(s: Service, i: nat)
    requires Tidy(s) && i in s.states
    ensures Tidy(Cancel(s, i))
  {
  }

  lemma CancelTokens(s: Service, i: nat)
    requires Accounted(s) && Single(s) && i in s.states
    ensures Accounted(Cancel(s, i)) && Single(Cancel(s, i))
  {
    var t := Cancel(s, i);
    forall k | k in s.issued
      ensures k in t.cancelled || k in t.consumed || exists j :: j in t.states && t.states[j].token == k
    {
      if k !in s.cancelled && k !in s.consumed && s.states[i].token != k {
        var j :| j in s.states && s.states[j].token == k;
        assert t.states[j].token == k;
      }
    }
  }

  /** Cancelling one construction: the others need their owners, this one no longer. */
  lemma CancelSafe(s: Service, i: nat)
    requires Tidy(s) && Accounted(s) && Single(s) && i in s.states
    requires forall k :: k in s.states && k != i && s.states[k].token != 0 ==> HeldBy(s, k)
    ensures Safe(Cancel(s, i))
  {
    CancelTidy(s, i);
    CancelTokens(s, i);
    var t := Cancel(s, i);
    forall k | k in t.states && t.states[k].token != 0
      ensures HeldBy(t, k)
    {
      assert HeldBy(s, k);
    }
  }

  // ---- creating ----

  /** A new construction without a token changes no account. */
  lemma StatesExtend(s: Service, t: Service)
    requires Accounted(s) && Single(s) && t.issued == s.issued && t.cancelled == s.cancelled && t.consumed == s.consumed
    requires forall i :: i in s.states ==> i in t.states && t.states[i].token == s.states[i].token
    requires forall i :: i in t.states && i !in s.states ==> t.states[i].token == 0
    ensures Accounted(t) && Single(t)
  {
    forall k | k in s.issued && k !in s.cancelled && k !in s.consumed
      ensures exists j :: j in t.states && t.states[j].token == k
    {
      var j :| j in s.states && s.states[j].token == k;
      assert t.states[j].token == k;
    }
  }

  lemma OwnersExtend(s: Service, t: Service, i: nat)
    requires i in s.states && HeldBy(s, i) && i in t.states && t.states[i].closed == s.states[i].closed
    requires forall h :: h in s.entities ==> h in t.entities && t.entities[h] == s.entities[h]
    requires forall f :: f in s.frames && s.frames[f].Releasing? ==> f in t.frames && t.frames[f] == s.frames[f]
    ensures HeldBy(t, i)
  {
    if s.states[i].closed {
      var f :| f in s.frames && s.frames[f].Releasing? && i in s.frames[f].pending;
      assert f in t.frames && t.frames[f].Releasing? && i in t.frames[f].pending;
    } else {
      var h :| h in s.entities && s.entities[h].state == i && s.entities[h].builder;
      assert h in t.entities && t.entities[h].state == i;
    }
  }

  lemma CreateBeginTidy(s: Service, f: nat, p: nat)
    requires Tidy(s) && f !in s.frames
    ensures Tidy(Apply(s, CreateBegin(f, p)))
  {
    assert s.next !in s.states && s.next !in s.entities;
  }

  /** Nobody loses an owner when handles, constructions and frames are only added. */
  lemma HeldExtends(s: Service, t: Service)
    requires Held(s) && forall i :: i in t.states && t.states[i].token != 0 ==> i in s.states && SameHold(t.states[i], s.states[i])
    requires forall h :: h in s.entities ==> h in t.entities && t.entities[h] == s.entities[h]
    requires forall f :: f in s.frames && s.frames[f].Releasing? ==> f in t.frames && t.frames[f] == s.frames[f]
    ensures Held(t)
  {
    forall i | i in t.states && t.states[i].token != 0
      ensures HeldBy(t, i)
    {
      assert HeldBy(s, i);
      OwnersExtend(s, t, i);
    }
  }

  predicate SameHold(x: Construction, y: Construction) {
    x.token == y.token && x.closed == y.closed
  }

  lemma CreateBeginSafe(s: Service, f: nat, p: nat)
    requires Safe(s) && f !in s.frames
    ensures Safe(Apply(s, CreateBegin(f, p)))
  {
    var t := Apply(s, CreateBegin(f, p));
    assert s.next !in s.states && s.next !in s.entities;
    CreateBeginTidy(s, f, p);
    StatesExtend(s, t);
    HeldExtends(s, t);
  }

  lemma MadeTidy(s: Service, f: nat, token: nat)
    requires Tidy(s) && f in s.frames && s.frames[f].Creating?
    ensures Tidy(Made(s, f, token))
  {
  }

  lemma MadeTokens(s: Service, f: nat, token: nat)
    requires Tidy(s) && Accounted(s) && Single(s) && f in s.frames && s.frames[f].Creating?
    requires token == 0 || token !in s.issued
    ensures Accounted(Made(s, f, token)) && Single(Made(s, f, token))
  {
    var t := Made(s, f, token);
    var i := s.frames[f].state;
    assert CreationOpen(s, s.frames[f]);
    forall k | k in t.issued && k !in t.cancelled && k !in t.consumed
      ensures exists j :: j in t.states && t.states[j].token == k
    {
      if k == token {
        assert t.states[i].token == k;
      } else {
        var j :| j in s.states && s.states[j].token == k;
        assert t.states[j].token == k;
      }
    }
  }

  lemma HeldWithout(s: Service, t: Service, i: nat, k: nat)
    requires k in s.states && k in t.states && HeldBy(s, k) && t.states[k].closed == s.states[k].closed && k != i
    requires forall h :: h in s.entities && s.entities[h].state != i ==> h in t.entities && t.entities[h] == s.entities[h]
    requires forall g :: g in s.frames && s.frames[g].Releasing? ==> g in t.frames && t.frames[g] == s.frames[g]
    ensures HeldBy(t, k)
  {
    if s.states[k].closed {
      var g :| g in s.frames && s.frames[g].Releasing? && k in s.frames[g].pending;
      assert g in t.frames && t.frames[g].Releasing? && k in t.frames[g].pending;
    } else {
      var h :| h in s.entities && s.entities[h].state == k && s.entities[h].builder;
      assert h in t.entities && t.entities[h].state == k;
    }
  }

  lemma WithoutTidy(s: Service, h: nat)
    requires Tidy(s)
    ensures Tidy(WithoutHandle(s, h))
  {
  }

  lemma CreateEndSafe(s: Service, f: nat, token: nat, accepted: bool)
    requires Safe(s) && Enabled(s, CreateEnd(f, token, accepted))
    ensures Safe(Apply(s, CreateEnd(f, token, accepted)))
  {
    var i, h := s.frames[f].state, s.frames[f].handle;
    var made := Made(s, f, token);
    assert CreationOpen(s, s.frames[f]);
    MadeTidy(s, f, token);
    MadeTokens(s, f, token);
    forall k | k in made.states && k != i && made.states[k].token != 0
      ensures HeldBy(made, k) && HeldBy(WithoutHandle(made, h), k)
    {
      assert HeldBy(s, k);
      HeldWithout(s, made, i, k);
      HeldWithout(s, WithoutHandle(made, h), i, k);
    }
    if accepted {
      assert h in made.entities && made.entities[h].state == i && made.entities[h].builder;
      assert HasBuilder(made.entities, i);
    } else {
      WithoutTidy(made, h);
      CancelSafe(WithoutHandle(made, h), i);
    }
  }

  // ---- working on a construction ----

  lemma BegunSafe(s: Service, f: nat, h: nat, x: Frame)
    requires Safe(s) && f !in s.frames && Workable(s, h)
    requires x == Changing(s.entities[h].state) || x == Spawning(s.entities[h].state, s.states[s.entities[h].state].token)
    ensures Safe(Begun(s, f, h, x))
  {
    var t := Begun(s, f, h, x);
    BegunTidy(s, f, h, x);
    StatesExtend(s, t);
    HeldExtends(s, t);
  }

  lemma BegunTidy(s: Service, f: nat, h: nat, x: Frame)
    requires Tidy(s) && f !in s.frames && Workable(s, h)
    requires x == Changing(s.entities[h].state) || x == Spawning(s.entities[h].state, s.states[s.entities[h].state].token)
    ensures Tidy(Begun(s, f, h, x))
  {
  }

  lemma SpawnEndTidy(s: Service, f: nat, dispatched: bool)
    requires Tidy(s) && Enabled(s, SpawnEnd(f, dispatched))
    ensures Tidy(Apply(s, SpawnEnd(f, dispatched)))
  {
  }

  lemma SpawnEndSafe(s: Service, f: nat, dispatched: bool)
    requires Safe(s) && Enabled(s, SpawnEnd(f, dispatched))
    ensures Safe(Apply(s, SpawnEnd(f, dispatched)))
  {
    var t := Apply(s, SpawnEnd(f, dispatched));
    var i := s.frames[f].state;
    SpawnEndTidy(s, f, dispatched);
    assert SpawnOpen(s, s.frames[f]);
    forall k | k in t.issued && k !in t.cancelled && k !in t.consumed
      ensures exists j :: j in t.states && t.states[j].token == k
    {
      var j :| j in s.states && s.states[j].token == k;
      assert t.states[j].token == k;
    }
    HeldExtends(s, t);
  }

  lemma ChangeEndSafe(s: Service, f: nat)
    requires Safe(s) && Enabled(s, ChangeEnd(f))
    ensures Safe(Apply(s, ChangeEnd(f)))
  {
    var t := Apply(s, ChangeEnd(f));
    ChangeEndTidy(s, f);
    StatesExtend(s, t);
    HeldExtends(s, t);
  }

  lemma ChangeEndTidy(s: Service, f: nat)
    requires Tidy(s) && Enabled(s, ChangeEnd(f))
    ensures Tidy(Apply(s, ChangeEnd(f)))
  {
  }

  lemma ObserveSafe(s: Service, p: nat, h: nat)
    requires Safe(s) && Enabled(s, Observe(p, h))
    ensures Safe(Apply(s, Observe(p, h)))
  {
    var t := Apply(s, Observe(p, h));
    assert s.next !in s.entities;
    ObserveTidy(s, p, h);
    StatesExtend(s, t);
    HeldExtends(s, t);
  }

  lemma ObserveTidy(s: Service, p: nat, h: nat)
    requires Tidy(s) && Enabled(s, Observe(p, h))
    ensures Tidy(Apply(s, Observe(p, h)))
  {
    assert s.next !in s.entities;
  }

  // ---- releasing ----

  lemma ReleaseEntitySafe(s: Service, p: nat, h: nat)
    requires Safe(s) && Enabled(s, ReleaseEntity(p, h))
    ensures Safe(Apply(s, ReleaseEntity(p, h)))
  {
    var t := WithoutHandle(s, h);
    var i := s.entities[h].state;
    WithoutTidy(s, h);
    if s.entities[h].builder {
      forall k | k in s.states && k != i && s.states[k].token != 0
        ensures HeldBy(t, k)
      {
        assert HeldBy(s, k);
        HeldWithout(s, t, i, k);
      }
      if Pending(s.states[i]) {
        CancelSafe(t, i);
      }
    } else {
      forall k | k in s.states && s.states[k].token != 0
        ensures HeldBy(t, k)
      {
        assert HeldBy(s, k);
        ObserverLeaves(s, h, k);
      }
    }
  }

  lemma ObserverLeaves(s: Service, h: nat, k: nat)
    requires h in s.entities && !s.entities[h].builder && k in s.states && HeldBy(s, k)
    ensures HeldBy(WithoutHandle(s, h), k)
  {
    if !s.states[k].closed {
      var g :| g in s.entities && s.entities[g].state == k && s.entities[g].builder;
      assert g in WithoutHandle(s, h).entities;
    }
  }

  lemma ReleaseBeginTidy(s: Service, f: nat, everyone: bool, p: nat)
    requires Tidy(s) && f !in s.frames
    ensures Tidy(Apply(s, ReleaseBegin(f, everyone, p)))
  {
  }

  lemma ReleaseBeginHeld(s: Service, f: nat, everyone: bool, p: nat, k: nat)
    requires f !in s.frames && k in s.states && s.states[k].token != 0 && HeldBy(s, k)
    ensures var t := Apply(s, ReleaseBegin(f, everyone, p)); k in t.states && HeldBy(t, k)
  {
    var t := Apply(s, ReleaseBegin(f, everyone, p));
    if k in ToCancel(s, everyone, p) {
      assert t.frames[f].Releasing? && k in t.frames[f].pending;
    } else if s.states[k].closed {
      var g :| g in s.frames && s.frames[g].Releasing? && k in s.frames[g].pending;
      assert g in t.frames && t.frames[g].Releasing? && k in t.frames[g].pending;
    } else {
      var h :| h in s.entities && s.entities[h].state == k && s.entities[h].builder;
      assert !Hit(s.entities[h], everyone, p);
      assert h in t.entities && t.entities[h].state == k;
    }
  }

  lemma ReleaseBeginSafe(s: Service, f: nat, everyone: bool, p: nat)
    requires Safe(s) && f !in s.frames
    ensures Safe(Apply(s, ReleaseBegin(f, everyone, p)))
  {
    var t := Apply(s, ReleaseBegin(f, everyone, p));
    ReleaseBeginTidy(s, f, everyone, p);
    StatesExtend(s, t);
    forall k | k in t.states && t.states[k].token != 0
      ensures HeldBy(t, k)
    {
      assert HeldBy(s, k);
      ReleaseBeginHeld(s, f, everyone, p, k);
    }
  }

  /** One frame of pending constructions moves on or ends. */
  lemma FrameTidy(s: Service, t: Service, f: nat)
    requires Tidy(s) && t.states == s.states && t.entities == s.entities && t.next == s.next
    requires forall g :: g in t.frames && (t.frames[g].Creating? || t.frames[g].Spawning?) ==> g in s.frames && t.frames[g] == s.frames[g]
    ensures Tidy(t)
  {
  }

  lemma ReleaseNextSafe(s: Service, f: nat)
    requires Safe(s) && Enabled(s, ReleaseNext(f))
    ensures Safe(Apply(s, ReleaseNext(f)))
  {
    var pending := s.frames[f].pending;
    var t := s.(frames := s.frames[f := Releasing(pending[1..])]);
    FrameTidy(s, t, f);
    StatesExtend(s, t);
    forall k | k in t.states && k != pending[0] && t.states[k].token != 0
      ensures HeldBy(t, k)
    {
      assert HeldBy(s, k);
      if s.states[k].closed {
        var g :| g in s.frames && s.frames[g].Releasing? && k in s.frames[g].pending;
        assert g == f ==> k in pending[1..];
        assert g in t.frames && t.frames[g].Releasing? && k in t.frames[g].pending;
      }
    }
    CancelSafe(t, pending[0]);
  }

  lemma PruneNextSafe(s: Service, f: nat, missing: bool)
    requires Safe(s) && Enabled(s, PruneNext(f, missing))
    ensures Safe(Apply(s, PruneNext(f, missing)))
  {
    var pending := s.frames[f].pending;
    var t := s.(frames := s.frames[f := Pruning(pending[1..])]);
    FrameTidy(s, t, f);
    StatesExtend(s, t);
    HeldExtends(s, t);
    if missing {
      CancelSafe(t, pending[0]);
    }
  }

  lemma FrameEndSafe(s: Service, step: Step)
    requires Safe(s) && Enabled(s, step) && (step.ReleaseEnd? || step.PruneEnd? || step.PruneBegin?)
    ensures Safe(Apply(s, step))
  {
    var t := Apply(s, step);
    FrameTidy(s, t, step.f);
    StatesExtend(s, t);
    forall k | k in t.states && t.states[k].token != 0
      ensures HeldBy(t, k)
    {
      assert HeldBy(s, k);
      if s.states[k].closed {
        var g :| g in s.frames && s.frames[g].Releasing? && k in s.frames[g].pending;
        assert g in t.frames && t.frames[g].Releasing? && k in t.frames[g].pending;
      }
    }
  }

  // ---- every step, every run ----

  lemma StepSafe(s: Service, step: Step)
    requires Safe(s) && Enabled(s, step)
    ensures Safe(Apply(s, step))
  {
    match step
    case CreateBegin(f, p) => CreateBeginSafe(s, f, p);
    case CreateEnd(f, token, accepted) => CreateEndSafe(s, f, token, accepted);
    case SpawnBegin(f, h) => BegunSafe(s, f, h, Spawning(s.entities[h].state, s.states[s.entities[h].state].token));
    case SpawnEnd(f, dispatched) => SpawnEndSafe(s, f, dispatched);
    case ChangeBegin(f, h) => BegunSafe(s, f, h, Changing(s.entities[h].state));
    case ChangeEnd(f) => ChangeEndSafe(s, f);
    case Observe(p, h) => ObserveSafe(s, p, h);
    case ReleaseEntity(p, h) => ReleaseEntitySafe(s, p, h);
    case ReleaseBegin(f, everyone, p) => ReleaseBeginSafe(s, f, everyone, p);
    case ReleaseNext(f) => ReleaseNextSafe(s, f);
    case ReleaseEnd(f) => FrameEndSafe(s, step);
    case PruneBegin(f, pending) => FrameEndSafe(s, step);
    case PruneNext(f, missing) => PruneNextSafe(s, f, missing);
    case PruneEnd(f) => FrameEndSafe(s, step);
  }

  ghost predicate Legal(s: Service, steps: seq<Step>)
    decreases |steps|
  {
    steps == [] || (Enabled(s, steps[0]) && Legal(Apply(s, steps[0]), steps[1..]))
  }

  ghost function After(s: Service, steps: seq<Step>): Service
    requires Legal(s, steps)
    decreases |steps|
  {
    if steps == [] then s else After(Apply(s, steps[0]), steps[1..])
  }

  lemma {:induction false} RunSafe(s: Service, steps: seq<Step>)
    requires Safe(s) && Legal(s, steps)
    ensures Safe(After(s, steps))
    decreases |steps|
  {
    if steps != [] {
      StepSafe(s, steps[0]);
      RunSafe(Apply(s, steps[0]), steps[1..]);
    }
  }

  /** No token is lost and none is cancelled twice. */
  lemma TokensNeverLeak(steps: seq<Step>, token: nat)
    requires Legal(Initial, steps) && token in After(Initial, steps).issued
    ensures var s := After(Initial, steps);
      || token in s.cancelled || token in s.consumed
      || exists i :: i in s.states && s.states[i].token == token && HeldBy(s, i)
    ensures multiset(After(Initial, steps).cancelled)[token] <= 1
  {
    RunSafe(Initial, steps);
    var s := After(Initial, steps);
    DistinctOnce(s.cancelled, token);
    if token !in s.cancelled && token !in s.consumed {
      var i :| i in s.states && s.states[i].token == token;
      assert HeldBy(s, i);
    }
  }

  lemma {:induction false} DistinctOnce(q: seq<nat>, x: nat)
    requires forall m, n :: 0 <= m < n < |q| ==> q[m] != q[n]
    ensures multiset(q)[x] <= 1
  {
    if q != [] {
      DistinctOnce(q[1..], x);
      assert q == [q[0]] + q[1..];
      assert q[0] == x ==> x !in q[1..];
    }
  }
}
