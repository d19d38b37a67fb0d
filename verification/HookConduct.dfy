/**
  What a callback may do if a recall is to go unnoticed, followed move by move, and what two alike
  dispatches get from it.
 */
module HookConduct {
  import opened Options
  import opened HookDispatch

  // ---- calls of other hooked functions ----

  datatype Report<+W> = Report(value: Value, world: W, trace: seq<Event>)

  /** A call of a hooked function, as far as the caller, the plugins and the originals can tell. */
  function Reported<W>(env: seq<Target<W>>, t: nat, args: seq<Value>, room: nat, world: W, trace: seq<Event>): Report<W>
    requires t < |env|
  {
    var out := Dispatch(env, env[t], None, args, room, world, trace);
    Report(out.value, out.world, out.trace)
  }

  /**
    What calls of some of the hooked functions do: the answer depends on the arguments and the world,
    not on how many entries of the target stack are left, as long as there are `floor` of them.
   */
  datatype Known<!W> = Known(targets: iset<nat>, floor: nat, answer: (nat, seq<Value>, W, seq<Event>) -> Report<W>)

  ghost predicate Knows<W(!new)>(known: Known<W>, env: seq<Target<W>>) {
    && (forall t :: t in known.targets ==> t < |env|)
    && forall t, args, room, w, trace :: t in known.targets && room >= known.floor ==>
         Reported(env, t, args, room, w, trace) == known.answer(t, args, w, trace)
  }

  /** There is room for calls of the known functions, even `n` dispatches further down. */
  ghost predicate Enough<W>(known: Known<W>, room: nat, n: nat) {
    known.targets == iset{} || room >= known.floor + n
  }

  // ---- conduct ----

  ghost predicate LegalArgs(kinds: seq<nat>, args: seq<Value>) {
    |args| == |kinds| && forall i :: 0 <= i < |kinds| ==> Legal(args[i], kinds[i])
  }

  /** A request that does not recall: of the original, of a known hooked function, or one that names a wrong caller. */
  predicate Modest(targets: iset<nat>, next: Next) {
    next.Ask? ==>
      match next.control
      case CallOriginal => true
      case Recall => !next.own
      case Reenter(t, _) => t in targets
  }

  function Flagged(f: Frame, flag: bool): Frame {
    f.(recalled := flag)
  }

  function Unflagged<W>(m: Move<W>): Move<W> {
    m.(recalled := false)
  }

  /** But for the RECALLED flag it leaves, the callback's move does not depend on that flag. */
  ghost predicate Blind<W>(c: Callback<W>, k: nat, f: Frame, r: Reply, w: W) {
    Unflagged(c.body(k, Flagged(f, true), r, w)) == Unflagged(c.body(k, Flagged(f, false), r, w))
  }

  /** The frame a move leaves behind. */
  function Left<W>(f: Frame, m: Move<W>): (g: Frame)
    ensures |g.args| == |f.args| && g.phase == f.phase
  {
    f.(args := Written(f.args, m.args), result := m.result, recalled := m.recalled)
  }

  /** What a frame can be after the host served a modest request. */
  predicate Served(f: Frame, g: Frame) {
    g.phase == f.phase && g.args == f.args
  }

  /** Certain to be refused once a recall was asked for: `why` is what the plugin's own requests are then told. */
  predicate Hopeless(next: Next, why: Reply) {
    next.Ask? && (next.control == Recall || (next.control == CallOriginal && (!next.own || why == AlreadyExists)))
  }

  /** From here on the callback leaves its arguments and its state alone, asks in vain, and returns CONTINUE. */
  ghost predicate Quits<W>(c: Callback<W>, k: nat, f: Frame, r: Reply, w: W, why: Reply)
    requires k <= c.budget
    decreases c.budget - k
  {
    var m := c.body(k, f, r, w);
    && m.world == w && Written(f.args, m.args) == f.args
    && match m.next
       case Done(action) => action == Continue
       case Ask(own, _) =>
         k < c.budget ==> Hopeless(m.next, why) && Quits(c, k + 1, Left(f, m), if own then why else NotReady, w, why)
  }

  /** The callback asks to be recalled with legal arguments and quits, whether the host recalls or refuses. */
  ghost predicate Resigns<W(!new)>(kinds: seq<nat>, c: Callback<W>, k: nat, f: Frame, w: W)
    requires k <= c.budget
  {
    && LegalArgs(kinds, f.args)
    && (forall v, world :: Quits(c, k, RecalledFrame(f, v), Ok, world, AlreadyExists))
    && Quits(c, k, f, Unsupported, w, Unsupported) && Quits(c, k, f, AlreadyExists, w, AlreadyExists) && Quits(c, k, f, Busy, w, Busy)
  }

  /** The frame after a recall that was granted and returned `v`. */
  function RecalledFrame(f: Frame, v: Value): Frame {
    f.(result := v, called := true, recalled := true)
  }

  /**
    From its `k`-th move on, whatever the host answers: the callback makes modest requests, does not look
    at the RECALLED flag, and, if it may, asks to be recalled and quits.
   */
  ghost predicate Fair<W(!new)>(targets: iset<nat>, kinds: seq<nat>, c: Callback<W>, may: bool, k: nat, f: Frame,
        r: Reply, w: W)
    requires k <= c.budget
    decreases c.budget - k, 0
  {
    var m := c.body(k, f, r, w);
    && Blind(c, k, f, r, w)
    && (m.next.Ask? && k < c.budget ==>
          if m.next == Ask(true, Recall) then may && Resigns(kinds, c, k + 1, Left(f, m), m.world)
          else Modest(targets, m.next) && FairAfter(targets, kinds, c, may, k + 1, Left(f, m)))
  }

  /** Whatever the host's answer, and whatever a call changed. */
  ghost predicate FairAfter<W(!new)>(targets: iset<nat>, kinds: seq<nat>, c: Callback<W>, may: bool, k: nat, f: Frame)
    requires k <= c.budget
    decreases c.budget - k, 1
  {
    forall g, r, w :: Served(f, g) ==> Fair(targets, kinds, c, may, k, g, r, w)
  }

  /** A callback that is fair from its first move on, in PRE with legal arguments and in POST; it may recall in PRE only. */
  ghost predicate Conforms<W(!new)>(targets: iset<nat>, kinds: seq<nat>, c: Callback<W>, may: bool) {
    && (forall f: Frame, w :: f.phase == Pre && LegalArgs(kinds, f.args) ==> Fair(targets, kinds, c, may, 0, f, Ok, w))
    && (forall f: Frame, w :: f.phase == Post ==> Fair(targets, kinds, c, false, 0, f, Ok, w))
  }

  /** Never recalls. */
  ghost predicate Direct<W(!new)>(targets: iset<nat>, kinds: seq<nat>, c: Callback<W>) {
    Conforms(targets, kinds, c, false)
  }

  /** May recall, on some calls or all, after other requests or at once. */
  ghost predicate Recaller<W(!new)>(targets: iset<nat>, kinds: seq<nat>, c: Callback<W>) {
    Conforms(targets, kinds, c, true)
  }

  /** The same callback, simply continuing where it would ask to be recalled. */
  function Plain<W>(c: Callback<W>): Callback<W> {
    c.(body := (k: nat, f: Frame, r: Reply, w: W) => PlainMove(c.body(k, f, r, w)))
  }

  function PlainMove<W>(m: Move<W>): Move<W> {
    if m.next == Ask(true, Recall) then m.(next := Done(Continue)) else m
  }

  // ---- what can be told of a dispatch ----

  /** What the caller, the plugins and the originals can tell of a dispatch. */
  datatype Core<+W> = Core(args: seq<Value>, result: Value, called: bool, overridden: bool, superseded: bool, world: W, trace: seq<Event>)

  function CoreOf<W>(run: Run<W>): Core<W> {
    Core(run.args, run.result, run.called, run.overridden, run.superseded, run.world, run.trace)
  }

  predicate Alike<W(==)>(a: Run<W>, b: Run<W>) {
    CoreOf(a) == CoreOf(b)
  }

  predicate SameFrame(a: Frame, b: Frame) {
    a.phase == b.phase && a.called == b.called && a.args == b.args && a.result == b.result
  }

  ghost predicate SameTarget<W>(a: Target<W>, b: Target<W>) {
    a.kinds == b.kinds && a.ret == b.ret && a.original == b.original
  }

  /** Requests change the result only by running the original, and decide nothing. */
  predicate Quiet<W>(before: Core<W>, after: Core<W>) {
    && after.overridden == before.overridden && (before.called ==> after.called)
    && (before.called == after.called ==> after.result == before.result)
  }

  // ---- modest requests ----

  ghost function DirectServe<W>(known: Known<W>, kinds: seq<nat>, ret: nat, original: (seq<Value>, W) -> (int, W),
        own: bool, control: Control, frame: Frame, core: Core<W>): (r: (Reply, Frame, Core<W>))
    ensures Quiet(core, r.2)
  {
    if control.Reenter? then
      var report := known.answer(control.target, control.args, core.world, core.trace);
      (Returned(report.value), frame, core.(world := report.world, trace := report.trace))
    else if !own then (NotReady, frame, core)
    else if frame.phase == Post then (Unsupported, frame, core)
    else if core.called || core.superseded then (AlreadyExists, frame, core)
    else
      var (bits, after) := original(Retype(kinds, frame.args), core.world);
      var v := Value(ret, 0, bits);
      (Ok, frame.(result := v, called := true),
       core.(result := v, called := true, world := after, trace := core.trace + [Original(Retype(kinds, frame.args), v)]))
  }

  lemma ServeIsDirect<W(!new)>(known: Known<W>, env: seq<Target<W>>, t: Target<W>, c: Callback<W>, own: bool,
        control: Control, frame: Frame, run: Run<W>, room: nat)
    requires Modest(known.targets, Ask(own, control)) && Knows(known, env) && Enough(known, room, 0)
    ensures var (answer, f, r) := Serve(env, t, c, own, control, frame, run, room);
      (answer, f, CoreOf(r)) == DirectServe(known, t.kinds, t.ret, t.original, own, control, frame, CoreOf(run)) && r.recalled == run.recalled
  {
    if control.Reenter? {
      assert Reported(env, control.target, control.args, room, run.world, run.trace) ==
        known.answer(control.target, control.args, run.world, run.trace);
    }
  }

  lemma DirectServeAlike<W(!new)>(known: Known<W>, kinds: seq<nat>, ret: nat, original: (seq<Value>, W) -> (int, W),
        own: bool, control: Control, fA: Frame, fB: Frame, core: Core<W>)
    requires SameFrame(fA, fB)
    ensures var x, y := DirectServe(known, kinds, ret, original, own, control, fA, core), DirectServe(known, kinds, ret, original, own, control, fB, core);
      x.0 == y.0 && SameFrame(x.1, y.1) && Served(fA, x.1) && x.2 == y.2
  {
  }

  /** A modest request gets the same answer in two alike dispatches. */
  lemma ServedAlike<W(!new)>(known: Known<W>, envA: seq<Target<W>>, envB: seq<Target<W>>, a: Target<W>, b: Target<W>,
        c: Callback<W>, d: Callback<W>, next: Next, fA: Frame, fB: Frame, runA: Run<W>, runB: Run<W>, roomA: nat, roomB: nat)
    requires Knows(known, envA) && Knows(known, envB) && Enough(known, roomA, 0) && Enough(known, roomB, 0)
    requires next.Ask? && Modest(known.targets, next) && SameTarget(a, b) && SameFrame(fA, fB) && Alike(runA, runB)
    ensures var x := Serve(envA, a, c, next.own, next.control, fA, runA, roomA);
      var y := Serve(envB, b, d, next.own, next.control, fB, runB, roomB);
      && x.0 == y.0 && SameFrame(x.1, y.1) && Served(fA, x.1) && Alike(x.2, y.2)
      && x.2.recalled == runA.recalled && y.2.recalled == runB.recalled && Quiet(CoreOf(runA), CoreOf(x.2))
  {
    ServeIsDirect(known, envA, a, c, next.own, next.control, fA, runA, roomA);
    ServeIsDirect(known, envB, b, d, next.own, next.control, fB, runB, roomB);
    DirectServeAlike(known, a.kinds, a.ret, a.original, next.own, next.control, fA, fB, CoreOf(runA));
  }

  // ---- after a recall was asked for ----

  /** What the plugin's own requests are told in this state. */
  ghost predicate Told<W>(t: Target<W>, f: Frame, run: Run<W>, room: nat, why: Reply) {
    RecallRefusal(t, true, f, run, room) == Some(why) && (why == AlreadyExists ==> run.called || run.superseded)
  }

  lemma HopelessServed<W>(env: seq<Target<W>>, t: Target<W>, c: Callback<W>, next: Next, f: Frame, run: Run<W>,
        room: nat, why: Reply)
    requires f.phase == Pre && Told(t, f, run, room, why) && Hopeless(next, why)
    ensures Serve(env, t, c, next.own, next.control, f, run, room) == (if next.own then why else NotReady, f, run)
  {
  }

  /** A callback that quits changes nothing but the frame's result and flag. */
  lemma {:induction false} QuitsBody<W(!new)>(env: seq<Target<W>>, t: Target<W>, c: Callback<W>, k: nat, reply: Reply,
        f: Frame, run: Run<W>, room: nat, why: Reply)
    requires k <= c.budget && f.phase == Pre && Quits(c, k, f, reply, run.world, why) && Told(t, f, run, room, why)
    ensures var (action, g, after) := Body(env, t, c, k, reply, f, run, room);
      action == Continue && g.args == f.args && after == run
    decreases c.budget - k
  {
    var (next, g, r) := Moved(c, k, reply, f, run);
    BodyUnfolds(env, t, c, k, reply, f, run, room);
    assert r == run && g == Left(f, c.body(k, f, reply, run.world));
    if next.Ask? && k < c.budget {
      HopelessServed(env, t, c, next, g, r, room, why);
      QuitsBody(env, t, c, k + 1, if next.own then why else NotReady, g, r, room, why);
    }
  }
}
