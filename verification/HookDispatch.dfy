/**
  What one call of a hooked function does, written as a re-entrant interpreter.

  A plugin callback is an oracle that may write its frame and may, any number of times up to a
  budget, ask the host to call the original, to recall, or to call another hooked function; the
  type `W` is whatever the plugins and the originals keep between calls. Every nested dispatch is
  interpreted by the same functions, with one slot less of the 64-entry target stack.
 */
module HookDispatch {
  import opened Options

  const MAX_TARGET_DEPTH: nat := 64

  datatype Value = Value(kind: nat, reserved: nat, bits: int)
  datatype Action = Continue | Override | Supersede | Invalid
  datatype Phase = Pre | Post

  /** The record handed to a callback. `called` and `recalled` are its two flag bits. */
  datatype Frame = Frame(phase: Phase, recalled: bool, called: bool, args: seq<Value>, result: Value)

  datatype Reply = Ok | Returned(value: Value) | NotReady | Unsupported | AlreadyExists | Busy
  datatype Control = CallOriginal | Recall | Reenter(target: nat, args: seq<Value>)
  /** `own` says whether the request names the calling plugin and the frame it was given. */
  datatype Next = Done(action: Action) | Ask(own: bool, control: Control)
  datatype Move<+W> = Move(args: seq<Value>, result: Value, recalled: bool, next: Next, world: W)

  datatype Callback<!W> = Callback(
    handle: nat, owner: nat, priority: int, sequence: nat, pre: bool, post: bool, enabled: bool,
    budget: nat, body: (nat, Frame, Reply, W) -> Move<W>)

  datatype Target<!W> = Target(
    kinds: seq<nat>, ret: nat, closure: bool, callbacks: seq<Callback<W>>,
    original: (seq<Value>, W) -> (int, W))

  /** One visible call: a callback entered with this frame, or the original. */
  datatype Event = Entered(handle: nat, phase: Phase, args: seq<Value>, result: Value, called: bool)
                 | Original(args: seq<Value>, value: Value)

  /**
    What one dispatch decided in its PRE part, in order; a recall nests the dispatch it made. `args` is what
    the callback left in its frame; `found` and `left` are the RECALLED flag it found and left there.
   */
  datatype Entry = Ran(implicit: bool, value: Value)
                 | Recalled(inner: seq<Entry>, value: Value)
                 | Took(handle: nat, action: Action, value: Value, args: seq<Value>, found: bool, left: bool)

  /** The locals of one dispatch. `flag` is the frame's RECALLED bit. */
  datatype Run<+W> = Run(
    args: seq<Value>, result: Value, called: bool, overridden: bool, superseded: bool, recalled: bool,
    flag: bool, world: W, trace: seq<Event>, ledger: seq<Entry>, posts: seq<Entry>)

  datatype Seed = Seed(from: nat, overridden: Option<Value>)

  datatype Outcome<+W> = Outcome(
    value: Value, world: W, trace: seq<Event>, ledger: seq<Entry>, posts: seq<Entry>)

  // ---- values ----

  predicate Legal(v: Value, kind: nat) {
    v.kind == kind && v.reserved == 0
  }

  function Zero(kind: nat): Value {
    Value(kind, 0, 0)
  }

  /** What a native call passes on: the raw bits, read with the prototype's types. */
  function Retype(kinds: seq<nat>, args: seq<Value>): (r: seq<Value>)
    ensures |r| == |kinds|
  {
    seq(|kinds|, i requires 0 <= i < |kinds| => Value(kinds[i], 0, if i < |args| then args[i].bits else 0))
  }

  /** A callback writes into the argument array it was given; it cannot change its length. */
  function Written(before: seq<Value>, written: seq<Value>): (r: seq<Value>)
    ensures |r| == |before|
  {
    seq(|before|, i requires 0 <= i < |before| => if i < |written| then written[i] else before[i])
  }

  function CheckedArgs(kinds: seq<nat>, args: seq<Value>, before: seq<Value>): (r: seq<Value>)
    requires |args| == |before| == |kinds|
    ensures |r| == |kinds|
  {
    seq(|kinds|, i requires 0 <= i < |kinds| => if Legal(args[i], kinds[i]) then args[i] else before[i])
  }

  // ---- callback order ----

  predicate Before<W>(a: Callback<W>, b: Callback<W>) {
    a.priority > b.priority || (a.priority == b.priority && a.sequence < b.sequence)
  }

  function Insert<W>(c: Callback<W>, cs: seq<Callback<W>>): (r: seq<Callback<W>>)
    ensures |r| == |cs| + 1
  {
    if cs == [] || !Before(cs[0], c) then [c] + cs else [cs[0]] + Insert(c, cs[1..])
  }

  function Sorted<W>(cs: seq<Callback<W>>): (r: seq<Callback<W>>)
    ensures |r| == |cs|
  {
    if cs == [] then [] else Insert(cs[0], Sorted(cs[1..]))
  }

  function StartAfter<W>(cs: seq<Callback<W>>, handle: nat): (n: nat)
    ensures n <= |cs|
  {
    if cs == [] then 0
    else if cs[0].handle == handle then 1
    else 1 + StartAfter(cs[1..], handle)
  }

  // ---- the interpreter ----

  function FrameOf<W>(phase: Phase, run: Run<W>): Frame {
    Frame(phase, run.flag, run.called, run.args, run.result)
  }

  function Start<W>(t: Target<W>, seed: Option<Seed>, native: seq<Value>, world: W, trace: seq<Event>): (r: Run<W>)
    ensures |r.args| == |t.kinds|
  {
    var overridden := seed.Some? && seed.value.overridden.Some?;
    Run(Retype(t.kinds, native), if overridden then seed.value.overridden.value else Zero(t.ret),
        false, overridden, false, false, seed.Some?, world, trace, [], [])
  }

  function RunOriginal<W>(t: Target<W>, args: seq<Value>, world: W): (Value, W) {
    var (bits, after) := t.original(Retype(t.kinds, args), world);
    (Value(t.ret, 0, bits), after)
  }

  function Dispatch<W>(env: seq<Target<W>>, t: Target<W>, seed: Option<Seed>, native: seq<Value>,
                       room: nat, world: W, trace: seq<Event>): Outcome<W>
    decreases room, 0, 0
  {
    var run := Start(t, seed, native, world, trace);
    if room == 0 then
      var (v, after) := RunOriginal(t, run.args, world);
      Outcome(v, after, trace + [Original(Retype(t.kinds, run.args), v)], [Ran(true, v)], [])
    else
      var cs := Sorted(t.callbacks);
      var start := if seed.Some? then StartAfter(cs, seed.value.from) else 0;
      var last := Rest(env, t, cs, start, run, room - 1);
      Outcome(last.result, last.world, last.trace, last.ledger, last.posts)
  }

  /** Everything from PRE callback `i` to the end of the dispatch. */
  function Rest<W>(env: seq<Target<W>>, t: Target<W>, cs: seq<Callback<W>>, i: nat, run: Run<W>, room: nat): (r: Run<W>)
    requires i <= |cs| && |run.args| == |t.kinds|
    ensures |r.args| == |t.kinds|
    decreases room, 4, 0
  {
    var before := PreLoop(env, t, cs, i, run, room);
    if before.recalled then before else PostLoop(env, t, cs, |cs|, Implicit(t, before), room)
  }

  function PreLoop<W>(env: seq<Target<W>>, t: Target<W>, cs: seq<Callback<W>>, i: nat, run: Run<W>,
        room: nat): (r: Run<W>)
    requires i <= |cs| && |run.args| == |t.kinds|
    ensures |r.args| == |t.kinds|
    decreases room, 3, |cs| - i
  {
    if i == |cs| then run
    else if !cs[i].pre then PreLoop(env, t, cs, i + 1, run, room)
    else
      var next := PreStep(env, t, cs[i], run, room);
      if next.recalled then next else PreLoop(env, t, cs, i + 1, next, room)
  }

  function PreStep<W>(env: seq<Target<W>>, t: Target<W>, c: Callback<W>, run: Run<W>, room: nat): (r: Run<W>)
    requires |run.args| == |t.kinds|
    ensures |r.args| == |t.kinds|
    decreases room, 2, 0
  {
    var (action, frame, after) := Invoke(env, t, c, FrameOf(Pre, run), run, room);
    SettlePre(t, c, run, action, frame, after)
  }

  /** Frame validation and the action table of the PRE phase. */
  function SettlePre<W>(t: Target<W>, c: Callback<W>, before: Run<W>, action: Action, frame: Frame,
        after: Run<W>): (r: Run<W>)
    requires |before.args| == |t.kinds| == |frame.args|
    ensures |r.args| == |t.kinds|
  {
    var explicit := !before.called && after.called;
    var written := if Legal(frame.result, t.ret) then frame.result else before.result;
    var decided := action == Supersede || (action == Override && !after.superseded);
    after.(
      args := if action == Invalid && !explicit then before.args else CheckedArgs(t.kinds, frame.args, before.args),
      result := if decided then written else if action != Override && explicit then after.result else before.result,
      overridden := after.overridden || decided,
      superseded := after.superseded || action == Supersede,
      flag := frame.recalled,
      ledger := after.ledger + [Took(c.handle, action, written, frame.args, FrameOf(Pre, before).recalled, frame.recalled)])
  }

  function Implicit<W>(t: Target<W>, run: Run<W>): (r: Run<W>)
    ensures |r.args| == |run.args|
  {
    if run.superseded || run.called then run
    else
      var (v, after) := RunOriginal(t, run.args, run.world);
      run.(called := true, world := after, result := if run.overridden then run.result else v,
           trace := run.trace + [Original(Retype(t.kinds, run.args), v)],
           ledger := run.ledger + [Ran(true, v)])
  }

  /** POST callbacks `n-1`, ..., `0`. */
  function PostLoop<W>(env: seq<Target<W>>, t: Target<W>, cs: seq<Callback<W>>, n: nat, run: Run<W>,
        room: nat): (r: Run<W>)
    requires n <= |cs| && |run.args| == |t.kinds|
    ensures |r.args| == |t.kinds|
    decreases room, 3, n
  {
    if n == 0 then run
    else if !cs[n - 1].post then PostLoop(env, t, cs, n - 1, run, room)
    else PostLoop(env, t, cs, n - 1, PostStep(env, t, cs[n - 1], run, room), room)
  }

  function PostStep<W>(env: seq<Target<W>>, t: Target<W>, c: Callback<W>, run: Run<W>, room: nat): (r: Run<W>)
    requires |run.args| == |t.kinds|
    ensures |r.args| == |t.kinds|
    decreases room, 2, 0
  {
    var (action, frame, after) := Invoke(env, t, c, FrameOf(Post, run), run, room);
    SettlePost(t, c, run, action, frame, after)
  }

  function SettlePost<W>(t: Target<W>, c: Callback<W>, before: Run<W>, action: Action, frame: Frame,
        after: Run<W>): (r: Run<W>)
    requires |before.args| == |t.kinds| == |frame.args|
    ensures |r.args| == |t.kinds|
  {
    var written := if Legal(frame.result, t.ret) then frame.result else before.result;
    after.(
      args := if action == Override || action == Continue then CheckedArgs(t.kinds, frame.args, before.args) else before.args,
      result := if action == Override then written else before.result,
      flag := frame.recalled,
      posts := after.posts + [Took(c.handle, action, written, frame.args, FrameOf(Post, before).recalled, frame.recalled)])
  }

  /** A disabled callback is not entered and counts as CONTINUE. */
  function Invoke<W>(env: seq<Target<W>>, t: Target<W>, c: Callback<W>, frame: Frame, run: Run<W>,
        room: nat): (r: (Action, Frame, Run<W>))
    ensures |r.1.args| == |frame.args| && r.1.phase == frame.phase
    decreases room, 1, c.budget + 2
  {
    if !c.enabled then (Continue, frame, run)
    else
      var entered := Entered(c.handle, frame.phase, frame.args, frame.result, frame.called);
      Body(env, t, c, 0, Ok, frame, run.(trace := run.trace + [entered]), room)
  }

  function Body<W>(env: seq<Target<W>>, t: Target<W>, c: Callback<W>, k: nat, reply: Reply, frame: Frame, run: Run<W>,
        room: nat): (r: (Action, Frame, Run<W>))
    requires k <= c.budget
    ensures |r.1.args| == |frame.args| && r.1.phase == frame.phase
    decreases room, 1, c.budget + 1 - k
  {
    var moved := Moved(c, k, reply, frame, run);
    match moved.0
    case Done(action) => (action, moved.1, moved.2)
    case Ask(own, control) =>
      if k == c.budget then (Continue, moved.1, moved.2)
      else
        var served := Serve(env, t, c, own, control, moved.1, moved.2, room);
        Body(env, t, c, k + 1, served.0, served.1, served.2, room)
  }

  /** One move of a callback: what it wrote into its frame, and what it wants next. */
  function Moved<W>(c: Callback<W>, k: nat, reply: Reply, frame: Frame, run: Run<W>): (r: (Next, Frame, Run<W>))
    ensures |r.1.args| == |frame.args| && r.1.phase == frame.phase
  {
    var m := c.body(k, frame, reply, run.world);
    (m.next, frame.(args := Written(frame.args, m.args), result := m.result, recalled := m.recalled), run.(world := m.world))
  }

  /** An explicit call of the original, refused once the original ran or was superseded. */
  function ServeOriginal<W>(t: Target<W>, own: bool, frame: Frame, run: Run<W>): (r: (Reply, Frame, Run<W>))
    ensures |r.1.args| == |frame.args| && r.1.phase == frame.phase
  {
    if !own then (NotReady, frame, run)
    else if frame.phase == Post then (Unsupported, frame, run)
    else if run.called || run.superseded then (AlreadyExists, frame, run)
    else
      var (v, after) := RunOriginal(t, frame.args, run.world);
      (Ok, frame.(result := v, called := true),
       run.(result := v, called := true, world := after,
            trace := run.trace + [Original(Retype(t.kinds, frame.args), v)],
            ledger := run.ledger + [Ran(false, v)]))
  }

  /** The three requests a callback can make of the host. */
  function Serve<W>(env: seq<Target<W>>, t: Target<W>, c: Callback<W>, own: bool, control: Control, frame: Frame,
        run: Run<W>, room: nat): (r: (Reply, Frame, Run<W>))
    ensures |r.1.args| == |frame.args| && r.1.phase == frame.phase
    decreases room, 1, 0
  {
    match control
    case Reenter(target, args) =>
      if target >= |env| then (NotReady, frame, run)
      else
        var out := Dispatch(env, env[target], None, args, room, run.world, run.trace);
        (Returned(out.value), frame, run.(world := out.world, trace := out.trace))
    case CallOriginal => ServeOriginal(t, own, frame, run)
    case Recall =>
      var refusal := RecallRefusal(t, own, frame, run, room);
      if refusal.Some? then (refusal.value, frame, run)
      else ServeRecalled(frame, run, Dispatch(env, t, Some(RecallSeed(c, run)), frame.args, room, run.world, run.trace))
  }

  function RecallRefusal<W>(t: Target<W>, own: bool, frame: Frame, run: Run<W>, room: nat): Option<Reply> {
    if !own then Some(NotReady)
    else if frame.phase == Post || !t.closure then Some(Unsupported)
    else if run.called || run.superseded then Some(AlreadyExists)
    else if room == 0 then Some(Busy)
    else None
  }

  /** A recall starts after the calling callback and hands on an overridden result. */
  function RecallSeed<W>(c: Callback<W>, run: Run<W>): Seed {
    Seed(c.handle, if run.overridden then Some(run.result) else None)
  }

  function ServeRecalled<W>(frame: Frame, run: Run<W>, out: Outcome<W>): (r: (Reply, Frame, Run<W>))
    ensures |r.1.args| == |frame.args| && r.1.phase == frame.phase
  {
    (Ok, frame.(result := out.value, called := true, recalled := true),
     run.(result := out.value, called := true, recalled := true, world := out.world,
          trace := out.trace, ledger := run.ledger + [Recalled(out.ledger, out.value)]))
  }

  // ---- one unfolding of each loop ----

  lemma PostLoopUnfolds<W>(env: seq<Target<W>>, t: Target<W>, cs: seq<Callback<W>>, n: nat, run: Run<W>, room: nat,
        next: Run<W>)
    requires 0 < n <= |cs| && |run.args| == |t.kinds|
    requires next == if cs[n - 1].post then PostStep(env, t, cs[n - 1], run, room) else run
    ensures |next.args| == |t.kinds|
    ensures PostLoop(env, t, cs, n, run, room) == PostLoop(env, t, cs, n - 1, next, room)
  {
  }

  lemma PreLoopUnfolds<W>(env: seq<Target<W>>, t: Target<W>, cs: seq<Callback<W>>, i: nat, run: Run<W>, room: nat,
        next: Run<W>)
    requires i < |cs| && |run.args| == |t.kinds| && !run.recalled
    requires next == if cs[i].pre then PreStep(env, t, cs[i], run, room) else run
    ensures |next.args| == |t.kinds|
    ensures PreLoop(env, t, cs, i, run, room) == if next.recalled then next else PreLoop(env, t, cs, i + 1, next, room)
  {
  }

  /** A fresh dispatch with room left is its callbacks' run, read off at the end. */
  lemma DispatchUnfolds<W>(env: seq<Target<W>>, t: Target<W>, seed: Option<Seed>, native: seq<Value>, room: nat,
        world: W, trace: seq<Event>, last: Run<W>)
    requires room > 0
    requires last == Rest(env, t, Sorted(t.callbacks), if seed.Some? then StartAfter(Sorted(t.callbacks), seed.value.from) else 0,
                          Start(t, seed, native, world, trace), room - 1)
    ensures Dispatch(env, t, seed, native, room, world, trace) == Outcome(last.result, last.world, last.trace, last.ledger, last.posts)
  {
  }

  lemma BodyUnfolds<W>(env: seq<Target<W>>, t: Target<W>, c: Callback<W>, k: nat, reply: Reply, frame: Frame,
        run: Run<W>, room: nat)
    requires k <= c.budget
    ensures var moved := Moved(c, k, reply, frame, run);
      Body(env, t, c, k, reply, frame, run, room) ==
        if moved.0.Done? then (moved.0.action, moved.1, moved.2)
        else if k == c.budget then (Continue, moved.1, moved.2)
        else
          var served := Serve(env, t, c, moved.0.own, moved.0.control, moved.1, moved.2, room);
          Body(env, t, c, k + 1, served.0, served.1, served.2, room)
  {
  }
}
