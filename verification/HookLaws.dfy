/**
  Laws every dispatch obeys, whatever its callbacks and originals do: the original runs once or is
  silenced by a SUPERSEDE, the result is the last decision accepted, PRE runs in priority order and
  POST in exactly the opposite order.
 */
module HookLaws {
  import opened Options
  import opened HookDispatch

  // ---- reading a ledger ----

  datatype Fate = Undecided | RanFirst | Silenced

  /** How often the original ran, counting every nested recall. */
  function Runs(l: seq<Entry>): nat {
    if l == [] then 0
    else (match l[0] case Ran(_, _) => 1 case Recalled(inner, _) => Runs(inner) case Took(_, _, _, _, _, _) => 0) + Runs(l[1..])
  }

  /** Which came first anywhere in the recall chain: a run of the original or a SUPERSEDE. */
  function First(l: seq<Entry>): Fate {
    if l == [] then Undecided
    else
      var head := match l[0]
        case Ran(_, _) => RanFirst
        case Recalled(inner, _) => First(inner)
        case Took(_, action, _, _, _, _) => if action == Supersede then Silenced else Undecided;
      if head != Undecided then head else First(l[1..])
  }

  predicate Overriding(e: Entry) {
    e.Took? && (e.action == Override || e.action == Supersede)
  }

  predicate Superseding(e: Entry) {
    e.Took? && e.action == Supersede
  }

  predicate Calling(e: Entry) {
    e.Ran? || e.Recalled?
  }

  predicate Overrode(l: seq<Entry>) {
    exists d :: d in l && Overriding(d)
  }

  predicate Superseded(l: seq<Entry>) {
    exists d :: d in l && Superseding(d)
  }

  predicate Called(l: seq<Entry>) {
    exists d :: d in l && Calling(d)
  }

  /**
    Whether a decision counts, given what was decided before it: an OVERRIDE counts unless a
    SUPERSEDE came first, and an implicit original counts only if nobody overrode.
   */
  predicate Accepted(seeded: bool, earlier: seq<Entry>, e: Entry) {
    match e
    case Recalled(_, _) => true
    case Ran(implicit, _) => implicit ==> !seeded && !Overrode(earlier)
    case Took(_, action, _, _, _, _) => action == Supersede || (action == Override && !Superseded(earlier))
  }

  /** The last accepted decision, searched from the end. */
  function Verdict(seeded: bool, l: seq<Entry>): Option<Value> {
    if l == [] then None
    else
      var n := |l| - 1;
      if Accepted(seeded, l[..n], l[n]) then Some(l[n].value) else Verdict(seeded, l[..n])
  }

  function LastOverride(posts: seq<Entry>): Option<Value> {
    if posts == [] then None
    else
      var last := posts[|posts| - 1];
      if last.Took? && last.action == Override then Some(last.value) else LastOverride(posts[..|posts| - 1])
  }

  function Handles(l: seq<Entry>): seq<nat> {
    if l == [] then []
    else Handles(l[..|l| - 1]) + (if l[|l| - 1].Took? then [l[|l| - 1].handle] else [])
  }

  function PreHandles<W>(cs: seq<Callback<W>>): seq<nat> {
    if cs == [] then [] else (if cs[0].pre then [cs[0].handle] else []) + PreHandles(cs[1..])
  }

  /** A handle list ends early exactly at a callback that recalled. */
  ghost predicate Visited(seen: seq<nat>, all: seq<nat>, recalled: bool) {
    if recalled then seen != [] && seen <= all else seen == all
  }

  function PostHandles<W>(cs: seq<Callback<W>>): seq<nat> {
    if cs == [] then []
    else PostHandles(cs[..|cs| - 1]) + (if cs[|cs| - 1].post then [cs[|cs| - 1].handle] else [])
  }

  function Reversed(s: seq<nat>): seq<nat> {
    if s == [] then [] else [s[|s| - 1]] + Reversed(s[..|s| - 1])
  }

  // ---- ledgers grow at the end ----

  lemma {:induction false} RunsAppend(l: seq<Entry>, e: Entry)
    ensures Runs(l + [e]) == Runs(l) + Runs([e])
  {
    if l == [] {
      assert l + [e] == [e];
    } else {
      RunsAppend(l[1..], e);
      assert (l + [e])[1..] == l[1..] + [e];
    }
  }

  lemma {:induction false} FirstAppend(l: seq<Entry>, e: Entry)
    ensures First(l + [e]) == if First(l) != Undecided then First(l) else First([e])
  {
    if l == [] {
      assert l + [e] == [e];
    } else {
      FirstAppend(l[1..], e);
      assert (l + [e])[1..] == l[1..] + [e];
    }
  }

  lemma AppendFacts(seeded: bool, l: seq<Entry>, e: Entry)
    ensures Runs(l + [e]) == Runs(l) + Runs([e])
    ensures First(l + [e]) == if First(l) != Undecided then First(l) else First([e])
    ensures Verdict(seeded, l + [e]) == if Accepted(seeded, l, e) then Some(e.value) else Verdict(seeded, l)
    ensures Handles(l + [e]) == Handles(l) + (if e.Took? then [e.handle] else [])
    ensures Overrode(l + [e]) <==> Overrode(l) || Overriding(e)
    ensures Superseded(l + [e]) <==> Superseded(l) || Superseding(e)
    ensures Called(l + [e]) <==> Called(l) || Calling(e)
  {
    RunsAppend(l, e);
    FirstAppend(l, e);
    assert (l + [e])[..|l|] == l;
    assert e in l + [e];
    assert forall d :: d in l ==> d in l + [e];
  }

  // ---- what every point of a dispatch keeps ----

  /** The flags of a dispatch say what its ledger says, and its result is the ledger's verdict. */
  ghost predicate Kept<W>(seed: Option<Value>, zero: Value, run: Run<W>) {
    && run.posts == []
    && (run.recalled ==> run.called)
    && Tallied(seed, zero, run.ledger, run.called, run.superseded, run.overridden, run.result)
  }

  ghost predicate Tallied(seed: Option<Value>, zero: Value, l: seq<Entry>, called: bool, superseded: bool,
        overridden: bool, result: Value) {
    && (called <==> Called(l))
    && (superseded <==> Superseded(l))
    && (overridden <==> seed.Some? || Overrode(l))
    && Runs(l) == (if called && First(l) == RanFirst then 1 else 0)
    && (First(l) == Undecided <==> !called && !superseded)
    && (!called && superseded ==> First(l) == Silenced)
    && result == Verdict(seed.Some?, l).GetOr(seed.GetOr(zero))
  }

  /** A finished ledger. */
  ghost predicate Decided(seeded: bool, l: seq<Entry>) {
    && First(l) != Undecided
    && Runs(l) == (if First(l) == RanFirst then 1 else 0)
    && (!seeded ==> Verdict(false, l).Some?)
  }

  function SeedValue(seed: Option<Seed>): Option<Value> {
    if seed.Some? then seed.value.overridden else None
  }

  lemma {:induction false} DispatchKeeps<W>(env: seq<Target<W>>, t: Target<W>, seed: Option<Seed>, native: seq<Value>,
        room: nat, world: W, trace: seq<Event>)
    ensures Decided(SeedValue(seed).Some?, Dispatch(env, t, seed, native, room, world, trace).ledger)
    decreases room, 0, 0
  {
    var run := Start(t, seed, native, world, trace);
    if room == 0 {
      var (v, after) := RunOriginal(t, run.args, world);
      AppendFacts(SeedValue(seed).Some?, [], Ran(true, v));
      assert [] + [Ran(true, v)] == [Ran(true, v)];
    } else {
      var cs := Sorted(t.callbacks);
      var start := if seed.Some? then StartAfter(cs, seed.value.from) else 0;
      var pre := RestParts(SeedValue(seed), env, t, cs, start, run, room - 1);
    }
  }

  /** A dispatch is its PRE part, the original if still owed, and its POST part. */
  lemma {:induction false} RestParts<W>(seed: Option<Value>, env: seq<Target<W>>, t: Target<W>, cs: seq<Callback<W>>,
        i: nat, run: Run<W>, room: nat)
      returns (pre: Run<W>)
    requires i <= |cs| && |run.args| == |t.kinds|
    requires Kept(seed, Zero(t.ret), run)
    ensures pre == PreLoop(env, t, cs, i, run, room)
    ensures Kept(seed, Zero(t.ret), pre) && Kept(seed, Zero(t.ret), Implicit(t, pre))
    ensures var last := Rest(env, t, cs, i, run, room);
      && Decided(seed.Some?, last.ledger)
      && (if pre.recalled then last == pre && Implicit(t, pre) == pre
          else PostEnd(Implicit(t, pre).result, Implicit(t, pre), last))
    decreases room, 4, 0
  {
    PreLoopKeeps(seed, env, t, cs, i, run, room);
    pre := PreLoop(env, t, cs, i, run, room);
    ImplicitKeeps(seed, t, pre);
    if !pre.recalled {
      PostLoopKeeps(Implicit(t, pre).result, env, t, cs, |cs|, Implicit(t, pre), room);
    }
    KeptDecided(seed, Zero(t.ret), Implicit(t, pre));
  }

  lemma KeptDecided<W>(seed: Option<Value>, zero: Value, run: Run<W>)
    requires Kept(seed, zero, run) && (run.called || run.superseded)
    ensures Decided(seed.Some?, run.ledger)
  {
    if run.superseded {
      SupersededOverrode(run.ledger);
    }
    if seed.None? {
      VerdictExists(run.ledger);
    }
  }

  lemma {:induction false} PreLoopKeeps<W>(seed: Option<Value>, env: seq<Target<W>>, t: Target<W>,
        cs: seq<Callback<W>>, i: nat, run: Run<W>, room: nat)
    requires i <= |cs| && |run.args| == |t.kinds|
    requires Kept(seed, Zero(t.ret), run)
    ensures Kept(seed, Zero(t.ret), PreLoop(env, t, cs, i, run, room))
    decreases room, 3, |cs| - i
  {
    if i < |cs| {
      if cs[i].pre {
        PreStepKeeps(seed, env, t, cs[i], run, room);
        var next := PreStep(env, t, cs[i], run, room);
        if !next.recalled {
          PreLoopKeeps(seed, env, t, cs, i + 1, next, room);
        }
      } else {
        PreLoopKeeps(seed, env, t, cs, i + 1, run, room);
      }
    }
  }

  lemma TookTallied(seed: Option<Value>, zero: Value, l: seq<Entry>, called: bool, superseded: bool, overridden: bool,
        result: Value, e: Entry)
    requires Tallied(seed, zero, l, called, superseded, overridden, result) && e.Took?
    ensures Tallied(seed, zero, l + [e], called, superseded || Superseding(e), overridden || Overriding(e),
                    if Superseding(e) || (e.action == Override && !superseded) then e.value else result)
  {
    AppendFacts(seed.Some?, l, e);
  }

  lemma SettlePreKeeps<W>(seed: Option<Value>, t: Target<W>, c: Callback<W>, before: Run<W>, action: Action,
        frame: Frame, after: Run<W>)
    requires |before.args| == |t.kinds| == |frame.args|
    requires Kept(seed, Zero(t.ret), before) && Kept(seed, Zero(t.ret), after) && BodyStep(before, after)
    ensures Kept(seed, Zero(t.ret), SettlePre(t, c, before, action, frame, after))
  {
    var took := Took(c.handle, action, if Legal(frame.result, t.ret) then frame.result else before.result, frame.args, before.flag, frame.recalled);
    TookTallied(seed, Zero(t.ret), after.ledger, after.called, after.superseded, after.overridden, after.result, took);
    if after.superseded {
      SupersededOverrode(after.ledger);
    }
  }

  lemma SupersededOverrode(l: seq<Entry>)
    requires Superseded(l)
    ensures Overrode(l)
  {
    var d :| d in l && Superseding(d);
    assert Overriding(d);
  }

  lemma {:induction false} PreStepKeeps<W>(seed: Option<Value>, env: seq<Target<W>>, t: Target<W>, c: Callback<W>,
        run: Run<W>, room: nat)
    requires |run.args| == |t.kinds|
    requires Kept(seed, Zero(t.ret), run)
    ensures Kept(seed, Zero(t.ret), PreStep(env, t, c, run, room))
    decreases room, 2, 0
  {
    var frame := FrameOf(Pre, run);
    var (action, f, after) := Invoke(env, t, c, frame, run, room);
    if c.enabled {
      var entered := Entered(c.handle, frame.phase, frame.args, frame.result, frame.called);
      BodyKeeps(seed, env, t, c, 0, Ok, frame, run.(trace := run.trace + [entered]), room);
    }
    SettlePreKeeps(seed, t, c, run, action, f, after);
  }

  /** A callback changes the result only by running the original or recalling, and says so. */
  ghost predicate BodyStep<W>(before: Run<W>, after: Run<W>) {
    && after.superseded == before.superseded
    && after.overridden == before.overridden
    && after.posts == before.posts
    && Handles(after.ledger) == Handles(before.ledger)
    && (before.called || before.superseded ==> after.called == before.called)
    && (before.called == after.called ==> after.result == before.result && after.recalled == before.recalled)
  }

  lemma {:induction false} BodyKeeps<W>(seed: Option<Value>, env: seq<Target<W>>, t: Target<W>, c: Callback<W>, k: nat,
        reply: Reply, frame: Frame, run: Run<W>, room: nat)
    requires k <= c.budget
    requires Kept(seed, Zero(t.ret), run)
    ensures var after := Body(env, t, c, k, reply, frame, run, room).2;
      Kept(seed, Zero(t.ret), after) && BodyStep(run, after)
    decreases room, 1, c.budget + 1 - k
  {
    var (next, f, r) := Moved(c, k, reply, frame, run);
    if next.Ask? && k < c.budget {
      ServeKeeps(seed, env, t, c, next.own, next.control, f, r, room);
      var (answer, f', r') := Serve(env, t, c, next.own, next.control, f, r, room);
      BodyKeeps(seed, env, t, c, k + 1, answer, f', r', room);
      BodyUnfolds(env, t, c, k, reply, frame, run, room);
    }
  }

  /** An explicit run of the original, or a recall, becomes the verdict. */
  lemma CalledTallied(seed: Option<Value>, zero: Value, l: seq<Entry>, overridden: bool, result: Value, e: Entry)
    requires Tallied(seed, zero, l, false, false, overridden, result)
    requires match e
      case Ran(implicit, _) => !implicit
      case Recalled(inner, _) => First(inner) != Undecided && Runs(inner) == (if First(inner) == RanFirst then 1 else 0)
      case Took(_, _, _, _, _, _) => false
    ensures Tallied(seed, zero, l + [e], true, false, overridden, e.value)
    ensures Handles(l + [e]) == Handles(l)
  {
    AppendFacts(seed.Some?, l, e);
  }

  lemma RecallKeeps<W>(seed: Option<Value>, zero: Value, frame: Frame, run: Run<W>, from: bool, out: Outcome<W>)
    requires Kept(seed, zero, run) && !run.called && !run.superseded && Decided(from, out.ledger)
    ensures var after := ServeRecalled(frame, run, out).2;
      Kept(seed, zero, after) && BodyStep(run, after)
  {
    CalledTallied(seed, zero, run.ledger, run.overridden, run.result, Recalled(out.ledger, out.value));
  }

  lemma OriginalKeeps<W>(seed: Option<Value>, t: Target<W>, own: bool, frame: Frame, run: Run<W>)
    requires Kept(seed, Zero(t.ret), run)
    ensures var after := ServeOriginal(t, own, frame, run).2;
      Kept(seed, Zero(t.ret), after) && BodyStep(run, after)
  {
    if own && frame.phase == Pre && !run.called && !run.superseded {
      var (v, after) := RunOriginal(t, frame.args, run.world);
      CalledTallied(seed, Zero(t.ret), run.ledger, run.overridden, run.result, Ran(false, v));
    }
  }

  lemma {:induction false} ServeKeeps<W>(seed: Option<Value>, env: seq<Target<W>>, t: Target<W>, c: Callback<W>,
        own: bool, control: Control, frame: Frame, run: Run<W>, room: nat)
    requires Kept(seed, Zero(t.ret), run)
    ensures var after := Serve(env, t, c, own, control, frame, run, room).2;
      Kept(seed, Zero(t.ret), after) && BodyStep(run, after)
    decreases room, 1, 0
  {
    match control
    case Reenter(_, _) => ReenterKeeps(seed, env, t, c, own, control, frame, run, room);
    case CallOriginal => OriginalKeeps(seed, t, own, frame, run);
    case Recall =>
      if RecallRefusal(t, own, frame, run, room).None? {
        DispatchKeeps(env, t, Some(RecallSeed(c, run)), frame.args, room, run.world, run.trace);
        GrantKeeps(seed, env, t, c, own, frame, run, room);
      }
  }

  /** A call of another hooked function moves the world and the trace only. */
  lemma ReenterKeeps<W>(seed: Option<Value>, env: seq<Target<W>>, t: Target<W>, c: Callback<W>, own: bool,
        control: Control, frame: Frame, run: Run<W>, room: nat)
    requires Kept(seed, Zero(t.ret), run) && control.Reenter?
    ensures var after := Serve(env, t, c, own, control, frame, run, room).2;
      Kept(seed, Zero(t.ret), after) && BodyStep(run, after)
  {
    var after := Serve(env, t, c, own, control, frame, run, room).2;
    assert after == run.(world := after.world, trace := after.trace);
  }

  lemma GrantKeeps<W>(seed: Option<Value>, env: seq<Target<W>>, t: Target<W>, c: Callback<W>, own: bool, frame: Frame,
        run: Run<W>, room: nat)
    requires Kept(seed, Zero(t.ret), run) && RecallRefusal(t, own, frame, run, room).None?
    requires var from := Some(RecallSeed(c, run));
      Decided(SeedValue(from).Some?, Dispatch(env, t, from, frame.args, room, run.world, run.trace).ledger)
    ensures var after := Serve(env, t, c, own, Recall, frame, run, room).2;
      Kept(seed, Zero(t.ret), after) && BodyStep(run, after)
  {
    var from := RecallSeed(c, run);
    RecallKeeps(seed, Zero(t.ret), frame, run, from.overridden.Some?,
                Dispatch(env, t, Some(from), frame.args, room, run.world, run.trace));
  }

  lemma ImplicitKeeps<W>(seed: Option<Value>, t: Target<W>, run: Run<W>)
    requires Kept(seed, Zero(t.ret), run)
    ensures Kept(seed, Zero(t.ret), Implicit(t, run))
    ensures Implicit(t, run).called || Implicit(t, run).superseded
  {
    var (v, after) := RunOriginal(t, run.args, run.world);
    AppendFacts(seed.Some?, run.ledger, Ran(true, v));
  }

  /** In POST, requests are refused: nothing but the world, the trace and the decisions move. */
  lemma {:induction false} PostBodyKeeps<W>(env: seq<Target<W>>, t: Target<W>, c: Callback<W>, k: nat, reply: Reply,
        frame: Frame, run: Run<W>, room: nat)
    requires k <= c.budget && frame.phase == Post
    ensures var after := Body(env, t, c, k, reply, frame, run, room).2;
      after == run.(world := after.world, trace := after.trace)
    decreases c.budget + 1 - k
  {
    var (next, f, r) := Moved(c, k, reply, frame, run);
    if next.Ask? && k < c.budget {
      PostServeKeeps(env, t, c, next.own, next.control, f, r, room);
      var (answer, f', r') := Serve(env, t, c, next.own, next.control, f, r, room);
      PostBodyKeeps(env, t, c, k + 1, answer, f', r', room);
    }
  }

  lemma PostServeKeeps<W>(env: seq<Target<W>>, t: Target<W>, c: Callback<W>, own: bool, control: Control, frame: Frame,
        run: Run<W>, room: nat)
    requires frame.phase == Post
    ensures var after := Serve(env, t, c, own, control, frame, run, room).2;
      after == run.(world := after.world, trace := after.trace)
  {
  }

  lemma PostStepKeeps<W>(env: seq<Target<W>>, t: Target<W>, c: Callback<W>, run: Run<W>, room: nat)
        returns (took: Entry)
    requires |run.args| == |t.kinds|
    ensures PostMoved(c.handle, run, PostStep(env, t, c, run, room), took)
  {
    var frame := FrameOf(Post, run);
    var (action, f, after) := Invoke(env, t, c, frame, run, room);
    if c.enabled {
      var entered := Entered(c.handle, frame.phase, frame.args, frame.result, frame.called);
      PostBodyKeeps(env, t, c, 0, Ok, frame, run.(trace := run.trace + [entered]), room);
    }
    took := SettlePostKeeps(t, c, run, action, f, after);
  }

  ghost predicate PostMoved<W>(handle: nat, run: Run<W>, next: Run<W>, took: Entry) {
    && took.Took? && took.handle == handle
    && next.ledger == run.ledger
    && next.posts == run.posts + [took]
    && next.result == (if took.action == Override then took.value else run.result)
  }

  lemma SettlePostKeeps<W>(t: Target<W>, c: Callback<W>, run: Run<W>, action: Action, frame: Frame, after: Run<W>)
        returns (took: Entry)
    requires |run.args| == |t.kinds| == |frame.args|
    requires after.ledger == run.ledger && after.posts == run.posts
    ensures PostMoved(c.handle, run, SettlePost(t, c, run, action, frame, after), took)
  {
    took := Took(c.handle, action, if Legal(frame.result, t.ret) then frame.result else run.result, frame.args, run.flag, frame.recalled);
  }

  lemma PostsAppend(posts: seq<Entry>, took: Entry)
    requires took.Took?
    ensures Handles(posts + [took]) == Handles(posts) + [took.handle]
    ensures LastOverride(posts + [took]) == if took.action == Override then Some(took.value) else LastOverride(posts)
  {
    assert (posts + [took])[..|posts|] == posts;
  }

  lemma PostLoopUnfold<W>(env: seq<Target<W>>, t: Target<W>, cs: seq<Callback<W>>, n: nat, run: Run<W>, room: nat)
        returns (next: Run<W>, took: seq<Entry>)
    requires 0 < n <= |cs| && |run.args| == |t.kinds|
    ensures if cs[n - 1].post then |took| == 1 && PostMoved(cs[n - 1].handle, run, next, took[0]) else took == [] && next == run
    ensures |next.args| == |t.kinds|
    ensures PostLoop(env, t, cs, n, run, room) == PostLoop(env, t, cs, n - 1, next, room)
  {
    next, took := run, [];
    if cs[n - 1].post {
      next := PostStep(env, t, cs[n - 1], run, room);
      var e := PostStepKeeps(env, t, cs[n - 1], run, room);
      took := [e];
    }
  }

  /** POST keeps the ledger, and its own decisions say what the result became. */
  lemma {:induction false} PostLoopKeeps<W>(base: Value, env: seq<Target<W>>, t: Target<W>, cs: seq<Callback<W>>,
        n: nat, run: Run<W>, room: nat)
    requires n <= |cs| && |run.args| == |t.kinds|
    requires run.result == LastOverride(run.posts).GetOr(base)
    ensures PostEnd(base, run, PostLoop(env, t, cs, n, run, room))
    decreases n
  {
    if n > 0 {
      var next, took := PostLoopUnfold(env, t, cs, n, run, room);
      if took != [] {
        PostsAppend(run.posts, took[0]);
      }
      PostLoopKeeps(base, env, t, cs, n - 1, next, room);
    }
  }

  ghost predicate PostEnd<W>(base: Value, run: Run<W>, last: Run<W>) {
    && last.ledger == run.ledger
    && last.result == LastOverride(last.posts).GetOr(base)
  }

  /** POST callbacks are asked from the last to the first. */
  lemma {:induction false} PostLoopOrder<W>(env: seq<Target<W>>, t: Target<W>, cs: seq<Callback<W>>, n: nat,
        run: Run<W>, room: nat)
    requires n <= |cs| && |run.args| == |t.kinds|
    ensures Handles(PostLoop(env, t, cs, n, run, room).posts) == Handles(run.posts) + Reversed(PostHandles(cs[..n]))
    decreases n
  {
    if n > 0 {
      var next, took := PostLoopUnfold(env, t, cs, n, run, room);
      PostLoopOrder(env, t, cs, n - 1, next, room);
      PostHandled(cs, n, run.posts, next.posts, took);
    }
  }

  lemma PostHandled<W>(cs: seq<Callback<W>>, n: nat, before: seq<Entry>, after: seq<Entry>, took: seq<Entry>)
    requires 0 < n <= |cs|
    requires if cs[n - 1].post then |took| == 1 && took[0].Took? && took[0].handle == cs[n - 1].handle else took == []
    requires after == before + took
    ensures Handles(after) + Reversed(PostHandles(cs[..n - 1])) == Handles(before) + Reversed(PostHandles(cs[..n]))
  {
    PostHandlesSplit(cs[..n]);
    assert cs[..n][..n - 1] == cs[..n - 1];
    var earlier := Reversed(PostHandles(cs[..n - 1]));
    if cs[n - 1].post {
      assert took == [took[0]];
      PostsAppend(before, took[0]);
      assert (Handles(before) + [took[0].handle]) + earlier == Handles(before) + ([took[0].handle] + earlier);
    } else {
      assert before + took == before && [] + earlier == earlier;
    }
  }

  lemma PostHandlesSplit<W>(cs: seq<Callback<W>>)
    requires cs != []
    ensures var c := cs[|cs| - 1];
      Reversed(PostHandles(cs)) == (if c.post then [c.handle] else []) + Reversed(PostHandles(cs[..|cs| - 1]))
  {
    var earlier := PostHandles(cs[..|cs| - 1]);
    if cs[|cs| - 1].post {
      assert (earlier + [cs[|cs| - 1].handle])[..|earlier|] == earlier;
    } else {
      assert PostHandles(cs) == earlier;
    }
  }

  lemma {:induction false} VerdictExists(l: seq<Entry>)
    requires Called(l) || Overrode(l)
    ensures Verdict(false, l).Some?
  {
    var n := |l| - 1;
    if !Accepted(false, l[..n], l[n]) {
      assert l == l[..n] + [l[n]];
      AppendFacts(false, l[..n], l[n]);
      VerdictExists(l[..n]);
    }
  }

  // ---- order ----

  lemma PreHandlesSplit<W>(cs: seq<Callback<W>>, i: nat)
    requires i < |cs|
    ensures PreHandles(cs[i..]) == if cs[i].pre then [cs[i].handle] + PreHandles(cs[i + 1..]) else PreHandles(cs[i + 1..])
  {
    assert cs[i..][1..] == cs[i + 1..];
  }

  lemma VisitedMore(h: nat, more: seq<nat>, rest: seq<nat>, recalled: bool, before: seq<nat>)
    requires Visited(more, rest, recalled)
    ensures Visited([h] + more, [h] + rest, recalled)
    ensures before + [h] + more == before + ([h] + more)
  {
    assert recalled ==> ([h] + rest)[..1 + |more|] == [h] + rest[..|more|];
  }

  lemma {:induction false} PreLoopOrder<W>(seed: Option<Value>, env: seq<Target<W>>, t: Target<W>,
        cs: seq<Callback<W>>, i: nat, run: Run<W>, room: nat)
      returns (seen: seq<nat>)
    requires i <= |cs| && |run.args| == |t.kinds| && !run.recalled
    requires Kept(seed, Zero(t.ret), run)
    ensures var last := PreLoop(env, t, cs, i, run, room);
      Handles(last.ledger) == Handles(run.ledger) + seen && Visited(seen, PreHandles(cs[i..]), last.recalled)
    decreases |cs| - i
  {
    seen := [];
    if i < |cs| {
      PreHandlesSplit(cs, i);
      if cs[i].pre {
        var next := PreStepOrder(seed, env, t, cs[i], run, room);
        PreLoopUnfolds(env, t, cs, i, run, room, next);
        if next.recalled {
          seen := [cs[i].handle];
        } else {
          var more := PreLoopOrder(seed, env, t, cs, i + 1, next, room);
          seen := [cs[i].handle] + more;
          VisitedMore(cs[i].handle, more, PreHandles(cs[i + 1..]), PreLoop(env, t, cs, i + 1, next, room).recalled, Handles(run.ledger));
        }
      } else {
        PreLoopUnfolds(env, t, cs, i, run, room, run);
        seen := PreLoopOrder(seed, env, t, cs, i + 1, run, room);
      }
    }
  }

  lemma PreStepOrder<W>(seed: Option<Value>, env: seq<Target<W>>, t: Target<W>, c: Callback<W>, run: Run<W>, room: nat)
        returns (next: Run<W>)
    requires |run.args| == |t.kinds|
    requires Kept(seed, Zero(t.ret), run)
    ensures next == PreStep(env, t, c, run, room) && Kept(seed, Zero(t.ret), next)
    ensures Handles(next.ledger) == Handles(run.ledger) + [c.handle]
  {
    var frame := FrameOf(Pre, run);
    var (action, f, after) := Invoke(env, t, c, frame, run, room);
    if c.enabled {
      var entered := Entered(c.handle, frame.phase, frame.args, frame.result, frame.called);
      BodyKeeps(seed, env, t, c, 0, Ok, frame, run.(trace := run.trace + [entered]), room);
    }
    SettlePreKeeps(seed, t, c, run, action, f, after);
    SettlePreHandles(t, c, run, action, f, after);
    next := SettlePre(t, c, run, action, f, after);
  }

  lemma SettlePreHandles<W>(t: Target<W>, c: Callback<W>, before: Run<W>, action: Action, frame: Frame, after: Run<W>)
    requires |before.args| == |t.kinds| == |frame.args|
    ensures Handles(SettlePre(t, c, before, action, frame, after).ledger) == Handles(after.ledger) + [c.handle]
  {
    PostsAppend(after.ledger, Took(c.handle, action, if Legal(frame.result, t.ret) then frame.result else before.result, frame.args, before.flag, frame.recalled));
  }

  /** One callback comes before another for the whole dispatch. */
  ghost predicate Ordered<W>(cs: seq<Callback<W>>) {
    forall i, j :: 0 <= i < j < |cs| ==> !Before(cs[j], cs[i])
  }

  lemma {:induction false} InsertOrdered<W>(c: Callback<W>, cs: seq<Callback<W>>)
    requires Ordered(cs)
    ensures Ordered(Insert(c, cs)) && multiset(Insert(c, cs)) == multiset(cs) + multiset{c}
  {
    if cs == [] || !Before(cs[0], c) {
    } else {
      InsertOrdered(c, cs[1..]);
      var rest := Insert(c, cs[1..]);
      forall x | x in rest
        ensures !Before(x, cs[0])
      {
        assert x in multiset(rest);
      }
      assert cs == [cs[0]] + cs[1..];
    }
  }

  /** The order PRE callbacks are asked in is the same callbacks, highest priority and oldest first. */
  lemma {:induction false} SortedOrdered<W>(cs: seq<Callback<W>>)
    ensures Ordered(Sorted(cs)) && multiset(Sorted(cs)) == multiset(cs)
  {
    if cs != [] {
      SortedOrdered(cs[1..]);
      InsertOrdered(cs[0], Sorted(cs[1..]));
      assert cs == [cs[0]] + cs[1..];
    }
  }

  // ---- the laws of one dispatch ----

  /**
    In a dispatch and all its recalls together the original runs exactly once, or not at all when
    a SUPERSEDE came before any call of it.
   */
  lemma OriginalRunsOnce<W>(env: seq<Target<W>>, t: Target<W>, seed: Option<Seed>, native: seq<Value>, room: nat,
        world: W, trace: seq<Event>)
    ensures var out := Dispatch(env, t, seed, native, room, world, trace);
      Runs(out.ledger) == if First(out.ledger) == Silenced then 0 else 1
  {
    DispatchKeeps(env, t, seed, native, room, world, trace);
  }

  /** The result is the last POST override, else the last decision accepted in PRE. */
  lemma ResultIsLastDecision<W>(env: seq<Target<W>>, t: Target<W>, native: seq<Value>, room: nat, world: W,
        trace: seq<Event>)
    ensures var out := Dispatch(env, t, None, native, room, world, trace);
      && Verdict(false, out.ledger).Some?
      && out.value == LastOverride(out.posts).GetOr(Verdict(false, out.ledger).value)
  {
    DispatchKeeps(env, t, None, native, room, world, trace);
    if room > 0 {
      var pre := RestParts(None, env, t, Sorted(t.callbacks), 0, Start(t, None, native, world, trace), room - 1);
    }
  }

  lemma RestOrder<W>(env: seq<Target<W>>, t: Target<W>, cs: seq<Callback<W>>, run: Run<W>, room: nat)
        returns (pre: Run<W>)
    requires |run.args| == |t.kinds| && !run.recalled && run.ledger == [] && Kept(None, Zero(t.ret), run)
    ensures pre == PreLoop(env, t, cs, 0, run, room)
    ensures AskedInOrder(cs, pre.recalled, Rest(env, t, cs, 0, run, room).ledger, Rest(env, t, cs, 0, run, room).posts)
  {
    assert cs[0..] == cs && cs[..|cs|] == cs;
    var seen := PreLoopOrder(None, env, t, cs, 0, run, room);
    PreLoopKeeps(None, env, t, cs, 0, run, room);
    pre := PreLoop(env, t, cs, 0, run, room);
    assert Handles(pre.ledger) == seen;
    if !pre.recalled {
      ImplicitHandles(t, pre);
      PostLoopKeeps(Implicit(t, pre).result, env, t, cs, |cs|, Implicit(t, pre), room);
      PostLoopOrder(env, t, cs, |cs|, Implicit(t, pre), room);
    }
  }

  ghost predicate AskedInOrder<W>(cs: seq<Callback<W>>, recalled: bool, ledger: seq<Entry>, posts: seq<Entry>) {
    && Visited(Handles(ledger), PreHandles(cs), recalled)
    && Handles(posts) == if recalled then [] else Reversed(PostHandles(cs))
  }

  /**
    PRE callbacks are asked by priority, then age, up to the first that recalls; POST callbacks are
    asked in exactly the opposite order, by the dispatch that was not cut short.
   */
  lemma CallbackOrder<W>(env: seq<Target<W>>, t: Target<W>, native: seq<Value>, room: nat, world: W, trace: seq<Event>)
        returns (pre: Run<W>)
    requires room > 0
    ensures pre == PreLoop(env, t, Sorted(t.callbacks), 0, Start(t, None, native, world, trace), room - 1)
    ensures var out := Dispatch(env, t, None, native, room, world, trace);
      AskedInOrder(Sorted(t.callbacks), pre.recalled, out.ledger, out.posts)
  {
    var last;
    pre, last := StartedOrder(env, t, native, room - 1, world, trace);
    DispatchUnfolds(env, t, None, native, room, world, trace, last);
    SameLists(Sorted(t.callbacks), pre.recalled, last, Dispatch(env, t, None, native, room, world, trace));
  }

  lemma StartedOrder<W>(env: seq<Target<W>>, t: Target<W>, native: seq<Value>, room: nat, world: W, trace: seq<Event>)
        returns (pre: Run<W>, last: Run<W>)
    ensures pre == PreLoop(env, t, Sorted(t.callbacks), 0, Start(t, None, native, world, trace), room)
    ensures last == Rest(env, t, Sorted(t.callbacks), 0, Start(t, None, native, world, trace), room)
    ensures AskedInOrder(Sorted(t.callbacks), pre.recalled, last.ledger, last.posts)
  {
    StartKept(t, native, world, trace);
    pre := RestOrder(env, t, Sorted(t.callbacks), Start(t, None, native, world, trace), room);
    last := Rest(env, t, Sorted(t.callbacks), 0, Start(t, None, native, world, trace), room);
  }

  lemma SameLists<W>(cs: seq<Callback<W>>, recalled: bool, last: Run<W>, out: Outcome<W>)
    requires out.ledger == last.ledger && out.posts == last.posts && AskedInOrder(cs, recalled, last.ledger, last.posts)
    ensures AskedInOrder(cs, recalled, out.ledger, out.posts)
  {
  }

  lemma StartKept<W>(t: Target<W>, native: seq<Value>, world: W, trace: seq<Event>)
    ensures var run := Start(t, None, native, world, trace);
      |run.args| == |t.kinds| && !run.recalled && run.ledger == [] && Kept(None, Zero(t.ret), run)
  {
  }

  lemma ImplicitHandles<W>(t: Target<W>, run: Run<W>)
    ensures Handles(Implicit(t, run).ledger) == Handles(run.ledger) && Implicit(t, run).posts == run.posts
  {
    var (v, after) := RunOriginal(t, run.args, run.world);
    AppendFacts(false, run.ledger, Ran(true, v));
  }
}
