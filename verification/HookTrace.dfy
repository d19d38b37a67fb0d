/**
  The ledger of a dispatch against the calls that can be seen: when no callback calls another hooked
  function, each run the ledger counts is one call of the original in the trace, and there are no others.
 */
module HookTrace {
  import opened Options
  import opened HookDispatch
  import opened HookLaws

  /** How many calls of an original the trace shows. */
  function Originals(trace: seq<Event>): nat {
    if trace == [] then 0 else Originals(trace[..|trace| - 1]) + (if trace[|trace| - 1].Original? then 1 else 0)
  }

  /** Whatever the host answers, the callback calls no hooked function. */
  ghost predicate Solitary<W(!new)>(env: seq<Target<W>>, c: Callback<W>) {
    forall k, f, r, w :: Alone(env, c.body(k, f, r, w).next)
  }

  predicate Alone<W>(env: seq<Target<W>>, next: Next) {
    next.Ask? && next.control.Reenter? ==> next.control.target >= |env|
  }

  ghost predicate AllSolitary<W(!new)>(env: seq<Target<W>>, cs: seq<Callback<W>>) {
    forall i :: 0 <= i < |cs| ==> Solitary(env, cs[i])
  }

  /** From `base` calls on, trace and ledger went up together. */
  predicate Shown<W>(base: nat, run: Run<W>) {
    Originals(run.trace) == base + Runs(run.ledger)
  }

  lemma OriginalsAppend(trace: seq<Event>, e: Event)
    ensures Originals(trace + [e]) == Originals(trace) + (if e.Original? then 1 else 0)
  {
    assert (trace + [e])[..|trace|] == trace;
  }

  lemma SortedSolitary<W(!new)>(env: seq<Target<W>>, cs: seq<Callback<W>>)
    requires AllSolitary(env, cs)
    ensures AllSolitary(env, Sorted(cs))
  {
    SortedOrdered(cs);
    forall i | 0 <= i < |Sorted(cs)|
      ensures Solitary(env, Sorted(cs)[i])
    {
      assert Sorted(cs)[i] in multiset(Sorted(cs));
    }
  }

  // ---- one dispatch ----

  lemma {:induction false} DispatchShown<W(!new)>(env: seq<Target<W>>, t: Target<W>, seed: Option<Seed>,
        native: seq<Value>, room: nat, world: W, trace: seq<Event>)
    requires AllSolitary(env, t.callbacks)
    ensures var out := Dispatch(env, t, seed, native, room, world, trace);
      Originals(out.trace) == Originals(trace) + Runs(out.ledger)
    decreases room, 0, 0
  {
    var run := Start(t, seed, native, world, trace);
    if room == 0 {
      var (v, _) := RunOriginal(t, run.args, world);
      OriginalsAppend(trace, Original(Retype(t.kinds, run.args), v));
    } else {
      var cs := Sorted(t.callbacks);
      SortedSolitary(env, t.callbacks);
      var start := if seed.Some? then StartAfter(cs, seed.value.from) else 0;
      RestShown(Originals(trace), env, t, cs, start, run, room - 1);
      DispatchUnfolds(env, t, seed, native, room, world, trace, Rest(env, t, cs, start, run, room - 1));
    }
  }

  lemma {:induction false} RestShown<W(!new)>(base: nat, env: seq<Target<W>>, t: Target<W>, cs: seq<Callback<W>>,
        i: nat, run: Run<W>, room: nat)
    requires i <= |cs| && |run.args| == |t.kinds|
    requires AllSolitary(env, t.callbacks) && AllSolitary(env, cs) && Shown(base, run)
    ensures Shown(base, Rest(env, t, cs, i, run, room))
    decreases room, 4, 0
  {
    PreLoopShown(base, env, t, cs, i, run, room);
    var pre := PreLoop(env, t, cs, i, run, room);
    if !pre.recalled {
      ImplicitShown(base, t, pre);
      PostLoopShown(base, env, t, cs, |cs|, Implicit(t, pre), room);
    }
  }

  lemma ImplicitShown<W>(base: nat, t: Target<W>, run: Run<W>)
    requires Shown(base, run)
    ensures Shown(base, Implicit(t, run))
  {
    var (v, _) := RunOriginal(t, run.args, run.world);
    OriginalsAppend(run.trace, Original(Retype(t.kinds, run.args), v));
    RunsAppend(run.ledger, Ran(true, v));
  }

  lemma {:induction false} PreLoopShown<W(!new)>(base: nat, env: seq<Target<W>>, t: Target<W>, cs: seq<Callback<W>>,
        i: nat, run: Run<W>, room: nat)
    requires i <= |cs| && |run.args| == |t.kinds|
    requires AllSolitary(env, t.callbacks) && AllSolitary(env, cs) && Shown(base, run)
    ensures Shown(base, PreLoop(env, t, cs, i, run, room))
    decreases room, 3, |cs| - i
  {
    if i < |cs| {
      if cs[i].pre {
        PreStepShown(base, env, t, cs[i], run, room);
        var next := PreStep(env, t, cs[i], run, room);
        if !next.recalled {
          PreLoopShown(base, env, t, cs, i + 1, next, room);
        }
      } else {
        PreLoopShown(base, env, t, cs, i + 1, run, room);
      }
    }
  }

  lemma {:induction false} PreStepShown<W(!new)>(base: nat, env: seq<Target<W>>, t: Target<W>, c: Callback<W>,
        run: Run<W>, room: nat)
    requires |run.args| == |t.kinds| && AllSolitary(env, t.callbacks) && Solitary(env, c) && Shown(base, run)
    ensures Shown(base, PreStep(env, t, c, run, room))
    decreases room, 2, 0
  {
    InvokeShown(base, env, t, c, FrameOf(Pre, run), run, room);
    var (action, f, after) := Invoke(env, t, c, FrameOf(Pre, run), run, room);
    RunsAppend(after.ledger, Took(c.handle, action, if Legal(f.result, t.ret) then f.result else run.result, f.args, run.flag, f.recalled));
  }

  lemma {:induction false} PostLoopShown<W(!new)>(base: nat, env: seq<Target<W>>, t: Target<W>, cs: seq<Callback<W>>,
        n: nat, run: Run<W>, room: nat)
    requires n <= |cs| && |run.args| == |t.kinds|
    requires AllSolitary(env, t.callbacks) && AllSolitary(env, cs) && Shown(base, run)
    ensures Shown(base, PostLoop(env, t, cs, n, run, room))
    decreases room, 3, n
  {
    if n > 0 {
      var next := run;
      if cs[n - 1].post {
        InvokeShown(base, env, t, cs[n - 1], FrameOf(Post, run), run, room);
        next := PostStep(env, t, cs[n - 1], run, room);
      }
      PostLoopUnfolds(env, t, cs, n, run, room, next);
      PostLoopShown(base, env, t, cs, n - 1, next, room);
    }
  }

  lemma {:induction false} InvokeShown<W(!new)>(base: nat, env: seq<Target<W>>, t: Target<W>, c: Callback<W>,
        frame: Frame, run: Run<W>, room: nat)
    requires AllSolitary(env, t.callbacks) && Solitary(env, c) && Shown(base, run)
    ensures Shown(base, Invoke(env, t, c, frame, run, room).2)
    decreases room, 1, c.budget + 2
  {
    if c.enabled {
      var entered := Entered(c.handle, frame.phase, frame.args, frame.result, frame.called);
      OriginalsAppend(run.trace, entered);
      BodyShown(base, env, t, c, 0, Ok, frame, run.(trace := run.trace + [entered]), room);
    }
  }

  lemma {:induction false} BodyShown<W(!new)>(base: nat, env: seq<Target<W>>, t: Target<W>, c: Callback<W>, k: nat,
        reply: Reply, frame: Frame, run: Run<W>, room: nat)
    requires k <= c.budget
    requires AllSolitary(env, t.callbacks) && Solitary(env, c) && Shown(base, run)
    ensures Shown(base, Body(env, t, c, k, reply, frame, run, room).2)
    decreases room, 1, c.budget + 1 - k
  {
    var (next, f, r) := Moved(c, k, reply, frame, run);
    BodyUnfolds(env, t, c, k, reply, frame, run, room);
    if next.Ask? && k < c.budget {
      assert Alone(env, c.body(k, frame, reply, run.world).next);
      ServeShown(base, env, t, c, next.own, next.control, f, r, room);
      var (answer, f', r') := Serve(env, t, c, next.own, next.control, f, r, room);
      BodyShown(base, env, t, c, k + 1, answer, f', r', room);
    }
  }

  lemma ServedOriginalShown<W>(base: nat, t: Target<W>, own: bool, frame: Frame, run: Run<W>)
    requires Shown(base, run)
    ensures Shown(base, ServeOriginal(t, own, frame, run).2)
  {
    var (v, _) := RunOriginal(t, frame.args, run.world);
    OriginalsAppend(run.trace, Original(Retype(t.kinds, frame.args), v));
    RunsAppend(run.ledger, Ran(false, v));
  }

  /** A granted recall adds what its whole dispatch added. */
  lemma RecalledShown<W>(base: nat, frame: Frame, run: Run<W>, out: Outcome<W>)
    requires Shown(base, run) && Originals(out.trace) == Originals(run.trace) + Runs(out.ledger)
    ensures Shown(base, ServeRecalled(frame, run, out).2)
  {
    var entry := Recalled(out.ledger, out.value);
    RunsAppend(run.ledger, entry);
    assert [entry][1..] == [] && Runs([entry]) == Runs(out.ledger);
  }

  /** A request adds to trace and ledger alike. */
  lemma {:induction false} ServeShown<W(!new)>(base: nat, env: seq<Target<W>>, t: Target<W>, c: Callback<W>, own: bool,
        control: Control, frame: Frame, run: Run<W>, room: nat)
    requires AllSolitary(env, t.callbacks) && Alone(env, Ask(own, control)) && Shown(base, run)
    ensures Shown(base, Serve(env, t, c, own, control, frame, run, room).2)
    decreases room, 1, 0
  {
    match control
    case Reenter(_, _) =>
    case CallOriginal => ServedOriginalShown(base, t, own, frame, run);
    case Recall =>
      if RecallRefusal(t, own, frame, run, room).None? {
        var out := Dispatch(env, t, Some(RecallSeed(c, run)), frame.args, room, run.world, run.trace);
        DispatchShown(env, t, Some(RecallSeed(c, run)), frame.args, room, run.world, run.trace);
        RecalledShown(base, frame, run, out);
      }
  }

  /**
    What the caller and the plugins see of one dispatch and all its recalls: one call of the original, or
    none when a SUPERSEDE came before any call of it.
   */
  lemma OriginalSeenOnce<W(!new)>(env: seq<Target<W>>, t: Target<W>, seed: Option<Seed>, native: seq<Value>, room: nat,
        world: W, trace: seq<Event>)
    requires AllSolitary(env, t.callbacks)
    ensures var out := Dispatch(env, t, seed, native, room, world, trace);
      && Originals(out.trace) - Originals(trace) == Runs(out.ledger)
      && Originals(out.trace) - Originals(trace) == if First(out.ledger) == Silenced then 0 else 1
  {
    DispatchShown(env, t, seed, native, room, world, trace);
    OriginalRunsOnce(env, t, seed, native, room, world, trace);
  }
}
