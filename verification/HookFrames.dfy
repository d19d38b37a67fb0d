/**
  What a dispatch hands out: the arguments, the result and the CALLED flag every callback finds in its
  frame, and the arguments the original is called with. All of it is told from the native arguments and
  from what the callbacks left in their frames, entry by entry.
 */
module HookFrames {
  import opened Options
  import opened HookDispatch
  import opened HookLaws

  // ---- what was last written ----

  /** The last entry sets argument `i`: legally, and not taken back by an invalid action. */
  predicate Sets(kinds: seq<nat>, l: seq<Entry>, i: nat)
    requires l != [] && i < |kinds|
  {
    var e := l[|l| - 1];
    && e.Took? && i < |e.args| && Legal(e.args[i], kinds[i])
    && (e.action != Invalid || (|l| > 1 && Calling(l[|l| - 2])))
  }

  /** Argument `i` after this ledger: as last set, at first the native bits under the prototype's kind. */
  function LastSet(kinds: seq<nat>, native: seq<Value>, l: seq<Entry>, i: nat): Value
    requires i < |kinds|
  {
    if l == [] then Value(kinds[i], 0, if i < |native| then native[i].bits else 0)
    else if Sets(kinds, l, i) then l[|l| - 1].args[i]
    else LastSet(kinds, native, l[..|l| - 1], i)
  }

  ghost predicate Given(kinds: seq<nat>, native: seq<Value>, l: seq<Entry>, args: seq<Value>) {
    |args| == |kinds| && forall i :: 0 <= i < |kinds| ==> args[i] == LastSet(kinds, native, l, i)
  }

  lemma {:induction false} LastSetLegal(kinds: seq<nat>, native: seq<Value>, l: seq<Entry>, i: nat)
    requires i < |kinds|
    ensures Legal(LastSet(kinds, native, l, i), kinds[i])
  {
    if l != [] {
      LastSetLegal(kinds, native, l[..|l| - 1], i);
    }
  }

  /** What is given is what a typed call of the original reads. */
  lemma GivenTyped(kinds: seq<nat>, native: seq<Value>, l: seq<Entry>, args: seq<Value>)
    requires Given(kinds, native, l, args)
    ensures Retype(kinds, args) == args
  {
    forall i | 0 <= i < |kinds|
      ensures Retype(kinds, args)[i] == args[i]
    {
      LastSetLegal(kinds, native, l, i);
    }
  }

  lemma CallingSetsNothing(kinds: seq<nat>, native: seq<Value>, l: seq<Entry>, e: Entry, args: seq<Value>)
    requires Calling(e) && Given(kinds, native, l, args)
    ensures Given(kinds, native, l + [e], args)
  {
    assert (l + [e])[..|l|] == l;
  }

  /** A callback that returns: legal arguments stay as it left them, unless its action is invalid and it called nothing. */
  lemma TookSets(kinds: seq<nat>, native: seq<Value>, l: seq<Entry>, e: Entry, before: seq<Value>)
    requires e.Took? && |e.args| == |kinds| && Given(kinds, native, l, before)
    ensures Given(kinds, native, l + [e],
                  if e.action == Invalid && !(l != [] && Calling(l[|l| - 1])) then before else CheckedArgs(kinds, e.args, before))
  {
    assert (l + [e])[..|l|] == l;
    assert l != [] ==> (l + [e])[|l| - 1] == l[|l| - 1];
  }

  // ---- the trace only grows ----

  lemma {:induction false} DispatchGrows<W>(env: seq<Target<W>>, t: Target<W>, seed: Option<Seed>, native: seq<Value>,
        room: nat, world: W, trace: seq<Event>)
    ensures trace <= Dispatch(env, t, seed, native, room, world, trace).trace
    decreases room, 0, 0
  {
    if room > 0 {
      var cs := Sorted(t.callbacks);
      var start := if seed.Some? then StartAfter(cs, seed.value.from) else 0;
      RestGrows(env, t, cs, start, Start(t, seed, native, world, trace), room - 1);
    }
  }

  lemma {:induction false} RestGrows<W>(env: seq<Target<W>>, t: Target<W>, cs: seq<Callback<W>>, i: nat, run: Run<W>,
        room: nat)
    requires i <= |cs| && |run.args| == |t.kinds|
    ensures run.trace <= Rest(env, t, cs, i, run, room).trace
    decreases room, 4, 0
  {
    PreLoopGrows(env, t, cs, i, run, room);
    var pre := PreLoop(env, t, cs, i, run, room);
    if !pre.recalled {
      assert pre.trace <= Implicit(t, pre).trace;
      PostLoopGrows(env, t, cs, |cs|, Implicit(t, pre), room);
    }
  }

  lemma {:induction false} PreLoopGrows<W>(env: seq<Target<W>>, t: Target<W>, cs: seq<Callback<W>>, i: nat, run: Run<W>,
        room: nat)
    requires i <= |cs| && |run.args| == |t.kinds|
    ensures run.trace <= PreLoop(env, t, cs, i, run, room).trace
    decreases room, 3, |cs| - i
  {
    if i < |cs| {
      var next := run;
      if cs[i].pre {
        next := PreStep(env, t, cs[i], run, room);
        InvokeGrows(env, t, cs[i], FrameOf(Pre, run), run, room);
      }
      if !(cs[i].pre && next.recalled) {
        PreLoopGrows(env, t, cs, i + 1, next, room);
      }
    }
  }

  lemma {:induction false} PostLoopGrows<W>(env: seq<Target<W>>, t: Target<W>, cs: seq<Callback<W>>, n: nat,
        run: Run<W>, room: nat)
    requires n <= |cs| && |run.args| == |t.kinds|
    ensures run.trace <= PostLoop(env, t, cs, n, run, room).trace
    decreases room, 3, n
  {
    if n > 0 {
      var next := run;
      if cs[n - 1].post {
        next := PostStep(env, t, cs[n - 1], run, room);
        InvokeGrows(env, t, cs[n - 1], FrameOf(Post, run), run, room);
      }
      PostLoopUnfolds(env, t, cs, n, run, room, next);
      PostLoopGrows(env, t, cs, n - 1, next, room);
    }
  }

  /** The first thing the trace shows of a callback that is switched on is the frame it was given. */
  lemma {:induction false} InvokeGrows<W>(env: seq<Target<W>>, t: Target<W>, c: Callback<W>, frame: Frame, run: Run<W>,
        room: nat)
    ensures var after := Invoke(env, t, c, frame, run, room).2;
      if c.enabled then run.trace + [Entered(c.handle, frame.phase, frame.args, frame.result, frame.called)] <= after.trace
      else after == run
    decreases room, 1, c.budget + 2
  {
    if c.enabled {
      var entered := Entered(c.handle, frame.phase, frame.args, frame.result, frame.called);
      BodyGrows(env, t, c, 0, Ok, frame, run.(trace := run.trace + [entered]), room);
    }
  }

  lemma {:induction false} BodyGrows<W>(env: seq<Target<W>>, t: Target<W>, c: Callback<W>, k: nat, reply: Reply,
        frame: Frame, run: Run<W>, room: nat)
    requires k <= c.budget
    ensures run.trace <= Body(env, t, c, k, reply, frame, run, room).2.trace
    decreases room, 1, c.budget + 1 - k
  {
    var (next, f, r) := Moved(c, k, reply, frame, run);
    BodyUnfolds(env, t, c, k, reply, frame, run, room);
    if next.Ask? && k < c.budget {
      ServeGrows(env, t, c, next.own, next.control, f, r, room);
      var (answer, f', r') := Serve(env, t, c, next.own, next.control, f, r, room);
      BodyGrows(env, t, c, k + 1, answer, f', r', room);
    }
  }

  lemma {:induction false} ServeGrows<W>(env: seq<Target<W>>, t: Target<W>, c: Callback<W>, own: bool, control: Control,
        frame: Frame, run: Run<W>, room: nat)
    ensures run.trace <= Serve(env, t, c, own, control, frame, run, room).2.trace
    decreases room, 1, 0
  {
    match control
    case Reenter(target, args) =>
      if target < |env| {
        DispatchGrows(env, env[target], None, args, room, run.world, run.trace);
      }
    case CallOriginal =>
    case Recall =>
      if RecallRefusal(t, own, frame, run, room).None? {
        DispatchGrows(env, t, Some(RecallSeed(c, run)), frame.args, room, run.world, run.trace);
      }
  }

  // ---- what a callback adds to the ledger before it returns ----

  /** Nothing, or the one call of the original or recall it was granted. */
  ghost predicate Adds<W>(before: Run<W>, after: Run<W>) {
    && after.args == before.args
    && (if after.ledger == before.ledger then after.called == before.called
        else !before.called && after.called && |after.ledger| == |before.ledger| + 1
             && after.ledger[..|before.ledger|] == before.ledger && Calling(after.ledger[|before.ledger|]))
  }

  lemma {:induction false} BodyAdds<W>(env: seq<Target<W>>, t: Target<W>, c: Callback<W>, k: nat, reply: Reply,
        frame: Frame, run: Run<W>, room: nat)
    requires k <= c.budget
    ensures Adds(run, Body(env, t, c, k, reply, frame, run, room).2)
    decreases c.budget + 1 - k
  {
    var (next, f, r) := Moved(c, k, reply, frame, run);
    BodyUnfolds(env, t, c, k, reply, frame, run, room);
    if next.Ask? && k < c.budget {
      ServeAdds(env, t, c, next.own, next.control, f, r, room);
      var (answer, f', r') := Serve(env, t, c, next.own, next.control, f, r, room);
      BodyAdds(env, t, c, k + 1, answer, f', r', room);
    }
  }

  lemma ServeAdds<W>(env: seq<Target<W>>, t: Target<W>, c: Callback<W>, own: bool, control: Control, frame: Frame,
        run: Run<W>, room: nat)
    ensures Adds(run, Serve(env, t, c, own, control, frame, run, room).2)
  {
  }

  // ---- PRE ----

  /** Where the ledger stood when the callback of entry `j` was entered. */
  function Before(l: seq<Entry>, j: nat): (n: nat)
    requires j < |l|
    ensures n <= j
  {
    if j > 0 && Calling(l[j - 1]) then j - 1 else j
  }

  /** A callback of this handle that is switched off, and so not entered. */
  ghost predicate SwitchedOff<W>(cs: seq<Callback<W>>, handle: nat) {
    exists i :: 0 <= i < |cs| && cs[i].handle == handle && !cs[i].enabled
  }

  /** The arguments, the result and the CALLED flag a callback finds, given what was decided before it. */
  ghost predicate PreSaw<W>(t: Target<W>, native: seq<Value>, seed: Option<Value>, before: seq<Entry>, handle: nat,
        trace: seq<Event>)
  {
    exists args :: Given(t.kinds, native, before, args) &&
      Entered(handle, Pre, args, Verdict(seed.Some?, before).GetOr(seed.GetOr(Value(t.ret, 0, 0))), Called(before)) in trace
  }

  ghost predicate AllPreSaw<W>(cs: seq<Callback<W>>, t: Target<W>, native: seq<Value>, seed: Option<Value>,
        l: seq<Entry>,
        trace: seq<Event>)
  {
    forall j :: 0 <= j < |l| && l[j].Took? ==>
      PreSaw(t, native, seed, l[..Before(l, j)], l[j].handle, trace) || SwitchedOff(cs, l[j].handle)
  }

  /** Between callbacks the last entry is what the last callback did. */
  predicate Rested(l: seq<Entry>) {
    l != [] ==> l[|l| - 1].Took?
  }

  lemma SawStays<W>(cs: seq<Callback<W>>, t: Target<W>, native: seq<Value>, seed: Option<Value>, l: seq<Entry>,
        more: seq<Entry>, trace: seq<Event>, later: seq<Event>, j: nat)
    requires AllPreSaw(cs, t, native, seed, l, trace) && l <= more && trace <= later && j < |l| && more[j].Took?
    ensures PreSaw(t, native, seed, more[..Before(more, j)], more[j].handle, later) || SwitchedOff(cs, more[j].handle)
  {
    assert l[j] == more[j] && Before(l, j) == Before(more, j) && l[..Before(l, j)] == more[..Before(more, j)];
    if PreSaw(t, native, seed, l[..Before(l, j)], l[j].handle, trace) {
      var before := l[..Before(l, j)];
      var result := Verdict(seed.Some?, before).GetOr(seed.GetOr(Zero(t.ret)));
      var args :| Given(t.kinds, native, before, args) && Entered(l[j].handle, Pre, args, result, Called(before)) in trace;
      assert Entered(l[j].handle, Pre, args, result, Called(before)) in later;
    }
  }

  /** The state of a dispatch between PRE callbacks, read off its ledger. */
  ghost predicate Told<W>(cs: seq<Callback<W>>, t: Target<W>, native: seq<Value>, seed: Option<Value>, run: Run<W>) {
    && Kept(seed, Zero(t.ret), run) && Rested(run.ledger) && Given(t.kinds, native, run.ledger, run.args)
    && AllPreSaw(cs, t, native, seed, run.ledger, run.trace)
  }

  lemma InvokeAdds<W>(env: seq<Target<W>>, t: Target<W>, c: Callback<W>, run: Run<W>, room: nat)
    ensures Adds(run, Invoke(env, t, c, FrameOf(Pre, run), run, room).2)
  {
    if c.enabled {
      var frame := FrameOf(Pre, run);
      var entered := Entered(c.handle, frame.phase, frame.args, frame.result, frame.called);
      BodyAdds(env, t, c, 0, Ok, frame, run.(trace := run.trace + [entered]), room);
    }
  }

  lemma AddedGiven<W>(kinds: seq<nat>, native: seq<Value>, run: Run<W>, after: Run<W>)
    requires Given(kinds, native, run.ledger, run.args) && Rested(run.ledger) && Adds(run, after)
    ensures Given(kinds, native, after.ledger, after.args) && run.ledger <= after.ledger
    ensures !run.called && after.called <==> after.ledger != [] && Calling(after.ledger[|after.ledger| - 1])
  {
    if after.ledger != run.ledger {
      var e := after.ledger[|run.ledger|];
      assert after.ledger == run.ledger + [e];
      CallingSetsNothing(kinds, native, run.ledger, e, run.args);
    }
  }

  lemma PreStepGiven<W>(native: seq<Value>, env: seq<Target<W>>, t: Target<W>, c: Callback<W>, run: Run<W>, room: nat)
    requires Given(t.kinds, native, run.ledger, run.args) && Rested(run.ledger)
    ensures var next := PreStep(env, t, c, run, room);
      && Given(t.kinds, native, next.ledger, next.args) && Rested(next.ledger)
      && |run.ledger| < |next.ledger| && run.ledger <= next.ledger
      && next.ledger[|next.ledger| - 1].handle == c.handle && Before(next.ledger, |next.ledger| - 1) == |run.ledger|
  {
    var (action, f, after) := Invoke(env, t, c, FrameOf(Pre, run), run, room);
    InvokeAdds(env, t, c, run, room);
    SettleGiven(native, t, c, run, action, f, after);
  }

  lemma SettleGiven<W>(native: seq<Value>, t: Target<W>, c: Callback<W>, run: Run<W>, action: Action, f: Frame,
        after: Run<W>)
    requires Given(t.kinds, native, run.ledger, run.args) && Rested(run.ledger) && |f.args| == |t.kinds| && Adds(run, after)
    ensures var next := SettlePre(t, c, run, action, f, after);
      && Given(t.kinds, native, next.ledger, next.args) && Rested(next.ledger)
      && |run.ledger| < |next.ledger| && run.ledger <= next.ledger
      && next.ledger[|next.ledger| - 1].handle == c.handle && Before(next.ledger, |next.ledger| - 1) == |run.ledger|
  {
    var took := Took(c.handle, action, if Legal(f.result, t.ret) then f.result else run.result, f.args, run.flag, f.recalled);
    AddedGiven(t.kinds, native, run, after);
    TookSets(t.kinds, native, after.ledger, took, run.args);
    var next := SettlePre(t, c, run, action, f, after);
    assert next.ledger == after.ledger + [took];
    AddedBefore(run, after, took);
  }

  /** When the callback was entered the ledger was as before it. */
  lemma AddedBefore<W>(run: Run<W>, after: Run<W>, took: Entry)
    requires Adds(run, after) && Rested(run.ledger)
    ensures Before(after.ledger + [took], |after.ledger|) == |run.ledger|
  {
    var l := after.ledger + [took];
    if after.ledger == run.ledger {
      assert run.ledger != [] ==> l[|run.ledger| - 1] == run.ledger[|run.ledger| - 1];
    } else {
      assert l[|after.ledger| - 1] == after.ledger[|run.ledger|];
    }
  }

  lemma PreStepTold<W>(cs: seq<Callback<W>>, native: seq<Value>, seed: Option<Value>, env: seq<Target<W>>, t: Target<W>,
        i: nat, run: Run<W>, room: nat)
    requires i < |cs| && Told(cs, t, native, seed, run)
    ensures Told(cs, t, native, seed, PreStep(env, t, cs[i], run, room))
  {
    PreStepKeeps(seed, env, t, cs[i], run, room);
    PreStepGiven(native, env, t, cs[i], run, room);
    PreStepSaw(cs, native, seed, env, t, i, run, room, PreStep(env, t, cs[i], run, room));
  }

  lemma PreStepSaw<W>(cs: seq<Callback<W>>, native: seq<Value>, seed: Option<Value>, env: seq<Target<W>>, t: Target<W>,
        i: nat, run: Run<W>, room: nat, next: Run<W>)
    requires i < |cs| && Told(cs, t, native, seed, run) && next == PreStep(env, t, cs[i], run, room)
    ensures AllPreSaw(cs, t, native, seed, next.ledger, next.trace)
  {
    var entered := Entered(cs[i].handle, Pre, run.args, run.result, run.called);
    PreStepShows(env, t, cs[i], run, room);
    assert run.trace <= next.trace && (cs[i].enabled ==> run.trace + [entered] <= next.trace);
    PreStepGiven(native, env, t, cs[i], run, room);
    assert next.ledger[|next.ledger| - 1].Took? && next.ledger[|next.ledger| - 1].handle == cs[i].handle;
    assert Before(next.ledger, |next.ledger| - 1) == |run.ledger|;
    AllStepSaw(cs, native, seed, t, i, run, next, entered);
  }

  lemma PreStepShows<W>(env: seq<Target<W>>, t: Target<W>, c: Callback<W>, run: Run<W>, room: nat)
    requires |run.args| == |t.kinds|
    ensures run.trace <= PreStep(env, t, c, run, room).trace
    ensures c.enabled ==>
      run.trace + [Entered(c.handle, Pre, run.args, run.result, run.called)] <= PreStep(env, t, c, run, room).trace
  {
    InvokeGrows(env, t, c, FrameOf(Pre, run), run, room);
  }

  lemma AllStepSaw<W>(cs: seq<Callback<W>>, native: seq<Value>, seed: Option<Value>, t: Target<W>, i: nat, run: Run<W>,
        next: Run<W>, entered: Event)
    requires i < |cs| && Kept(seed, Zero(t.ret), run) && Given(t.kinds, native, run.ledger, run.args)
    requires AllPreSaw(cs, t, native, seed, run.ledger, run.trace) && run.trace <= next.trace
    requires |run.ledger| < |next.ledger| && run.ledger <= next.ledger
    requires next.ledger[|next.ledger| - 1].Took? && next.ledger[|next.ledger| - 1].handle == cs[i].handle
    requires Before(next.ledger, |next.ledger| - 1) == |run.ledger|
    requires entered == Entered(cs[i].handle, Pre, run.args, run.result, run.called)
    requires cs[i].enabled ==> run.trace + [entered] <= next.trace
    ensures AllPreSaw(cs, t, native, seed, next.ledger, next.trace)
  {
    forall j | 0 <= j < |next.ledger| && next.ledger[j].Took?
      ensures PreSaw(t, native, seed, next.ledger[..Before(next.ledger, j)], next.ledger[j].handle, next.trace)
              || SwitchedOff(cs, next.ledger[j].handle)
    {
      if j < |run.ledger| {
        SawStays(cs, t, native, seed, run.ledger, next.ledger, run.trace, next.trace, j);
      } else {
        StepSaw(cs, native, seed, t, i, run, next, j);
      }
    }
  }

  lemma StepSaw<W>(cs: seq<Callback<W>>, native: seq<Value>, seed: Option<Value>, t: Target<W>, i: nat, run: Run<W>,
        next: Run<W>, j: nat)
    requires i < |cs| && Kept(seed, Zero(t.ret), run) && Given(t.kinds, native, run.ledger, run.args)
    requires |run.ledger| <= j < |next.ledger| && run.ledger <= next.ledger && next.ledger[j].Took?
    requires next.ledger[|next.ledger| - 1].Took? && next.ledger[|next.ledger| - 1].handle == cs[i].handle
    requires Before(next.ledger, |next.ledger| - 1) == |run.ledger|
    requires cs[i].enabled ==> run.trace + [Entered(cs[i].handle, Pre, run.args, run.result, run.called)] <= next.trace
    ensures PreSaw(t, native, seed, next.ledger[..Before(next.ledger, j)], next.ledger[j].handle, next.trace)
            || SwitchedOff(cs, next.ledger[j].handle)
  {
    assert j == |next.ledger| - 1 && next.ledger[..Before(next.ledger, j)] == run.ledger;
    if cs[i].enabled {
      var entered := Entered(cs[i].handle, Pre, run.args, run.result, run.called);
      assert (run.trace + [entered])[|run.trace|] == entered && next.trace[|run.trace|] == entered;
    }
  }

  lemma {:induction false} PreLoopTold<W>(native: seq<Value>, seed: Option<Value>, env: seq<Target<W>>, t: Target<W>,
        cs: seq<Callback<W>>, i: nat, run: Run<W>, room: nat)
    requires i <= |cs| && Told(cs, t, native, seed, run)
    ensures Told(cs, t, native, seed, PreLoop(env, t, cs, i, run, room))
    decreases |cs| - i
  {
    if i < |cs| {
      var next := run;
      if cs[i].pre {
        PreStepTold(cs, native, seed, env, t, i, run, room);
        next := PreStep(env, t, cs[i], run, room);
      }
      if !(cs[i].pre && next.recalled) {
        PreLoopTold(native, seed, env, t, cs, i + 1, next, room);
      }
    }
  }

  lemma StartTold<W>(t: Target<W>, seed: Option<Seed>, native: seq<Value>, world: W, trace: seq<Event>)
    ensures Told(Sorted(t.callbacks), t, native, SeedValue(seed), Start(t, seed, native, world, trace))
  {
  }

  // ---- POST ----

  /** Argument `i` after these POST callbacks: as last legally left by one that continues or overrides. */
  function LastLeft(kinds: seq<nat>, base: seq<Value>, posts: seq<Entry>, i: nat): Value
    requires i < |kinds| == |base|
  {
    if posts == [] then base[i]
    else
      var e := posts[|posts| - 1];
      if e.Took? && (e.action == Override || e.action == Continue) && i < |e.args| && Legal(e.args[i], kinds[i]) then e.args[i]
      else LastLeft(kinds, base, posts[..|posts| - 1], i)
  }

  ghost predicate Left(kinds: seq<nat>, base: seq<Value>, posts: seq<Entry>, args: seq<Value>)
    requires |kinds| == |base|
  {
    |args| == |kinds| && forall i :: 0 <= i < |kinds| ==> args[i] == LastLeft(kinds, base, posts, i)
  }

  ghost predicate PostSaw(kinds: seq<nat>, base: seq<Value>, result: Value, called: bool, before: seq<Entry>,
        handle: nat,
        trace: seq<Event>)
    requires |kinds| == |base|
  {
    exists args :: Left(kinds, base, before, args) &&
      Entered(handle, Post, args, LastOverride(before).GetOr(result), called) in trace
  }

  ghost predicate AllPostSaw<W>(cs: seq<Callback<W>>, kinds: seq<nat>, base: seq<Value>, result: Value, called: bool,
        posts: seq<Entry>, trace: seq<Event>)
    requires |kinds| == |base|
  {
    && (forall j :: 0 <= j < |posts| ==> posts[j].Took?)
    && (forall j :: 0 <= j < |posts| ==>
          PostSaw(kinds, base, result, called, posts[..j], posts[j].handle, trace) || SwitchedOff(cs, posts[j].handle))
  }

  /** The state of a dispatch between POST callbacks, read off its decisions. */
  ghost predicate Posted<W>(kinds: seq<nat>, base: seq<Value>, result: Value, called: bool, run: Run<W>)
    requires |kinds| == |base|
  {
    run.called == called && run.result == LastOverride(run.posts).GetOr(result) && Left(kinds, base, run.posts, run.args)
  }

  ghost predicate PostTold<W>(cs: seq<Callback<W>>, kinds: seq<nat>, base: seq<Value>, result: Value, called: bool,
        run: Run<W>)
    requires |kinds| == |base|
  {
    Posted(kinds, base, result, called, run) && AllPostSaw(cs, kinds, base, result, called, run.posts, run.trace)
  }

  lemma TookLeft(kinds: seq<nat>, base: seq<Value>, posts: seq<Entry>, e: Entry, before: seq<Value>)
    requires |kinds| == |base| && e.Took? && |e.args| == |kinds| && Left(kinds, base, posts, before)
    ensures Left(kinds, base, posts + [e],
                 if e.action == Override || e.action == Continue then CheckedArgs(kinds, e.args, before) else before)
  {
    assert (posts + [e])[..|posts|] == posts;
  }

  lemma PostSawStays(kinds: seq<nat>, base: seq<Value>, result: Value, called: bool, before: seq<Entry>, handle: nat,
        trace: seq<Event>, later: seq<Event>)
    requires |kinds| == |base| && PostSaw(kinds, base, result, called, before, handle, trace) && trace <= later
    ensures PostSaw(kinds, base, result, called, before, handle, later)
  {
    var args :| Left(kinds, base, before, args) && Entered(handle, Post, args, LastOverride(before).GetOr(result), called) in trace;
    assert Entered(handle, Post, args, LastOverride(before).GetOr(result), called) in later;
  }

  lemma PostStepTold<W>(cs: seq<Callback<W>>, base: seq<Value>, result: Value, called: bool, env: seq<Target<W>>,
        t: Target<W>, i: nat, run: Run<W>, room: nat)
    requires i < |cs| && |t.kinds| == |base| && PostTold(cs, t.kinds, base, result, called, run)
    ensures PostTold(cs, t.kinds, base, result, called, PostStep(env, t, cs[i], run, room))
  {
    var c, frame := cs[i], FrameOf(Post, run);
    var (action, f, after) := Invoke(env, t, c, frame, run, room);
    PostInvokeKeeps(env, t, c, run, room);
    InvokeGrows(env, t, c, frame, run, room);
    SettlePostTold(cs, base, result, called, t, i, run, action, f, after);
  }

  lemma PostInvokeKeeps<W>(env: seq<Target<W>>, t: Target<W>, c: Callback<W>, run: Run<W>, room: nat)
    ensures var after := Invoke(env, t, c, FrameOf(Post, run), run, room).2; after == run.(world := after.world, trace := after.trace)
  {
    if c.enabled {
      var frame := FrameOf(Post, run);
      var entered := Entered(c.handle, frame.phase, frame.args, frame.result, frame.called);
      PostBodyKeeps(env, t, c, 0, Ok, frame, run.(trace := run.trace + [entered]), room);
    }
  }

  lemma SettlePostTold<W>(cs: seq<Callback<W>>, base: seq<Value>, result: Value, called: bool, t: Target<W>, i: nat,
        run: Run<W>, action: Action, f: Frame, after: Run<W>)
    requires i < |cs| && |t.kinds| == |base| == |f.args| && PostTold(cs, t.kinds, base, result, called, run)
    requires after == run.(world := after.world, trace := after.trace) && run.trace <= after.trace
    requires cs[i].enabled ==> run.trace + [Entered(cs[i].handle, Post, run.args, run.result, run.called)] <= after.trace
    ensures PostTold(cs, t.kinds, base, result, called, SettlePost(t, cs[i], run, action, f, after))
  {
    var took := Took(cs[i].handle, action, if Legal(f.result, t.ret) then f.result else run.result, f.args, run.flag, f.recalled);
    SettlePosted(base, result, called, t, cs[i], run, action, f, after);
    PostStepSaw(cs, t.kinds, base, result, called, i, run, took, after.trace);
  }

  lemma SettlePosted<W>(base: seq<Value>, result: Value, called: bool, t: Target<W>, c: Callback<W>, run: Run<W>,
        action: Action, f: Frame, after: Run<W>)
    requires |t.kinds| == |base| == |f.args| && Posted(t.kinds, base, result, called, run)
    requires after == run.(world := after.world, trace := after.trace)
    ensures var next := SettlePost(t, c, run, action, f, after);
      && Posted(t.kinds, base, result, called, next) && next.trace == after.trace
      && next.posts == run.posts + [Took(c.handle, action, if Legal(f.result, t.ret) then f.result else run.result, f.args, run.flag, f.recalled)]
  {
    var took := Took(c.handle, action, if Legal(f.result, t.ret) then f.result else run.result, f.args, run.flag, f.recalled);
    TookLeft(t.kinds, base, run.posts, took, run.args);
    PostsAppend(run.posts, took);
  }

  lemma PostStepSaw<W>(cs: seq<Callback<W>>, kinds: seq<nat>, base: seq<Value>, result: Value, called: bool, i: nat,
        run: Run<W>, took: Entry, later: seq<Event>)
    requires i < |cs| && |kinds| == |base| && PostTold(cs, kinds, base, result, called, run) && took.Took? && took.handle == cs[i].handle
    requires run.trace <= later
    requires cs[i].enabled ==> run.trace + [Entered(cs[i].handle, Post, run.args, run.result, run.called)] <= later
    ensures AllPostSaw(cs, kinds, base, result, called, run.posts + [took], later)
  {
    var posts := run.posts + [took];
    forall j | 0 <= j < |posts|
      ensures posts[j].Took? && (PostSaw(kinds, base, result, called, posts[..j], posts[j].handle, later) || SwitchedOff(cs, posts[j].handle))
    {
      assert j <= |run.posts| && posts[..j] == run.posts[..j];
      if j < |run.posts| {
        assert posts[j] == run.posts[j];
        if PostSaw(kinds, base, result, called, run.posts[..j], run.posts[j].handle, run.trace) {
          PostSawStays(kinds, base, result, called, run.posts[..j], run.posts[j].handle, run.trace, later);
        }
      } else if cs[i].enabled {
        assert run.posts[..j] == run.posts;
        assert later[|run.trace|] == Entered(cs[i].handle, Post, run.args, run.result, run.called);
      }
    }
  }

  lemma {:induction false} PostLoopTold<W>(base: seq<Value>, result: Value, called: bool, env: seq<Target<W>>,
        t: Target<W>, cs: seq<Callback<W>>, n: nat, run: Run<W>, room: nat)
    requires n <= |cs| && |t.kinds| == |base| && PostTold(cs, t.kinds, base, result, called, run)
    ensures PostTold(cs, t.kinds, base, result, called, PostLoop(env, t, cs, n, run, room))
    decreases n
  {
    if n > 0 {
      var next := PostAskTold(base, result, called, env, t, cs, n, run, room);
      PostLoopTold(base, result, called, env, t, cs, n - 1, next, room);
    }
  }

  lemma PostAskTold<W>(base: seq<Value>, result: Value, called: bool, env: seq<Target<W>>, t: Target<W>,
        cs: seq<Callback<W>>, n: nat, run: Run<W>, room: nat) returns (next: Run<W>)
    requires 0 < n <= |cs| && |t.kinds| == |base| && PostTold(cs, t.kinds, base, result, called, run)
    ensures PostTold(cs, t.kinds, base, result, called, next)
    ensures PostLoop(env, t, cs, n, run, room) == PostLoop(env, t, cs, n - 1, next, room)
  {
    next := run;
    if cs[n - 1].post {
      PostStepTold(cs, base, result, called, env, t, n - 1, run, room);
      next := PostStep(env, t, cs[n - 1], run, room);
    }
    PostLoopUnfolds(env, t, cs, n, run, room, next);
  }

  // ---- the whole dispatch ----

  /** The original's event, its value and the world it ran in: exactly when no callback called, recalled or superseded. */
  ghost predicate OriginalGot<W>(t: Target<W>, pre: Run<W>, args: seq<Value>, ledger: seq<Entry>, trace: seq<Event>) {
    if Called(pre.ledger) || Superseded(pre.ledger) then ledger == pre.ledger
    else
      var v := Value(t.ret, 0, t.original(args, pre.world).0);
      && ledger == pre.ledger + [Ran(true, v)]
      && |pre.trace| < |trace| && trace[..|pre.trace|] == pre.trace && trace[|pre.trace|] == Original(args, v)
  }

  /**
    Each callback finds what was written and decided before it; the original, if nobody called it, recalled or
    superseded, runs on exactly `args`; and POST starts from them and from what the ledger says was decided.
   */
  ghost predicate Framed<W>(cs: seq<Callback<W>>, t: Target<W>, native: seq<Value>, seed: Option<Value>, pre: Run<W>,
        args: seq<Value>, ledger: seq<Entry>, posts: seq<Entry>, trace: seq<Event>)
    requires |args| == |t.kinds|
  {
    && AllPreSaw(cs, t, native, seed, ledger, trace)
    && OriginalGot(t, pre, args, ledger, trace)
    && (pre.recalled || AllPostSaw(cs, t.kinds, args, Verdict(seed.Some?, ledger).GetOr(seed.GetOr(Zero(t.ret))), Called(ledger),
                                   posts, trace))
  }

  lemma ImplicitGot<W>(cs: seq<Callback<W>>, native: seq<Value>, seed: Option<Value>, t: Target<W>, pre: Run<W>)
    requires Told(cs, t, native, seed, pre)
    ensures var after := Implicit(t, pre);
      && OriginalGot(t, pre, pre.args, after.ledger, after.trace)
      && Kept(seed, Zero(t.ret), after) && after.args == pre.args && pre.trace <= after.trace && pre.ledger <= after.ledger
  {
    GivenTyped(t.kinds, native, pre.ledger, pre.args);
    ImplicitKeeps(seed, t, pre);
  }

  lemma RanSaw<W>(cs: seq<Callback<W>>, t: Target<W>, native: seq<Value>, seed: Option<Value>, pre: Run<W>,
        ledger: seq<Entry>,
        trace: seq<Event>)
    requires AllPreSaw(cs, t, native, seed, pre.ledger, pre.trace) && pre.trace <= trace
    requires ledger == pre.ledger || (exists v :: ledger == pre.ledger + [Ran(true, v)])
    ensures AllPreSaw(cs, t, native, seed, ledger, trace)
  {
    forall j | 0 <= j < |ledger| && ledger[j].Took?
      ensures PreSaw(t, native, seed, ledger[..Before(ledger, j)], ledger[j].handle, trace) || SwitchedOff(cs, ledger[j].handle)
    {
      SawStays(cs, t, native, seed, pre.ledger, ledger, pre.trace, trace, j);
    }
  }

  /** The dispatch from its first PRE callback on. */
  lemma RestTold<W>(native: seq<Value>, seed: Option<Value>, env: seq<Target<W>>, t: Target<W>, cs: seq<Callback<W>>,
        i: nat,
        run: Run<W>, room: nat) returns (pre: Run<W>)
    requires i <= |cs| && Told(cs, t, native, seed, run)
    ensures pre == PreLoop(env, t, cs, i, run, room) && Given(t.kinds, native, pre.ledger, pre.args)
    ensures var last := Rest(env, t, cs, i, run, room);
      Framed(cs, t, native, seed, pre, pre.args, last.ledger, last.posts, last.trace)
  {
    PreLoopTold(native, seed, env, t, cs, i, run, room);
    pre := PreLoop(env, t, cs, i, run, room);
    if !pre.recalled {
      var mid := Implicit(t, pre);
      ImplicitGot(cs, native, seed, t, pre);
      PostLoopTold(pre.args, mid.result, mid.called, env, t, cs, |cs|, mid, room);
      PostLoopKeeps(mid.result, env, t, cs, |cs|, mid, room);
      PostLoopGrows(env, t, cs, |cs|, mid, room);
      RanSaw(cs, t, native, seed, pre, mid.ledger, Rest(env, t, cs, i, run, room).trace);
    }
  }

  /**
    One call of a hooked function below the limit: what its callbacks and its original are given. `args` are
    the native arguments as last legally written by the PRE callbacks.
   */
  lemma FramesAreTold<W>(env: seq<Target<W>>, t: Target<W>, seed: Option<Seed>, native: seq<Value>, room: nat, world: W,
        trace: seq<Event>) returns (pre: Run<W>, args: seq<Value>)
    requires room > 0
    ensures Given(t.kinds, native, pre.ledger, args)
    ensures var out := Dispatch(env, t, seed, native, room, world, trace);
      Framed(Sorted(t.callbacks), t, native, SeedValue(seed), pre, args, out.ledger, out.posts, out.trace)
  {
    var last;
    pre, last := StartedFramed(env, t, seed, native, room - 1, world, trace);
    args := pre.args;
    SameFramed(Sorted(t.callbacks), t, native, SeedValue(seed), pre, args, last, Dispatch(env, t, seed, native, room, world, trace));
  }

  lemma StartedFramed<W>(env: seq<Target<W>>, t: Target<W>, seed: Option<Seed>, native: seq<Value>, room: nat, world: W,
        trace: seq<Event>) returns (pre: Run<W>, last: Run<W>)
    ensures Dispatch(env, t, seed, native, room + 1, world, trace) ==
      Outcome(last.result, last.world, last.trace, last.ledger, last.posts)
    ensures Given(t.kinds, native, pre.ledger, pre.args)
    ensures Framed(Sorted(t.callbacks), t, native, SeedValue(seed), pre, pre.args, last.ledger, last.posts, last.trace)
  {
    var cs := Sorted(t.callbacks);
    var start := if seed.Some? then StartAfter(cs, seed.value.from) else 0;
    var run := Start(t, seed, native, world, trace);
    last := Rest(env, t, cs, start, run, room);
    DispatchUnfolds(env, t, seed, native, room + 1, world, trace, last);
    StartTold(t, seed, native, world, trace);
    pre := RestTold(native, SeedValue(seed), env, t, cs, start, run, room);
  }

  lemma SameFramed<W>(cs: seq<Callback<W>>, t: Target<W>, native: seq<Value>, seed: Option<Value>, pre: Run<W>,
        args: seq<Value>, last: Run<W>, out: Outcome<W>)
    requires |args| == |t.kinds| && Framed(cs, t, native, seed, pre, args, last.ledger, last.posts, last.trace)
    requires out.ledger == last.ledger && out.posts == last.posts && out.trace == last.trace
    ensures Framed(cs, t, native, seed, pre, args, out.ledger, out.posts, out.trace)
  {
  }

  /** At the limit there is nothing but one call of the original, on the native arguments. */
  lemma LimitRunsOriginal<W>(env: seq<Target<W>>, t: Target<W>, seed: Option<Seed>, native: seq<Value>, world: W,
        trace: seq<Event>) returns (args: seq<Value>)
    ensures Given(t.kinds, native, [], args)
    ensures var out, v := Dispatch(env, t, seed, native, 0, world, trace), Value(t.ret, 0, t.original(args, world).0);
      out == Outcome(v, t.original(args, world).1, trace + [Original(args, v)], [Ran(true, v)], [])
  {
    args := Retype(t.kinds, native);
    GivenTyped(t.kinds, native, [], args);
  }
}
