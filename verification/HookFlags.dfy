/**
  The RECALLED flag; what callbacks that only look do to a call: they find it as it is, in order, and leave it
  as it is; and what a callback that asks for nothing changes.
 */
module HookFlags {
  import opened Options
  import opened HookDispatch
  import opened HookLaws
  import opened HookFrames

  // ---- the RECALLED flag ----

  /** The flag after these entries: as the last callback left it, at first whether the dispatch is a recall. */
  function FlagAfter(recall: bool, l: seq<Entry>): bool {
    if l == [] then recall else if l[|l| - 1].Took? then l[|l| - 1].left else FlagAfter(recall, l[..|l| - 1])
  }

  ghost predicate FlagsFound(recall: bool, l: seq<Entry>) {
    forall j :: 0 <= j < |l| && l[j].Took? ==> l[j].found == FlagAfter(recall, l[..j])
  }

  lemma FoundAppend(recall: bool, l: seq<Entry>, e: Entry)
    requires FlagsFound(recall, l) && (e.Took? ==> e.found == FlagAfter(recall, l))
    ensures FlagsFound(recall, l + [e]) && FlagAfter(recall, l + [e]) == if e.Took? then e.left else FlagAfter(recall, l)
  {
    var more := l + [e];
    assert more[..|l|] == l;
    forall j | 0 <= j < |more| && more[j].Took?
      ensures more[j].found == FlagAfter(recall, more[..j])
    {
      assert more[..j] == l[..j];
    }
  }

  ghost predicate PreFlagged<W>(recall: bool, run: Run<W>) {
    run.flag == FlagAfter(recall, run.ledger) && FlagsFound(recall, run.ledger)
  }

  lemma PreStepFlagged<W>(recall: bool, env: seq<Target<W>>, t: Target<W>, c: Callback<W>, run: Run<W>, room: nat)
    requires |run.args| == |t.kinds| && PreFlagged(recall, run)
    ensures PreFlagged(recall, PreStep(env, t, c, run, room))
  {
    var (action, f, after) := Invoke(env, t, c, FrameOf(Pre, run), run, room);
    InvokeAdds(env, t, c, run, room);
    if after.ledger != run.ledger {
      var e := after.ledger[|run.ledger|];
      assert after.ledger == run.ledger + [e];
      FoundAppend(recall, run.ledger, e);
    }
    var took := Took(c.handle, action, if Legal(f.result, t.ret) then f.result else run.result, f.args, run.flag, f.recalled);
    FoundAppend(recall, after.ledger, took);
  }

  lemma {:induction false} PreLoopFlagged<W>(recall: bool, env: seq<Target<W>>, t: Target<W>, cs: seq<Callback<W>>,
        i: nat, run: Run<W>, room: nat)
    requires i <= |cs| && |run.args| == |t.kinds| && PreFlagged(recall, run)
    ensures PreFlagged(recall, PreLoop(env, t, cs, i, run, room))
    decreases |cs| - i
  {
    if i < |cs| {
      var next := run;
      if cs[i].pre {
        PreStepFlagged(recall, env, t, cs[i], run, room);
        next := PreStep(env, t, cs[i], run, room);
      }
      if !(cs[i].pre && next.recalled) {
        PreLoopFlagged(recall, env, t, cs, i + 1, next, room);
      }
    }
  }

  ghost predicate PostFlagged<W>(base: bool, ledger: seq<Entry>, run: Run<W>) {
    run.flag == FlagAfter(base, run.posts) && FlagsFound(base, run.posts) && run.ledger == ledger
  }

  lemma PostStepFlagged<W>(base: bool, ledger: seq<Entry>, env: seq<Target<W>>, t: Target<W>, c: Callback<W>,
        run: Run<W>, room: nat)
    requires |run.args| == |t.kinds| && PostFlagged(base, ledger, run)
    ensures PostFlagged(base, ledger, PostStep(env, t, c, run, room))
  {
    var (action, f, after) := Invoke(env, t, c, FrameOf(Post, run), run, room);
    PostInvokeKeeps(env, t, c, run, room);
    var took := Took(c.handle, action, if Legal(f.result, t.ret) then f.result else run.result, f.args, run.flag, f.recalled);
    FoundAppend(base, run.posts, took);
  }

  lemma {:induction false} PostLoopFlagged<W>(base: bool, ledger: seq<Entry>, env: seq<Target<W>>, t: Target<W>,
        cs: seq<Callback<W>>, n: nat, run: Run<W>, room: nat)
    requires n <= |cs| && |run.args| == |t.kinds| && PostFlagged(base, ledger, run)
    ensures PostFlagged(base, ledger, PostLoop(env, t, cs, n, run, room))
    decreases n
  {
    if n > 0 {
      var next := run;
      if cs[n - 1].post {
        PostStepFlagged(base, ledger, env, t, cs[n - 1], run, room);
        next := PostStep(env, t, cs[n - 1], run, room);
      }
      PostLoopUnfolds(env, t, cs, n, run, room, next);
      PostLoopFlagged(base, ledger, env, t, cs, n - 1, next, room);
    }
  }

  lemma ImplicitFlagged<W>(recall: bool, t: Target<W>, pre: Run<W>)
    requires PreFlagged(recall, pre)
    ensures PreFlagged(recall, Implicit(t, pre)) && Implicit(t, pre).posts == pre.posts
  {
    if !(pre.superseded || pre.called) {
      FoundAppend(recall, pre.ledger, Ran(true, RunOriginal(t, pre.args, pre.world).0));
    }
  }

  lemma {:induction false} PreLoopPosts<W>(env: seq<Target<W>>, t: Target<W>, cs: seq<Callback<W>>, i: nat,
        run: Run<W>, room: nat)
    requires i <= |cs| && |run.args| == |t.kinds|
    ensures PreLoop(env, t, cs, i, run, room).posts == run.posts
    decreases |cs| - i
  {
    if i < |cs| {
      var next := run;
      if cs[i].pre {
        PreStepPosts(env, t, cs[i], run, room);
        next := PreStep(env, t, cs[i], run, room);
      }
      if !(cs[i].pre && next.recalled) {
        PreLoopPosts(env, t, cs, i + 1, next, room);
      }
    }
  }

  lemma PreStepPosts<W>(env: seq<Target<W>>, t: Target<W>, c: Callback<W>, run: Run<W>, room: nat)
    requires |run.args| == |t.kinds|
    ensures PreStep(env, t, c, run, room).posts == run.posts
  {
    if c.enabled {
      var frame := FrameOf(Pre, run);
      var entered := Entered(c.handle, frame.phase, frame.args, frame.result, frame.called);
      BodyPosts(env, t, c, 0, Ok, frame, run.(trace := run.trace + [entered]), room);
    }
  }

  lemma {:induction false} BodyPosts<W>(env: seq<Target<W>>, t: Target<W>, c: Callback<W>, k: nat, reply: Reply,
        frame: Frame, run: Run<W>, room: nat)
    requires k <= c.budget
    ensures Body(env, t, c, k, reply, frame, run, room).2.posts == run.posts
    decreases c.budget + 1 - k
  {
    var (next, f, r) := Moved(c, k, reply, frame, run);
    BodyUnfolds(env, t, c, k, reply, frame, run, room);
    if next.Ask? && k < c.budget {
      var (answer, f', r') := Serve(env, t, c, next.own, next.control, f, r, room);
      BodyPosts(env, t, c, k + 1, answer, f', r', room);
    }
  }

  /** Every callback finds the RECALLED flag as the one before it left it, the first as the dispatch is a recall or not. */
  lemma FlagsAreTold<W>(env: seq<Target<W>>, t: Target<W>, seed: Option<Seed>, native: seq<Value>, room: nat, world: W,
        trace: seq<Event>)
    requires room > 0
    ensures var out := Dispatch(env, t, seed, native, room, world, trace);
      FlagsFound(seed.Some?, out.ledger) && FlagsFound(FlagAfter(seed.Some?, out.ledger), out.posts)
  {
    var cs := Sorted(t.callbacks);
    var start := if seed.Some? then StartAfter(cs, seed.value.from) else 0;
    var run := Start(t, seed, native, world, trace);
    var pre := PreLoop(env, t, cs, start, run, room - 1);
    PreLoopFlagged(seed.Some?, env, t, cs, start, run, room - 1);
    PreLoopPosts(env, t, cs, start, run, room - 1);
    var last := Rest(env, t, cs, start, run, room - 1);
    DispatchUnfolds(env, t, seed, native, room, world, trace, last);
    if !pre.recalled {
      var mid := Implicit(t, pre);
      ImplicitFlagged(seed.Some?, t, pre);
      PostLoopFlagged(FlagAfter(seed.Some?, mid.ledger), mid.ledger, env, t, cs, |cs|, mid, room - 1);
    }
  }

  // ---- callbacks that only look ----

  /** Whatever it is asked, the callback leaves its frame alone and continues; its own state may change. */
  ghost predicate Looks<W(!new)>(c: Callback<W>) {
    forall k, f, r, w :: var m := c.body(k, f, r, w);
      m.args == f.args && m.result == f.result && m.recalled == f.recalled && m.next == Done(Continue)
  }

  ghost predicate AllLook<W(!new)>(cs: seq<Callback<W>>) {
    forall c :: c in cs ==> Looks(c)
  }

  /** One look at this frame: what can be seen of it, and what the callback makes of its state. */
  function Look<W>(c: Callback<W>, frame: Frame, at: (W, seq<Event>)): (W, seq<Event>) {
    if c.enabled then
      (c.body(0, frame, Ok, at.0).world, at.1 + [Entered(c.handle, frame.phase, frame.args, frame.result, frame.called)])
    else at
  }

  function LookPre<W>(cs: seq<Callback<W>>, i: nat, frame: Frame, at: (W, seq<Event>)): (W, seq<Event>)
    requires i <= |cs|
    decreases |cs| - i
  {
    if i == |cs| then at else LookPre(cs, i + 1, frame, if cs[i].pre then Look(cs[i], frame, at) else at)
  }

  function LookPost<W>(cs: seq<Callback<W>>, n: nat, frame: Frame, at: (W, seq<Event>)): (W, seq<Event>)
    requires n <= |cs|
  {
    if n == 0 then at else LookPost(cs, n - 1, frame, if cs[n - 1].post then Look(cs[n - 1], frame, at) else at)
  }

  /** The run is as its frame says, and nobody decided anything. */
  ghost predicate Undisturbed<W>(kinds: seq<nat>, frame: Frame, overridden: bool, run: Run<W>) {
    && FrameOf(frame.phase, run) == frame && run.overridden == overridden && !run.superseded && !run.recalled
    && |frame.args| == |kinds| && forall i :: 0 <= i < |kinds| ==> Legal(frame.args[i], kinds[i])
  }

  lemma LookInvokes<W(!new)>(env: seq<Target<W>>, t: Target<W>, c: Callback<W>, frame: Frame, run: Run<W>, room: nat)
    requires Looks(c)
    ensures var at := Look(c, frame, (run.world, run.trace));
      Invoke(env, t, c, frame, run, room) == (Continue, frame, run.(world := at.0, trace := at.1))
  {
    if c.enabled {
      var entered := Entered(c.handle, frame.phase, frame.args, frame.result, frame.called);
      var shown := run.(trace := run.trace + [entered]);
      assert c.body(0, frame, Ok, run.world).next == Done(Continue);
      assert Written(frame.args, frame.args) == frame.args;
      BodyUnfolds(env, t, c, 0, Ok, frame, shown, room);
    }
  }

  lemma CheckedSame(kinds: seq<nat>, args: seq<Value>)
    requires |args| == |kinds|
    ensures CheckedArgs(kinds, args, args) == args
  {
  }

  lemma LookPreSteps<W(!new)>(env: seq<Target<W>>, t: Target<W>, c: Callback<W>, frame: Frame, overridden: bool,
        run: Run<W>, room: nat)
    requires Looks(c) && frame.phase == Pre && Undisturbed(t.kinds, frame, overridden, run)
    ensures var next := PreStep(env, t, c, run, room);
      Undisturbed(t.kinds, frame, overridden, next) && (next.world, next.trace) == Look(c, frame, (run.world, run.trace))
  {
    LookInvokes(env, t, c, frame, run, room);
    CheckedSame(t.kinds, frame.args);
  }

  lemma LookPostSteps<W(!new)>(env: seq<Target<W>>, t: Target<W>, c: Callback<W>, frame: Frame, overridden: bool,
        run: Run<W>, room: nat)
    requires Looks(c) && frame.phase == Post && Undisturbed(t.kinds, frame, overridden, run)
    ensures var next := PostStep(env, t, c, run, room);
      Undisturbed(t.kinds, frame, overridden, next) && (next.world, next.trace) == Look(c, frame, (run.world, run.trace))
  {
    LookInvokes(env, t, c, frame, run, room);
    CheckedSame(t.kinds, frame.args);
  }

  lemma {:induction false} LookPreLoops<W(!new)>(env: seq<Target<W>>, t: Target<W>, cs: seq<Callback<W>>, i: nat,
        frame: Frame, overridden: bool, run: Run<W>, room: nat)
    requires i <= |cs| && AllLook(cs) && frame.phase == Pre && Undisturbed(t.kinds, frame, overridden, run)
    ensures var last := PreLoop(env, t, cs, i, run, room);
      && Undisturbed(t.kinds, frame, overridden, last)
      && (last.world, last.trace) == LookPre(cs, i, frame, (run.world, run.trace))
    decreases |cs| - i
  {
    if i < |cs| {
      assert cs[i] in cs;
      var next := run;
      if cs[i].pre {
        LookPreSteps(env, t, cs[i], frame, overridden, run, room);
        next := PreStep(env, t, cs[i], run, room);
      }
      PreLoopUnfolds(env, t, cs, i, run, room, next);
      LookPreLoops(env, t, cs, i + 1, frame, overridden, next, room);
    }
  }

  lemma {:induction false} LookPostLoops<W(!new)>(env: seq<Target<W>>, t: Target<W>, cs: seq<Callback<W>>, n: nat,
        frame: Frame, overridden: bool, run: Run<W>, room: nat)
    requires n <= |cs| && AllLook(cs) && frame.phase == Post && Undisturbed(t.kinds, frame, overridden, run)
    ensures var last := PostLoop(env, t, cs, n, run, room);
      && Undisturbed(t.kinds, frame, overridden, last)
      && (last.world, last.trace) == LookPost(cs, n, frame, (run.world, run.trace))
    decreases n
  {
    if n > 0 {
      assert cs[n - 1] in cs;
      var next := run;
      if cs[n - 1].post {
        LookPostSteps(env, t, cs[n - 1], frame, overridden, run, room);
        next := PostStep(env, t, cs[n - 1], run, room);
      }
      PostLoopUnfolds(env, t, cs, n, run, room, next);
      LookPostLoops(env, t, cs, n - 1, frame, overridden, next, room);
    }
  }

  /** The original, called on these arguments in this state, gives this outcome; an overridden result stays. */
  function Through<W>(t: Target<W>, cs: seq<Callback<W>>, start: nat, args: seq<Value>, recall: bool,
        overridden: Option<Value>, at: (W, seq<Event>)): (Value, (W, seq<Event>))
    requires start <= |cs|
  {
    var pre := LookPre(cs, start, Frame(Pre, recall, false, args, overridden.GetOr(Value(t.ret, 0, 0))), at);
    var v := Value(t.ret, 0, t.original(args, pre.0).0);
    var result := overridden.GetOr(v);
    (result, LookPost(cs, |cs|, Frame(Post, recall, true, args, result), (t.original(args, pre.0).1, pre.1 + [Original(args, v)])))
  }

  /**
    When all callbacks only look, the call is the original's: its value on the native arguments, in between
    each callback in its order, with the same frame for all before the original and for all after it.
   */
  lemma LookersPass<W(!new)>(env: seq<Target<W>>, t: Target<W>, seed: Option<Seed>, native: seq<Value>, room: nat,
        world: W, trace: seq<Event>) returns (args: seq<Value>)
    requires room > 0 && AllLook(t.callbacks)
    ensures Given(t.kinds, native, [], args)
    ensures var out, cs := Dispatch(env, t, seed, native, room, world, trace), Sorted(t.callbacks);
      (out.value, (out.world, out.trace)) ==
        Through(t, cs, if seed.Some? then StartAfter(cs, seed.value.from) else 0, args, seed.Some?, SeedValue(seed), (world, trace))
  {
    var cs := Sorted(t.callbacks);
    var start := if seed.Some? then StartAfter(cs, seed.value.from) else 0;
    var run := Start(t, seed, native, world, trace);
    args := StartUndisturbed(t, seed, native, world, trace);
    SortedLook(t.callbacks);
    var last := Rest(env, t, cs, start, run, room - 1);
    DispatchUnfolds(env, t, seed, native, room, world, trace, last);
    RestPasses(env, t, cs, start, args, seed.Some?, SeedValue(seed), run, room - 1);
  }

  lemma StartUndisturbed<W>(t: Target<W>, seed: Option<Seed>, native: seq<Value>, world: W, trace: seq<Event>)
        returns (args: seq<Value>)
    ensures Given(t.kinds, native, [], args) && |args| == |t.kinds| && Retype(t.kinds, args) == args
    ensures var run := Start(t, seed, native, world, trace);
      && |run.args| == |t.kinds| && run.world == world && run.trace == trace
      && Undisturbed(t.kinds, Frame(Pre, seed.Some?, false, args, SeedValue(seed).GetOr(Value(t.ret, 0, 0))), SeedValue(seed).Some?, run)
  {
    args := Retype(t.kinds, native);
    GivenTyped(t.kinds, native, [], args);
  }

  lemma SortedLook<W(!new)>(cs: seq<Callback<W>>)
    requires AllLook(cs)
    ensures AllLook(Sorted(cs))
  {
    SortedOrdered(cs);
    forall c | c in Sorted(cs)
      ensures Looks(c)
    {
      assert c in multiset(Sorted(cs));
      assert c in cs;
    }
  }

  lemma RestPasses<W(!new)>(env: seq<Target<W>>, t: Target<W>, cs: seq<Callback<W>>, start: nat, args: seq<Value>,
        recall: bool, overridden: Option<Value>, run: Run<W>, room: nat)
    requires start <= |cs| && AllLook(cs) && |run.args| == |t.kinds| && Retype(t.kinds, args) == args
    requires Undisturbed(t.kinds, Frame(Pre, recall, false, args, overridden.GetOr(Value(t.ret, 0, 0))), overridden.Some?, run)
    ensures var last := Rest(env, t, cs, start, run, room);
      (last.result, (last.world, last.trace)) == Through(t, cs, start, args, recall, overridden, (run.world, run.trace))
  {
    var before := Frame(Pre, recall, false, args, overridden.GetOr(Value(t.ret, 0, 0)));
    LookPreLoops(env, t, cs, start, before, overridden.Some?, run, room);
    var pre := PreLoop(env, t, cs, start, run, room);
    var mid := Implicit(t, pre);
    var after := Frame(Post, recall, true, args, mid.result);
    LookPostLoops(env, t, cs, |cs|, after, overridden.Some?, mid, room);
  }

  // ---- callbacks that ask for nothing ----

  /** What a PRE callback did that returned at once: its legal arguments count unless its action is invalid, its result if it decides. */
  ghost predicate PreDid<W>(t: Target<W>, run: Run<W>, m: Move<W>, next: Run<W>)
    requires |run.args| == |t.kinds| == |next.args| && m.next.Done?
  {
    var action := m.next.action;
    && next.world == m.world && next.flag == m.recalled && next.called == run.called && next.recalled == run.recalled
    && (forall i :: 0 <= i < |t.kinds| ==>
          next.args[i] == (if action != Invalid && i < |m.args| && Legal(m.args[i], t.kinds[i]) then m.args[i] else run.args[i]))
    && next.result == (if (action == Supersede || (action == Override && !run.superseded)) && Legal(m.result, t.ret) then m.result
                       else run.result)
    && next.overridden == (run.overridden || action == Supersede || (action == Override && !run.superseded))
    && next.superseded == (run.superseded || action == Supersede)
  }

  lemma PreReturns<W>(env: seq<Target<W>>, t: Target<W>, c: Callback<W>, run: Run<W>, room: nat, m: Move<W>)
    requires |run.args| == |t.kinds| && (forall i :: 0 <= i < |t.kinds| ==> Legal(run.args[i], t.kinds[i])) && c.enabled
    requires m == c.body(0, Frame(Pre, run.flag, run.called, run.args, run.result), Ok, run.world) && m.next.Done?
    ensures PreDid(t, run, m, PreStep(env, t, c, run, room))
  {
    var frame := FrameOf(Pre, run);
    var shown := run.(trace := run.trace + [Entered(c.handle, Pre, run.args, run.result, run.called)]);
    BodyUnfolds(env, t, c, 0, Ok, frame, shown, room);
    WrittenLegal(t.kinds, run.args, m.args);
  }

  /** What a POST callback did: its legal arguments count if it continues or overrides, its result if it overrides. */
  ghost predicate PostDid<W>(t: Target<W>, run: Run<W>, m: Move<W>, next: Run<W>)
    requires |run.args| == |t.kinds| == |next.args| && m.next.Done?
  {
    var action := m.next.action;
    && next.world == m.world && next.flag == m.recalled && next.ledger == run.ledger
    && (forall i :: 0 <= i < |t.kinds| ==>
          next.args[i] == (if (action == Override || action == Continue) && i < |m.args| && Legal(m.args[i], t.kinds[i]) then m.args[i]
                           else run.args[i]))
    && next.result == (if action == Override && Legal(m.result, t.ret) then m.result else run.result)
  }

  lemma PostReturns<W>(env: seq<Target<W>>, t: Target<W>, c: Callback<W>, run: Run<W>, room: nat, m: Move<W>)
    requires |run.args| == |t.kinds| && (forall i :: 0 <= i < |t.kinds| ==> Legal(run.args[i], t.kinds[i])) && c.enabled
    requires m == c.body(0, Frame(Post, run.flag, run.called, run.args, run.result), Ok, run.world) && m.next.Done?
    ensures PostDid(t, run, m, PostStep(env, t, c, run, room))
  {
    var frame := FrameOf(Post, run);
    var shown := run.(trace := run.trace + [Entered(c.handle, Post, run.args, run.result, run.called)]);
    BodyUnfolds(env, t, c, 0, Ok, frame, shown, room);
    WrittenLegal(t.kinds, run.args, m.args);
  }

  lemma WrittenLegal(kinds: seq<nat>, before: seq<Value>, written: seq<Value>)
    requires |before| == |kinds| && forall i :: 0 <= i < |kinds| ==> Legal(before[i], kinds[i])
    ensures forall i :: 0 <= i < |kinds| ==>
              CheckedArgs(kinds, Written(before, written), before)[i] ==
              (if i < |written| && Legal(written[i], kinds[i]) then written[i] else before[i])
  {
  }
}
