/**
  Why transparency of recalls needs room, and exactly as much as it asks for: with one entry of the target
  stack less, the recalls cost another callback the hooks of the function it calls.
 */
module HookDepth {
  import opened Options
  import opened HookConduct
  import opened HookDispatch
  import opened HookRecall

  function Always(k: nat, f: Frame, r: Reply, w: int): Move<int> {
    Move(f.args, Value(0, 0, 1), f.recalled, Done(Override), w)
  }

  function Recalling(k: nat, f: Frame, r: Reply, w: int): Move<int> {
    Move(f.args, f.result, f.recalled, if k == 0 && f.phase == Pre then Ask(true, Recall) else Done(Continue), w)
  }

  function Calling(k: nat, f: Frame, r: Reply, w: int): Move<int> {
    if k == 0 then Move(f.args, f.result, f.recalled, Ask(true, Reenter(0, [])), w)
    else Move(f.args, if r.Returned? then r.value else f.result, f.recalled, Done(Override), w)
  }

  function Nothing(args: seq<Value>, w: int): (int, int) {
    (0, w)
  }

  /** Overrides with 1. */
  const OVERRIDER: Callback<int> := Callback(0, 1, 0, 0, true, false, true, 0, Always)

  const CALLED: Target<int> := Target([], 0, true, [OVERRIDER], Nothing)
  const HOOKED: seq<Target<int>> := [CALLED]

  /** Recalls and continues. */
  function RecallerAt(i: nat): Callback<int> {
    Callback(i + 1, 1, 0, i, true, false, true, 1, Recalling)
  }

  /** Calls the hooked function and overrides with what that returned. */
  function CallerAt(n: nat): Callback<int> {
    Callback(0, 1, 0, n, true, false, true, 1, Calling)
  }

  /** `n` callbacks that recall, then one that calls the hooked function. */
  function Resigning(n: nat): (cs: seq<Callback<int>>)
    ensures |cs| == n + 1 && cs[n] == CallerAt(n) && forall i :: 0 <= i < n ==> cs[i] == RecallerAt(i)
  {
    seq(n + 1, i requires 0 <= i <= n => if i < n then RecallerAt(i) else CallerAt(n))
  }

  function Continuing(n: nat): (cs: seq<Callback<int>>)
    ensures |cs| == n + 1 && cs[n] == CallerAt(n) && forall i :: 0 <= i < n ==> cs[i] == Plain(RecallerAt(i))
  {
    seq(n + 1, i requires 0 <= i <= n => if i < n then Plain(RecallerAt(i)) else CallerAt(n))
  }

  function WithRecalls(n: nat): Target<int> {
    Target([], 0, true, Resigning(n), Nothing)
  }

  function Without(n: nat): Target<int> {
    Target([], 0, true, Continuing(n), Nothing)
  }

  // ---- the hooked function ----

  lemma CalledAtLimit(w: int, trace: seq<Event>)
    ensures Dispatch(HOOKED, CALLED, None, [], 0, w, trace).value == Value(0, 0, 0)
  {
  }

  ghost predicate NoPost(cs: seq<Callback<int>>) {
    forall i :: 0 <= i < |cs| ==> !cs[i].post
  }

  /** The rest of a dispatch whose callbacks are all asked and that is overridden. */
  lemma RestOverridden(t: Target<int>, cs: seq<Callback<int>>, run: Run<int>, room: nat)
    requires |run.args| == |t.kinds| && run.overridden && !run.recalled && NoPost(cs)
    ensures Rest(HOOKED, t, cs, |cs|, run, room).result == run.result
  {
    NoPosts(t, cs, |cs|, Implicit(t, run), room);
  }

  lemma {:induction false} NoPosts(t: Target<int>, cs: seq<Callback<int>>, n: nat, run: Run<int>, room: nat)
    requires n <= |cs| && |run.args| == |t.kinds| && NoPost(cs)
    ensures PostLoop(HOOKED, t, cs, n, run, room) == run
  {
    if n > 0 {
      PostLoopUnfolds(HOOKED, t, cs, n, run, room, run);
      NoPosts(t, cs, n - 1, run, room);
    }
  }

  lemma CalledWithRoom(room: nat, w: int, trace: seq<Event>)
    requires room > 0
    ensures Dispatch(HOOKED, CALLED, None, [], room, w, trace).value == Value(0, 0, 1)
  {
    var run := Start(CALLED, None, [], w, trace);
    var cs := [OVERRIDER];
    assert Sorted(CALLED.callbacks) == cs;
    InvokeUnfolds(HOOKED, CALLED, OVERRIDER, FrameOf(Pre, run), run, room - 1);
    LastMove(HOOKED, CALLED, OVERRIDER, 0, Ok, FrameOf(Pre, run), Started(OVERRIDER, FrameOf(Pre, run), run), room - 1);
    var next := PreStep(HOOKED, CALLED, OVERRIDER, run, room - 1);
    assert next.result == Value(0, 0, 1) && next.overridden && !next.recalled;
    RestUnfolds(HOOKED, CALLED, cs, 0, run, room - 1, next);
    RestOverridden(CALLED, cs, next, room - 1);
    DispatchUnfolds(HOOKED, CALLED, None, [], room, w, trace, Rest(HOOKED, CALLED, cs, 0, run, room - 1));
  }

  function Answer(room: nat): Value {
    Value(0, 0, if room == 0 then 0 else 1)
  }

  lemma CalledValue(room: nat, w: int, trace: seq<Event>)
    ensures Dispatch(HOOKED, CALLED, None, [], room, w, trace).value == Answer(room)
  {
    if room == 0 {
      CalledAtLimit(w, trace);
    } else {
      CalledWithRoom(room, w, trace);
    }
  }

  // ---- the callbacks ----

  /** Nothing happened yet but for calls that left no trace in the dispatch. */
  predicate Clean(run: Run<int>) {
    run.args == [] && !run.called && !run.overridden && !run.superseded && !run.recalled
  }

  /** The caller overrides with what the function it calls returned at this depth. */
  lemma CallerStep(t: Target<int>, n: nat, run: Run<int>, room: nat) returns (next: Run<int>)
    requires t.kinds == [] && t.ret == 0 && Clean(run)
    ensures next == PreStep(HOOKED, t, CallerAt(n), run, room)
    ensures next.overridden && !next.recalled && next.result == Answer(room) && |next.args| == 0
  {
    var c, frame := CallerAt(n), FrameOf(Pre, run);
    var started := Started(c, frame, run);
    var (_, f, r) := Moved(c, 0, Ok, frame, started);
    var out := Dispatch(HOOKED, CALLED, None, [], room, started.world, started.trace);
    var served := Serve(HOOKED, t, c, true, Reenter(0, []), f, r, room);
    assert served == (Returned(out.value), f, r.(world := out.world, trace := out.trace));
    BodyUnfolds(HOOKED, t, c, 0, Ok, frame, started, room);
    BodyUnfolds(HOOKED, t, c, 1, served.0, served.1, served.2, room);
    CalledValue(room, started.world, started.trace);
    next := PreStep(HOOKED, t, c, run, room);
  }

  lemma PlainStep(t: Target<int>, i: nat, run: Run<int>, room: nat) returns (next: Run<int>)
    requires t.kinds == [] && t.ret == 0 && Clean(run)
    ensures next == PreStep(HOOKED, t, Plain(RecallerAt(i)), run, room) && Clean(next)
  {
    var c := Plain(RecallerAt(i));
    InvokeUnfolds(HOOKED, t, c, FrameOf(Pre, run), run, room);
    var frame := FrameOf(Pre, run);
    assert c.body(0, frame, Ok, run.world) == PlainMove(Recalling(0, frame, Ok, run.world));
    LastMove(HOOKED, t, c, 0, Ok, frame, Started(c, frame, run), room);
    next := PreStep(HOOKED, t, c, run, room);
  }

  /** A recaller is granted its recall: what is left is the rest of the inner dispatch. */
  lemma RecallStep(t: Target<int>, cs: seq<Callback<int>>, i: nat, run: Run<int>, room: nat) returns (inner: Run<int>)
    requires t.kinds == [] && t.ret == 0 && t.closure && cs == Sorted(t.callbacks) && Distinct(cs)
    requires i < |cs| && cs[i] == RecallerAt(i) && Clean(run) && room > 0
    ensures Clean(inner) && SameEnd(Rest(HOOKED, t, cs, i, run, room), Rest(HOOKED, t, cs, i + 1, inner, room - 1))
  {
    var c, frame := RecallerAt(i), FrameOf(Pre, run);
    var started := Started(c, frame, run);
    var (_, f, r) := Moved(c, 0, Ok, frame, started);
    InvokeUnfolds(HOOKED, t, c, frame, run, room);
    BodyUnfolds(HOOKED, t, c, 0, Ok, frame, started, room);
    ResignedBody(HOOKED, t, c, 1, f, r, room);
    inner := Start(t, Some(RecallSeed(c, r)), f.args, r.world, r.trace);
    RecalledRest(HOOKED, t, cs, i, run, room, Invoke(HOOKED, t, c, frame, run, room), f, r);
  }

  // ---- in order ----

  /** Of one priority, each added after the one before. */
  ghost predicate InSequence(cs: seq<Callback<int>>) {
    forall i, j :: 0 <= i < j < |cs| ==> cs[i].priority == cs[j].priority && cs[i].sequence < cs[j].sequence
  }

  lemma {:induction false} SortedFixed(cs: seq<Callback<int>>)
    requires InSequence(cs)
    ensures Sorted(cs) == cs
  {
    if cs != [] {
      SortedFixed(cs[1..]);
      assert cs == [cs[0]] + cs[1..];
    }
  }

  lemma InOrder(n: nat)
    ensures Sorted(WithRecalls(n).callbacks) == Resigning(n) && Sorted(Without(n).callbacks) == Continuing(n)
  {
    Sequenced(n);
    SortedFixed(Resigning(n));
    SortedFixed(Continuing(n));
  }

  lemma Sequenced(n: nat)
    ensures InSequence(Resigning(n)) && InSequence(Continuing(n))
  {
    var a, b := Resigning(n), Continuing(n);
    assert forall i :: 0 <= i <= n ==> a[i].sequence == b[i].sequence == i && a[i].priority == b[i].priority == 0;
  }

  lemma Apart(n: nat)
    ensures Distinct(Resigning(n)) && NoPost(Resigning(n)) && NoPost(Continuing(n))
  {
    var a, b := Resigning(n), Continuing(n);
    assert forall i :: 0 <= i <= n ==> a[i].handle == (if i < n then i + 1 else 0) && !a[i].post && !b[i].post;
  }

  // ---- the two dispatches ----

  /** The last callback is asked, and then there is nothing left to do. */
  lemma CallerLast(t: Target<int>, cs: seq<Callback<int>>, n: nat, run: Run<int>, room: nat)
    requires t.kinds == [] && t.ret == 0 && Clean(run) && |cs| == n + 1 && cs[n] == CallerAt(n) && NoPost(cs)
    ensures Rest(HOOKED, t, cs, n, run, room).result == Answer(room)
  {
    var next := CallerStep(t, n, run, room);
    RestUnfolds(HOOKED, t, cs, n, run, room, next);
    RestOverridden(t, cs, next, room);
  }

  lemma DownOne(n: nat, i: nat, run: Run<int>, room: nat) returns (inner: Run<int>)
    requires i < n && Clean(run) && room > 0
    ensures Clean(inner)
    ensures Rest(HOOKED, WithRecalls(n), Resigning(n), i, run, room).result == Rest(HOOKED, WithRecalls(n), Resigning(n), i + 1, inner, room - 1).result
  {
    InOrder(n);
    Apart(n);
    inner := RecallStep(WithRecalls(n), Resigning(n), i, run, room);
  }

  /** Each recall takes one entry: what is left for the call is `room` less the recalls. */
  lemma {:induction false} RecallsDown(n: nat, i: nat, run: Run<int>, room: nat)
    requires i <= n && Clean(run) && room >= n - i
    ensures Rest(HOOKED, WithRecalls(n), Resigning(n), i, run, room).result == Answer(room - (n - i))
    decreases n - i
  {
    if i < n {
      var inner := DownOne(n, i, run, room);
      RecallsDown(n, i + 1, inner, room - 1);
    } else {
      Apart(n);
      CallerLast(WithRecalls(n), Resigning(n), n, run, room);
    }
  }

  lemma OnOne(n: nat, i: nat, run: Run<int>, room: nat) returns (next: Run<int>)
    requires i < n && Clean(run)
    ensures Clean(next)
    ensures Rest(HOOKED, Without(n), Continuing(n), i, run, room) == Rest(HOOKED, Without(n), Continuing(n), i + 1, next, room)
  {
    next := PlainStep(Without(n), i, run, room);
    RestUnfolds(HOOKED, Without(n), Continuing(n), i, run, room, next);
  }

  lemma {:induction false} ContinuesOn(n: nat, i: nat, run: Run<int>, room: nat)
    requires i <= n && Clean(run)
    ensures Rest(HOOKED, Without(n), Continuing(n), i, run, room).result == Answer(room)
    decreases n - i
  {
    if i < n {
      var next := OnOne(n, i, run, room);
      ContinuesOn(n, i + 1, next, room);
    } else {
      Apart(n);
      CallerLast(Without(n), Continuing(n), n, run, room);
    }
  }

  lemma WholeDispatch(t: Target<int>, room: nat)
    ensures Dispatch(HOOKED, t, None, [], room + 1, 0, []).value ==
            Rest(HOOKED, t, Sorted(t.callbacks), 0, Start(t, None, [], 0, []), room).result
  {
    DispatchUnfolds(HOOKED, t, None, [], room + 1, 0, [], Rest(HOOKED, t, Sorted(t.callbacks), 0, Start(t, None, [], 0, []), room));
  }

  /** With one entry for the dispatch and one for each of `n` recalls, the call finds none left; without recalls it finds some. */
  lemma RecallsCostDepth(n: nat)
    requires n > 0
    ensures Dispatch(HOOKED, WithRecalls(n), None, [], n + 1, 0, []).value == Value(0, 0, 0)
    ensures Dispatch(HOOKED, Without(n), None, [], n + 1, 0, []).value == Value(0, 0, 1)
  {
    InOrder(n);
    WholeDispatch(WithRecalls(n), n);
    WholeDispatch(Without(n), n);
    RecallsDown(n, 0, Start(WithRecalls(n), None, [], 0, []), n);
    ContinuesOn(n, 0, Start(Without(n), None, [], 0, []), n);
  }

  // ---- everything else the law asks for holds ----

  lemma OverriderConforms(targets: iset<nat>)
    ensures Direct(targets, [], OVERRIDER)
  {
  }

  lemma CallerConforms(n: nat)
    ensures Direct(iset{0}, [], CallerAt(n))
  {
    forall f: Frame, w
      ensures Fair(iset{0}, [], CallerAt(n), false, 0, f, Ok, w)
    {
      assert FairAfter(iset{0}, [], CallerAt(n), false, 1, Left(f, Calling(0, f, Ok, w)));
    }
  }

  lemma RecallerConforms(i: nat)
    ensures Recaller(iset{0}, [], RecallerAt(i)) && CanRecall(iset{0}, [], RecallerAt(i))
  {
    var c := RecallerAt(i);
    forall f: Frame, w | f.phase == Pre && LegalArgs([], f.args)
      ensures Fair(iset{0}, [], c, true, 0, f, Ok, w) && !Fair(iset{0}, [], c, false, 0, f, Ok, w)
    {
      RecallerResigns(c, f, w);
    }
    var f := Frame(Pre, false, false, [], Zero(0));
    assert f.phase == Pre && LegalArgs([], f.args) && !Fair(iset{0}, [], c, false, 0, f, Ok, 0);
  }

  lemma RecallerResigns(c: Callback<int>, f: Frame, w: int)
    requires c.body == Recalling && c.budget == 1 && f.args == []
    ensures Resigns([], c, 1, Left(f, c.body(0, f, Ok, w)), w)
  {
  }

  lemma {:induction false} RecallsCounted(n: nat, i: nat)
    requires i <= n
    ensures Recalls(iset{0}, [], Resigning(n), i) == n - i
    decreases n - i
  {
    if i < n {
      RecallerConforms(i);
      RecallsCounted(n, i + 1);
    } else {
      CallerConforms(n);
      assert Recalls(iset{0}, [], Resigning(n), n + 1) == 0;
    }
  }

  lemma CalledKnown() returns (known: Known<int>)
    ensures known.targets == iset{0} && known.floor == 1 && Knows(known, HOOKED)
  {
    OverriderConforms(iset{});
    KnownExtends(NothingKnown(), HOOKED, 0);
    known := Extended(NothingKnown(), HOOKED, 0);
    assert Sorted(CALLED.callbacks) == [OVERRIDER];
    assert Recalls(iset{}, [], [OVERRIDER], 1) == 0;
  }

  lemma PairTwins(n: nat)
    ensures Twins(iset{0}, [], Resigning(n), Continuing(n))
  {
    CallerConforms(n);
    forall i | 0 <= i < n
      ensures Twin(iset{0}, [], Resigning(n)[i], Continuing(n)[i])
    {
      RecallerConforms(i);
    }
  }

  /**
    The room that transparency asks for is needed: for any number of recalls there are dispatches that meet
    every other condition of the law, have one entry of the target stack less, and differ in the result.
   */
  lemma BoundIsTight(n: nat) returns (known: Known<int>)
    requires n > 0
    ensures Knows(known, HOOKED) && Needed(known.targets, WithRecalls(n)) == n + 1
    ensures SameTarget(WithRecalls(n), Without(n)) && Distinct(WithRecalls(n).callbacks)
    ensures Twins(known.targets, [], WithRecalls(n).callbacks, Without(n).callbacks)
    ensures Enough(known, n + 2, Needed(known.targets, WithRecalls(n))) && Enough(known, n + 1, 1)
    ensures !SameOutcome(Dispatch(HOOKED, WithRecalls(n), None, [], n + 1, 0, []), Dispatch(HOOKED, Without(n), None, [], n + 1, 0, []))
  {
    known := CalledKnown();
    InOrder(n);
    Apart(n);
    RecallsCounted(n, 0);
    PairTwins(n);
    RecallsCostDepth(n);
  }
}
