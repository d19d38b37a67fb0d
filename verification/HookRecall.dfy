/**
  Recalling is transparent: a callback that changes the arguments and recalls is indistinguishable
  from one that changes them and lets the dispatch go on.
 */
module HookRecall {
  import opened Options
  import opened HookConduct
  import opened HookDispatch

  /** The two sides of one callback: the same, or one that recalls and the one that continues instead. */
  ghost predicate Twin<W(!new)>(targets: iset<nat>, kinds: seq<nat>, a: Callback<W>, b: Callback<W>) {
    (Direct(targets, kinds, a) && b == a) || (Recaller(targets, kinds, a) && b == Plain(a))
  }

  ghost predicate Twins<W(!new)>(targets: iset<nat>, kinds: seq<nat>, as_: seq<Callback<W>>, bs: seq<Callback<W>>) {
    |as_| == |bs| && forall i :: 0 <= i < |as_| ==> Twin(targets, kinds, as_[i], bs[i])
  }

  ghost predicate Distinct<W>(cs: seq<Callback<W>>) {
    forall i, j :: 0 <= i < j < |cs| ==> cs[i].handle != cs[j].handle
  }

  // ---- one callback, seen from both sides ----

  /** What one callback did to the two dispatches, when no recall was granted. */
  ghost predicate Matched<W(!new)>(runA: Run<W>, runB: Run<W>, x: (Action, Frame, Run<W>), y: (Action, Frame, Run<W>)) {
    && x.0 == y.0 && x.1.args == y.1.args && (x.0 != Continue ==> x.1.result == y.1.result)
    && Alike(x.2, y.2) && x.2.recalled == runA.recalled && y.2.recalled == runB.recalled && Quiet(CoreOf(runA), CoreOf(x.2))
  }

  /** What it did when a recall was granted in the state `f`, `r`: the other side continued from there. */
  ghost predicate Parted<W(!new)>(env: seq<Target<W>>, a: Target<W>, c: Callback<W>, room: nat, runA: Run<W>,
        runB: Run<W>,
                                  x: (Action, Frame, Run<W>), y: (Action, Frame, Run<W>), f: Frame, r: Run<W>) {
    && f.phase == Pre && LegalArgs(a.kinds, f.args) && RecallRefusal(a, true, f, r, room).None?
    && x.0 == Continue && x.1.args == f.args && x.2 == Serve(env, a, c, true, Recall, f, r, room).2
    && y.0 == Continue && y.1.args == f.args && Alike(r, y.2)
    && r.recalled == runA.recalled && y.2.recalled == runB.recalled && Quiet(CoreOf(runA), CoreOf(r))
  }

  /** Either there was a recall, granted at this point, or the two sides match. */
  datatype Verdict<+W> = Match | Part(f: Frame, r: Run<W>)

  ghost predicate Judged<W(!new)>(env: seq<Target<W>>, a: Target<W>, c: Callback<W>, room: nat, runA: Run<W>,
        runB: Run<W>,
                                  x: (Action, Frame, Run<W>), y: (Action, Frame, Run<W>), v: Verdict<W>) {
    match v
    case Match => Matched(runA, runB, x, y)
    case Part(f, r) => Parted(env, a, c, room, runA, runB, x, y, f, r)
  }

  lemma BlindMoves<W>(c: Callback<W>, d: Callback<W>, k: nat, fA: Frame, fB: Frame, reply: Reply, w: W)
    requires Blind(c, k, fA, reply, w) && SameFrame(fA, fB) && (d == c || d == Plain(c))
    ensures var m, n := c.body(k, fA, reply, w), d.body(k, fB, reply, w);
      && n.world == m.world && SameFrame(Left(fA, m), Left(fB, n))
      && n.next == if d == Plain(c) then PlainMove(m).next else m.next
  {
    assert fA == Flagged(fA, fA.recalled) && fB == Flagged(fA, fB.recalled);
    assert Unflagged(c.body(k, fA, reply, w)) == Unflagged(c.body(k, fB, reply, w));
  }

  /** The host's answer to a recall that ends a callback: granted, or refused without a trace. */
  lemma ResignedBody<W(!new)>(env: seq<Target<W>>, t: Target<W>, c: Callback<W>, k: nat, f: Frame, run: Run<W>,
        room: nat)
    requires k <= c.budget && f.phase == Pre && Resigns(t.kinds, c, k, f, run.world)
    ensures var served := Serve(env, t, c, true, Recall, f, run, room);
      var x := Body(env, t, c, k, served.0, served.1, served.2, room);
      x.0 == Continue && x.1.args == f.args && x.2 == served.2
    ensures RecallRefusal(t, true, f, run, room).Some? ==> Serve(env, t, c, true, Recall, f, run, room).2 == run
  {
    var refusal := RecallRefusal(t, true, f, run, room);
    var served := Serve(env, t, c, true, Recall, f, run, room);
    if refusal.Some? {
      assert served == (refusal.value, f, run);
      QuitsBody(env, t, c, k, refusal.value, f, run, room, refusal.value);
    } else {
      assert served.0 == Ok && served.1 == RecalledFrame(f, served.1.result);
      QuitsBody(env, t, c, k, Ok, served.1, served.2, room, AlreadyExists);
    }
  }

  /** What holds from a later state of the two dispatches holds from an earlier one. */
  lemma JudgedEarlier<W(!new)>(env: seq<Target<W>>, a: Target<W>, c: Callback<W>, room: nat, runA: Run<W>, runB: Run<W>,
        laterA: Run<W>, laterB: Run<W>, x: (Action, Frame, Run<W>), y: (Action, Frame, Run<W>), v: Verdict<W>)
    requires Judged(env, a, c, room, laterA, laterB, x, y, v)
    requires laterA.recalled == runA.recalled && laterB.recalled == runB.recalled && Quiet(CoreOf(runA), CoreOf(laterA))
    ensures Judged(env, a, c, room, runA, runB, x, y, v)
  {
  }

  /** The last move: the callback returns, or its budget ends. */
  lemma EndsAlike<W(!new)>(envA: seq<Target<W>>, envB: seq<Target<W>>, a: Target<W>, b: Target<W>, c: Callback<W>,
        d: Callback<W>,
        k: nat, reply: Reply, fA: Frame, fB: Frame, runA: Run<W>, runB: Run<W>, roomA: nat, roomB: nat)
    requires k <= c.budget && (d == c || d == Plain(c)) && Blind(c, k, fA, reply, runA.world)
    requires SameFrame(fA, fB) && Alike(runA, runB) && (c.body(k, fA, reply, runA.world).next.Ask? ==> k == c.budget)
    ensures Matched(runA, runB, Body(envA, a, c, k, reply, fA, runA, roomA), Body(envB, b, d, k, reply, fB, runB, roomB))
  {
    BlindMoves(c, d, k, fA, fB, reply, runA.world);
    LastMove(envA, a, c, k, reply, fA, runA, roomA);
    LastMove(envB, b, d, k, reply, fB, runB, roomB);
    EndsMatch(c.body(k, fA, reply, runA.world), d.body(k, fB, reply, runB.world), fA, fB, runA, runB);
  }

  /** The answer of a callback whose last move this is. */
  function Ended<W>(m: Move<W>, f: Frame, run: Run<W>): (Action, Frame, Run<W>) {
    (if m.next.Done? then m.next.action else Continue, Left(f, m), run.(world := m.world))
  }

  lemma EndsMatch<W(!new)>(m: Move<W>, n: Move<W>, fA: Frame, fB: Frame, runA: Run<W>, runB: Run<W>)
    requires n.world == m.world && SameFrame(Left(fA, m), Left(fB, n)) && Alike(runA, runB)
    requires n.next == m.next || n.next == PlainMove(m).next
    ensures Matched(runA, runB, Ended(m, fA, runA), Ended(n, fB, runB))
  {
  }

  lemma LastMove<W>(env: seq<Target<W>>, t: Target<W>, c: Callback<W>, k: nat, reply: Reply, f: Frame, run: Run<W>,
        room: nat)
    requires k <= c.budget && (c.body(k, f, reply, run.world).next.Ask? ==> k == c.budget)
    ensures Body(env, t, c, k, reply, f, run, room) == Ended(c.body(k, f, reply, run.world), f, run)
  {
  }

  /** The move that asks to be recalled. */
  lemma ResignsAlike<W(!new)>(envA: seq<Target<W>>, envB: seq<Target<W>>, a: Target<W>, b: Target<W>, c: Callback<W>,
        k: nat, reply: Reply, fA: Frame, fB: Frame, runA: Run<W>, runB: Run<W>, roomA: nat, roomB: nat) returns (v: Verdict<W>)
    requires k < c.budget && fA.phase == Pre && Blind(c, k, fA, reply, runA.world)
    requires SameFrame(fA, fB) && Alike(runA, runB) && c.body(k, fA, reply, runA.world).next == Ask(true, Recall)
    requires var m := c.body(k, fA, reply, runA.world); Resigns(a.kinds, c, k + 1, Left(fA, m), m.world)
    ensures Judged(envA, a, c, roomA, runA, runB, Body(envA, a, c, k, reply, fA, runA, roomA), Body(envB, b, Plain(c), k, reply, fB, runB, roomB), v)
  {
    BlindMoves(c, Plain(c), k, fA, fB, reply, runA.world);
    BodyUnfolds(envA, a, c, k, reply, fA, runA, roomA);
    BodyUnfolds(envB, b, Plain(c), k, reply, fB, runB, roomB);
    var (_, f, r) := Moved(c, k, reply, fA, runA);
    ResignedBody(envA, a, c, k + 1, f, r, roomA);
    v := if RecallRefusal(a, true, f, r, roomA).None? then Part(f, r) else Match;
  }

  /** A move that makes a modest request, up to the host's answer. */
  lemma RequestsAlike<W(!new)>(known: Known<W>, envA: seq<Target<W>>, envB: seq<Target<W>>, a: Target<W>, b: Target<W>,
        c: Callback<W>, d: Callback<W>, k: nat, reply: Reply, fA: Frame, fB: Frame, runA: Run<W>, runB: Run<W>, roomA: nat, roomB: nat)
        returns (answer: Reply, f: Frame, g: Frame, r: Run<W>, s: Run<W>)
    requires Knows(known, envA) && Knows(known, envB) && Enough(known, roomA, 0) && Enough(known, roomB, 0)
    requires k < c.budget && SameTarget(a, b) && (d == c || d == Plain(c)) && Blind(c, k, fA, reply, runA.world)
    requires SameFrame(fA, fB) && Alike(runA, runB)
    requires var next := c.body(k, fA, reply, runA.world).next; next.Ask? && next != Ask(true, Recall) && Modest(known.targets, next)
    ensures Body(envA, a, c, k, reply, fA, runA, roomA) == Body(envA, a, c, k + 1, answer, f, r, roomA)
    ensures Body(envB, b, d, k, reply, fB, runB, roomB) == Body(envB, b, d, k + 1, answer, g, s, roomB)
    ensures SameFrame(f, g) && Served(Left(fA, c.body(k, fA, reply, runA.world)), f) && Alike(r, s)
    ensures r.recalled == runA.recalled && s.recalled == runB.recalled && Quiet(CoreOf(runA), CoreOf(r))
  {
    BlindMoves(c, d, k, fA, fB, reply, runA.world);
    BodyUnfolds(envA, a, c, k, reply, fA, runA, roomA);
    BodyUnfolds(envB, b, d, k, reply, fB, runB, roomB);
    var (next, f0, r0) := Moved(c, k, reply, fA, runA);
    var (_, g0, s0) := Moved(d, k, reply, fB, runB);
    ServedAlike(known, envA, envB, a, b, c, d, next, f0, g0, r0, s0, roomA, roomB);
    var served := Serve(envA, a, c, next.own, next.control, f0, r0, roomA);
    answer, f, r := served.0, served.1, served.2;
    var served' := Serve(envB, b, d, next.own, next.control, g0, s0, roomB);
    g, s := served'.1, served'.2;
  }

  /** The move after which the callback asks for nothing that matters. */
  lemma StopsAlike<W(!new)>(targets: iset<nat>, envA: seq<Target<W>>, envB: seq<Target<W>>, a: Target<W>, b: Target<W>,
        c: Callback<W>, d: Callback<W>, may: bool, k: nat, reply: Reply,
        fA: Frame, fB: Frame, runA: Run<W>, runB: Run<W>, roomA: nat, roomB: nat) returns (v: Verdict<W>)
    requires k <= c.budget && (d == Plain(c) || (d == c && !may)) && (may ==> fA.phase == Pre)
    requires Fair(targets, a.kinds, c, may, k, fA, reply, runA.world) && SameFrame(fA, fB) && Alike(runA, runB)
    requires var next := c.body(k, fA, reply, runA.world).next; next.Done? || k == c.budget || next == Ask(true, Recall)
    ensures Judged(envA, a, c, roomA, runA, runB, Body(envA, a, c, k, reply, fA, runA, roomA), Body(envB, b, d, k, reply, fB, runB, roomB), v)
    ensures !may ==> v.Match?
  {
    v := Match;
    if c.body(k, fA, reply, runA.world).next.Done? || k == c.budget {
      EndsAlike(envA, envB, a, b, c, d, k, reply, fA, fB, runA, runB, roomA, roomB);
    } else {
      v := ResignsAlike(envA, envB, a, b, c, k, reply, fA, fB, runA, runB, roomA, roomB);
    }
  }

  /** Followed move by move, a callback does the same to two alike dispatches, up to a recall. */
  lemma {:induction false} BodiesAlike<W(!new)>(known: Known<W>, envA: seq<Target<W>>, envB: seq<Target<W>>,
        a: Target<W>, b: Target<W>, c: Callback<W>, d: Callback<W>, may: bool, k: nat, reply: Reply,
        fA: Frame, fB: Frame, runA: Run<W>, runB: Run<W>, roomA: nat, roomB: nat) returns (v: Verdict<W>)
    requires Knows(known, envA) && Knows(known, envB) && Enough(known, roomA, 0) && Enough(known, roomB, 0)
    requires k <= c.budget && SameTarget(a, b) && (d == Plain(c) || (d == c && !may)) && (may ==> fA.phase == Pre)
    requires Fair(known.targets, a.kinds, c, may, k, fA, reply, runA.world)
    requires SameFrame(fA, fB) && Alike(runA, runB)
    ensures Judged(envA, a, c, roomA, runA, runB, Body(envA, a, c, k, reply, fA, runA, roomA), Body(envB, b, d, k, reply, fB, runB, roomB), v)
    ensures !may ==> v.Match?
    decreases c.budget - k
  {
    var m := c.body(k, fA, reply, runA.world);
    if m.next.Done? || k == c.budget || m.next == Ask(true, Recall) {
      v := StopsAlike(known.targets, envA, envB, a, b, c, d, may, k, reply, fA, fB, runA, runB, roomA, roomB);
    } else {
      var answer, f, g, r, s := RequestsAlike(known, envA, envB, a, b, c, d, k, reply, fA, fB, runA, runB, roomA, roomB);
      assert FairAfter(known.targets, a.kinds, c, may, k + 1, Left(fA, m));
      v := BodiesAlike(known, envA, envB, a, b, c, d, may, k + 1, answer, f, g, r, s, roomA, roomB);
      JudgedEarlier(envA, a, c, roomA, runA, runB, r, s, Body(envA, a, c, k + 1, answer, f, r, roomA), Body(envB, b, d, k + 1, answer, g, s, roomB), v);
    }
  }

  function Started<W>(c: Callback<W>, f: Frame, run: Run<W>): Run<W> {
    run.(trace := run.trace + [Entered(c.handle, f.phase, f.args, f.result, f.called)])
  }

  lemma InvokeUnfolds<W>(env: seq<Target<W>>, t: Target<W>, c: Callback<W>, f: Frame, run: Run<W>, room: nat)
    ensures Invoke(env, t, c, f, run, room) == if c.enabled then Body(env, t, c, 0, Ok, f, Started(c, f, run), room) else (Continue, f, run)
  {
  }

  /** One callback of two alike dispatches. */
  lemma EnabledAlike<W(!new)>(known: Known<W>, envA: seq<Target<W>>, envB: seq<Target<W>>, a: Target<W>, b: Target<W>,
        c: Callback<W>, d: Callback<W>, may: bool, fA: Frame, fB: Frame, runA: Run<W>, runB: Run<W>, roomA: nat, roomB: nat)
        returns (v: Verdict<W>)
    requires Knows(known, envA) && Knows(known, envB) && Enough(known, roomA, 0) && Enough(known, roomB, 0)
    requires SameTarget(a, b) && (d == Plain(c) || (d == c && !may)) && (may ==> fA.phase == Pre)
    requires Fair(known.targets, a.kinds, c, may, 0, fA, Ok, runA.world) && SameFrame(fA, fB) && Alike(runA, runB)
    ensures Judged(envA, a, c, roomA, runA, runB, Body(envA, a, c, 0, Ok, fA, Started(c, fA, runA), roomA),
                   Body(envB, b, d, 0, Ok, fB, Started(d, fB, runB), roomB), v)
    ensures !may ==> v.Match?
  {
    var rA, rB := Started(c, fA, runA), Started(d, fB, runB);
    v := BodiesAlike(known, envA, envB, a, b, c, d, may, 0, Ok, fA, fB, rA, rB, roomA, roomB);
    JudgedEarlier(envA, a, c, roomA, runA, runB, rA, rB, Body(envA, a, c, 0, Ok, fA, rA, roomA), Body(envB, b, d, 0, Ok, fB, rB, roomB), v);
  }

  /** The same, asked or skipped. */
  lemma InvokesAlike<W(!new)>(known: Known<W>, envA: seq<Target<W>>, envB: seq<Target<W>>, a: Target<W>, b: Target<W>,
        c: Callback<W>, d: Callback<W>, may: bool, fA: Frame, fB: Frame, runA: Run<W>, runB: Run<W>, roomA: nat, roomB: nat)
        returns (v: Verdict<W>)
    requires Knows(known, envA) && Knows(known, envB) && Enough(known, roomA, 0) && Enough(known, roomB, 0)
    requires SameTarget(a, b) && Conforms(known.targets, a.kinds, c, may) && (d == Plain(c) || (d == c && !may))
    requires SameFrame(fA, fB) && Alike(runA, runB) && (fA.phase == Pre ==> LegalArgs(a.kinds, fA.args))
    ensures Judged(envA, a, c, roomA, runA, runB, Invoke(envA, a, c, fA, runA, roomA), Invoke(envB, b, d, fB, runB, roomB), v)
    ensures v.Part? ==> may && fA.phase == Pre && c.enabled
  {
    v := Match;
    InvokeUnfolds(envA, a, c, fA, runA, roomA);
    InvokeUnfolds(envB, b, d, fB, runB, roomB);
    if c.enabled {
      v := EnabledAlike(known, envA, envB, a, b, c, d, may && fA.phase == Pre, fA, fB, runA, runB, roomA, roomB);
    }
  }

  // ---- the POST chain ----

  lemma SettlePostAlike<W(!new)>(a: Target<W>, b: Target<W>, c: Callback<W>, d: Callback<W>, runA: Run<W>, runB: Run<W>,
        x: (Action, Frame, Run<W>), y: (Action, Frame, Run<W>))
    requires SameTarget(a, b) && |runA.args| == |a.kinds| == |x.1.args| && Alike(runA, runB) && Matched(runA, runB, x, y)
    ensures Alike(SettlePost(a, c, runA, x.0, x.1, x.2), SettlePost(b, d, runB, y.0, y.1, y.2))
  {
  }

  lemma PostStepAlike<W(!new)>(known: Known<W>, envA: seq<Target<W>>, envB: seq<Target<W>>, a: Target<W>, b: Target<W>,
        c: Callback<W>, d: Callback<W>, runA: Run<W>, runB: Run<W>, roomA: nat, roomB: nat)
        returns (nextA: Run<W>, nextB: Run<W>)
    requires Knows(known, envA) && Knows(known, envB) && Enough(known, roomA, 0) && Enough(known, roomB, 0)
    requires Twin(known.targets, a.kinds, c, d) && SameTarget(a, b) && Alike(runA, runB) && |runA.args| == |a.kinds|
    ensures nextA == PostStep(envA, a, c, runA, roomA) && nextB == PostStep(envB, b, d, runB, roomB) && Alike(nextA, nextB)
  {
    var fA, fB := FrameOf(Post, runA), FrameOf(Post, runB);
    var v := InvokesAlike(known, envA, envB, a, b, c, d, !Direct(known.targets, a.kinds, c), fA, fB, runA, runB, roomA, roomB);
    var x, y := Invoke(envA, a, c, fA, runA, roomA), Invoke(envB, b, d, fB, runB, roomB);
    SettlePostAlike(a, b, c, d, runA, runB, x, y);
    nextA, nextB := SettlePost(a, c, runA, x.0, x.1, x.2), SettlePost(b, d, runB, y.0, y.1, y.2);
  }

  lemma {:induction false} PostAlike<W(!new)>(known: Known<W>, envA: seq<Target<W>>, envB: seq<Target<W>>,
        a: Target<W>, b: Target<W>, csA: seq<Callback<W>>, csB: seq<Callback<W>>, n: nat,
        runA: Run<W>, runB: Run<W>, roomA: nat, roomB: nat)
    requires Knows(known, envA) && Knows(known, envB) && Enough(known, roomA, 0) && Enough(known, roomB, 0)
    requires Twins(known.targets, a.kinds, csA, csB) && n <= |csA|
    requires SameTarget(a, b) && Alike(runA, runB) && |runA.args| == |a.kinds|
    ensures Alike(PostLoop(envA, a, csA, n, runA, roomA), PostLoop(envB, b, csB, n, runB, roomB))
    decreases n
  {
    if n > 0 {
      assert Twin(known.targets, a.kinds, csA[n - 1], csB[n - 1]);
      var nextA, nextB := runA, runB;
      if csA[n - 1].post {
        nextA, nextB := PostStepAlike(known, envA, envB, a, b, csA[n - 1], csB[n - 1], runA, runB, roomA, roomB);
      }
      PostLoopUnfolds(envA, a, csA, n, runA, roomA, nextA);
      PostLoopUnfolds(envB, b, csB, n, runB, roomB, nextB);
      PostAlike(known, envA, envB, a, b, csA, csB, n - 1, nextA, nextB, roomA, roomB);
    }
  }

  // ---- the PRE chain ----

  /** Nothing decided yet means the result is still the zero value a fresh dispatch starts with. */
  predicate Unspoilt<W>(t: Target<W>, run: Run<W>) {
    !run.recalled && (!run.overridden && !run.called ==> run.result == Zero(t.ret))
  }

  /** Between PRE callbacks. */
  ghost predicate Level<W(!new)>(a: Target<W>, b: Target<W>, runA: Run<W>, runB: Run<W>) {
    Alike(runA, runB) && LegalArgs(a.kinds, runA.args) && Unspoilt(a, runA) && Unspoilt(b, runB)
  }

  /** Settling a PRE callback of two alike dispatches leaves them alike. */
  lemma SettleAlike<W(!new)>(a: Target<W>, b: Target<W>, c: Callback<W>, d: Callback<W>, runA: Run<W>, runB: Run<W>,
        x: (Action, Frame, Run<W>), y: (Action, Frame, Run<W>))
    requires SameTarget(a, b) && Level(a, b, runA, runB) && Matched(runA, runB, x, y) && |x.1.args| == |a.kinds|
    ensures Level(a, b, SettlePre(a, c, runA, x.0, x.1, x.2), SettlePre(b, d, runB, y.0, y.1, y.2))
  {
  }

  /** Settling a callback that was granted a recall: its twin goes on where the recalled dispatch starts. */
  lemma SettleParted<W(!new)>(env: seq<Target<W>>, a: Target<W>, b: Target<W>, c: Callback<W>, d: Callback<W>,
        room: nat,
        runA: Run<W>, runB: Run<W>, x: (Action, Frame, Run<W>), y: (Action, Frame, Run<W>), f: Frame, r: Run<W>)
    requires SameTarget(a, b) && Level(a, b, runA, runB) && Parted(env, a, c, room, runA, runB, x, y, f, r)
    ensures Level(a, b, Start(a, Some(RecallSeed(c, r)), f.args, r.world, r.trace), SettlePre(b, d, runB, y.0, y.1, y.2))
  {
    RetypeLegal(a.kinds, f.args);
    LegalKept(a.kinds, f.args, runB.args);
  }

  lemma RetypeLegal(kinds: seq<nat>, args: seq<Value>)
    requires LegalArgs(kinds, args)
    ensures Retype(kinds, args) == args
  {
  }

  lemma LegalKept(kinds: seq<nat>, args: seq<Value>, before: seq<Value>)
    requires LegalArgs(kinds, args) && |before| == |kinds|
    ensures CheckedArgs(kinds, args, before) == args
  {
  }

  lemma {:induction false} StartAfterIndex<W>(cs: seq<Callback<W>>, i: nat)
    requires i < |cs| && Distinct(cs)
    ensures StartAfter(cs, cs[i].handle) == i + 1
  {
    if i > 0 {
      assert forall j, k :: 0 <= j < k < |cs[1..]| ==> cs[1..][j] == cs[j + 1] && cs[1..][k] == cs[k + 1];
      StartAfterIndex(cs[1..], i - 1);
    }
  }

  /** What everyone can tell of a finished dispatch. */
  predicate SameEnd<W(==)>(a: Run<W>, b: Run<W>) {
    a.result == b.result && a.world == b.world && a.trace == b.trace
  }

  lemma RestUnfolds<W>(env: seq<Target<W>>, t: Target<W>, cs: seq<Callback<W>>, i: nat, run: Run<W>, room: nat,
        next: Run<W>)
    requires i < |cs| && |run.args| == |t.kinds| && !run.recalled
    requires next == if cs[i].pre then PreStep(env, t, cs[i], run, room) else run
    ensures |next.args| == |t.kinds|
    ensures Rest(env, t, cs, i, run, room) == if next.recalled then next else Rest(env, t, cs, i + 1, next, room)
  {
  }

  /** A granted recall: all that is left of the outer dispatch is the inner one's end. */
  lemma RecalledRest<W(!new)>(env: seq<Target<W>>, t: Target<W>, cs: seq<Callback<W>>, i: nat, run: Run<W>, room: nat,
        x: (Action, Frame, Run<W>), f: Frame, r: Run<W>)
    requires cs == Sorted(t.callbacks) && i < |cs| && Distinct(cs) && cs[i].pre && |run.args| == |t.kinds| && !run.recalled
    requires x == Invoke(env, t, cs[i], FrameOf(Pre, run), run, room) && x.0 == Continue && x.2 == Serve(env, t, cs[i], true, Recall, f, r, room).2
    requires RecallRefusal(t, true, f, r, room).None? && !run.called
    ensures SameEnd(Rest(env, t, cs, i, run, room),
                    Rest(env, t, cs, i + 1, Start(t, Some(RecallSeed(cs[i], r)), f.args, r.world, r.trace), room - 1))
  {
    var c, seed := cs[i], RecallSeed(cs[i], r);
    StartAfterIndex(cs, i);
    var last := Rest(env, t, cs, i + 1, Start(t, Some(seed), f.args, r.world, r.trace), room - 1);
    DispatchUnfolds(env, t, Some(seed), f.args, room, r.world, r.trace, last);
    RestUnfolds(env, t, cs, i, run, room, SettlePre(t, c, run, x.0, x.1, x.2));
  }

  /** The two sides of the theorem: the callbacks of `a`, and those of `b` that continue instead of recalling. */
  ghost predicate Sides<W(!new)>(targets: iset<nat>, a: Target<W>, b: Target<W>) {
    && SameTarget(a, b)
    && Twins(targets, a.kinds, Sorted(a.callbacks), Sorted(b.callbacks))
    && Distinct(Sorted(a.callbacks))
  }

  /** A callback that can be granted a recall at all. */
  ghost predicate CanRecall<W(!new)>(targets: iset<nat>, kinds: seq<nat>, c: Callback<W>) {
    c.pre && c.enabled && !Direct(targets, kinds, c)
  }

  /** How many callbacks from the `i`-th on can be granted a recall. */
  ghost function Recalls<W(!new)>(targets: iset<nat>, kinds: seq<nat>, cs: seq<Callback<W>>, i: nat): nat
    requires i <= |cs|
    decreases |cs| - i
  {
    if i == |cs| then 0 else (if CanRecall(targets, kinds, cs[i]) then 1 else 0) + Recalls(targets, kinds, cs, i + 1)
  }

  lemma PreStepUnfolds<W>(env: seq<Target<W>>, t: Target<W>, c: Callback<W>, run: Run<W>, room: nat,
        x: (Action, Frame, Run<W>))
    requires |run.args| == |t.kinds| && x == Invoke(env, t, c, FrameOf(Pre, run), run, room)
    ensures |x.1.args| == |t.kinds| && PreStep(env, t, c, run, room) == SettlePre(t, c, run, x.0, x.1, x.2)
  {
  }

  /** A callback that went the same way on both sides. */
  lemma PreMatched<W(!new)>(env: seq<Target<W>>, a: Target<W>, b: Target<W>, i: nat, d: Callback<W>, runA: Run<W>,
        runB: Run<W>, room: nat, x: (Action, Frame, Run<W>), y: (Action, Frame, Run<W>)) returns (next: Run<W>)
    requires i < |a.callbacks| && SameTarget(a, b) && Level(a, b, runA, runB) && Sorted(a.callbacks)[i].pre
    requires x == Invoke(env, a, Sorted(a.callbacks)[i], FrameOf(Pre, runA), runA, room) && Matched(runA, runB, x, y)
    ensures Level(a, b, next, SettlePre(b, d, runB, y.0, y.1, y.2))
    ensures SameEnd(Rest(env, a, Sorted(a.callbacks), i, runA, room), Rest(env, a, Sorted(a.callbacks), i + 1, next, room))
  {
    var c := Sorted(a.callbacks)[i];
    next := SettlePre(a, c, runA, x.0, x.1, x.2);
    PreStepUnfolds(env, a, c, runA, room, x);
    SettleAlike(a, b, c, d, runA, runB, x, y);
    RestUnfolds(env, a, Sorted(a.callbacks), i, runA, room, next);
  }

  /** One PRE callback: the dispatches stay level, or the one goes on inside a recall. */
  lemma PreAlike<W(!new)>(known: Known<W>, envA: seq<Target<W>>, envB: seq<Target<W>>, a: Target<W>, b: Target<W>,
        i: nat, runA: Run<W>, runB: Run<W>, roomA: nat, roomB: nat) returns (nextA: Run<W>, nextB: Run<W>, room: nat)
    requires Knows(known, envA) && Knows(known, envB) && Enough(known, roomA, 0) && Enough(known, roomB, 0)
    requires i < |a.callbacks| == |b.callbacks| && SameTarget(a, b) && Distinct(Sorted(a.callbacks)) && Level(a, b, runA, runB)
    requires var c, d := Sorted(a.callbacks)[i], Sorted(b.callbacks)[i]; Twin(known.targets, a.kinds, c, d) && c.pre
    ensures Level(a, b, nextA, nextB) && nextB == PreStep(envB, b, Sorted(b.callbacks)[i], runB, roomB)
    ensures SameEnd(Rest(envA, a, Sorted(a.callbacks), i, runA, roomA), Rest(envA, a, Sorted(a.callbacks), i + 1, nextA, room))
    ensures room == roomA || (room == roomA - 1 && CanRecall(known.targets, a.kinds, Sorted(a.callbacks)[i]))
  {
    var c, d := Sorted(a.callbacks)[i], Sorted(b.callbacks)[i];
    var fA, fB := FrameOf(Pre, runA), FrameOf(Pre, runB);
    var x, y := Invoke(envA, a, c, fA, runA, roomA), Invoke(envB, b, d, fB, runB, roomB);
    PreStepUnfolds(envB, b, d, runB, roomB, y);
    nextB, room := SettlePre(b, d, runB, y.0, y.1, y.2), roomA;
    var v := InvokesAlike(known, envA, envB, a, b, c, d, !Direct(known.targets, a.kinds, c), fA, fB, runA, runB, roomA, roomB);
    match v {
      case Match =>
        nextA := PreMatched(envA, a, b, i, d, runA, runB, roomA, x, y);
      case Part(f, r) =>
        nextA, room := Start(a, Some(RecallSeed(c, r)), f.args, r.world, r.trace), roomA - 1;
        SettleParted(envA, a, b, c, d, roomA, runA, runB, x, y, f, r);
        RecalledRest(envA, a, Sorted(a.callbacks), i, runA, roomA, x, f, r);
    }
  }

  /** The heart of the theorem, by induction on the callbacks left. */
  lemma {:induction false} RestAlike<W(!new)>(known: Known<W>, envA: seq<Target<W>>, envB: seq<Target<W>>,
        a: Target<W>, b: Target<W>, i: nat, runA: Run<W>, runB: Run<W>, roomA: nat, roomB: nat)
    requires Sides(known.targets, a, b) && i <= |a.callbacks| && Level(a, b, runA, runB)
    requires Knows(known, envA) && Knows(known, envB)
    requires Enough(known, roomA, Recalls(known.targets, a.kinds, Sorted(a.callbacks), i)) && Enough(known, roomB, 0)
    ensures SameEnd(Rest(envA, a, Sorted(a.callbacks), i, runA, roomA), Rest(envB, b, Sorted(b.callbacks), i, runB, roomB))
    decreases |a.callbacks| - i
  {
    var csA, csB := Sorted(a.callbacks), Sorted(b.callbacks);
    if i == |csA| {
      ImplicitAlike(a, b, runA, runB);
      PostAlike(known, envA, envB, a, b, csA, csB, |csA|, Implicit(a, runA), Implicit(b, runB), roomA, roomB);
    } else {
      assert Twin(known.targets, a.kinds, csA[i], csB[i]);
      var nextA, nextB, room := runA, runB, roomA;
      if csA[i].pre {
        nextA, nextB, room := PreAlike(known, envA, envB, a, b, i, runA, runB, roomA, roomB);
      } else {
        RestUnfolds(envA, a, csA, i, runA, roomA, runA);
      }
      RestUnfolds(envB, b, csB, i, runB, roomB, nextB);
      RestAlike(known, envA, envB, a, b, i + 1, nextA, nextB, room, roomB);
    }
  }

  lemma ImplicitAlike<W(!new)>(a: Target<W>, b: Target<W>, runA: Run<W>, runB: Run<W>)
    requires SameTarget(a, b) && Alike(runA, runB)
    ensures Alike(Implicit(a, runA), Implicit(b, runB))
  {
  }

  // ---- the two sides are asked in the same order ----

  ghost predicate Paired<W(!new)>(pair: (Callback<W>, Callback<W>) -> bool, as_: seq<Callback<W>>,
        bs: seq<Callback<W>>) {
    |as_| == |bs| && forall i :: 0 <= i < |as_| ==> pair(as_[i], bs[i])
  }

  /** Pairs have the same place in the order. */
  ghost predicate Placed<W(!new)>(pair: (Callback<W>, Callback<W>) -> bool) {
    forall a, b :: pair(a, b) ==> a.priority == b.priority && a.sequence == b.sequence
  }

  lemma {:induction false} InsertPaired<W(!new)>(pair: (Callback<W>, Callback<W>) -> bool, a: Callback<W>,
        b: Callback<W>,
        as_: seq<Callback<W>>, bs: seq<Callback<W>>)
    requires Placed(pair) && pair(a, b) && Paired(pair, as_, bs)
    ensures Paired(pair, Insert(a, as_), Insert(b, bs))
  {
    if as_ != [] {
      assert pair(as_[0], bs[0]);
      assert forall i :: 0 <= i < |as_| - 1 ==> as_[1..][i] == as_[i + 1] && bs[1..][i] == bs[i + 1];
      InsertPaired(pair, a, b, as_[1..], bs[1..]);
    }
  }

  lemma {:induction false} SortedPaired<W(!new)>(pair: (Callback<W>, Callback<W>) -> bool, as_: seq<Callback<W>>,
        bs: seq<Callback<W>>)
    requires Placed(pair) && Paired(pair, as_, bs)
    ensures Paired(pair, Sorted(as_), Sorted(bs))
  {
    if as_ != [] {
      assert pair(as_[0], bs[0]);
      assert forall i :: 0 <= i < |as_| - 1 ==> as_[1..][i] == as_[i + 1] && bs[1..][i] == bs[i + 1];
      SortedPaired(pair, as_[1..], bs[1..]);
      InsertPaired(pair, as_[0], bs[0], Sorted(as_[1..]), Sorted(bs[1..]));
    }
  }

  lemma SortedTwins<W(!new)>(targets: iset<nat>, kinds: seq<nat>, as_: seq<Callback<W>>, bs: seq<Callback<W>>)
    requires Twins(targets, kinds, as_, bs)
    ensures Twins(targets, kinds, Sorted(as_), Sorted(bs))
  {
    SortedPaired((a, b) => Twin(targets, kinds, a, b), as_, bs);
  }

  lemma {:induction false} InsertDistinct<W>(c: Callback<W>, cs: seq<Callback<W>>)
    requires Distinct(cs) && forall x :: x in cs ==> x.handle != c.handle
    ensures Distinct(Insert(c, cs)) && forall x :: x in Insert(c, cs) ==> x == c || x in cs
  {
    if cs != [] && Before(cs[0], c) {
      InsertDistinct(c, cs[1..]);
      var rest := Insert(c, cs[1..]);
      assert forall i :: 0 <= i < |rest| ==> rest[i] in rest;
    }
  }

  lemma {:induction false} SortedDistinct<W>(cs: seq<Callback<W>>)
    requires Distinct(cs)
    ensures Distinct(Sorted(cs)) && forall x :: x in Sorted(cs) ==> x in cs
  {
    if cs != [] {
      SortedDistinct(cs[1..]);
      InsertDistinct(cs[0], Sorted(cs[1..]));
    }
  }

  lemma StartsAlike<W(!new)>(a: Target<W>, b: Target<W>, native: seq<Value>, world: W, trace: seq<Event>)
    requires SameTarget(a, b)
    ensures Level(a, b, Start(a, None, native, world, trace), Start(b, None, native, world, trace))
  {
  }

  lemma StartedAlike<W(!new)>(known: Known<W>, envA: seq<Target<W>>, envB: seq<Target<W>>, a: Target<W>, b: Target<W>,
        native: seq<Value>, roomA: nat, roomB: nat, world: W, trace: seq<Event>)
    requires Sides(known.targets, a, b) && Knows(known, envA) && Knows(known, envB)
    requires Enough(known, roomA, Recalls(known.targets, a.kinds, Sorted(a.callbacks), 0)) && Enough(known, roomB, 0)
    ensures SameEnd(Rest(envA, a, Sorted(a.callbacks), 0, Start(a, None, native, world, trace), roomA),
                    Rest(envB, b, Sorted(b.callbacks), 0, Start(b, None, native, world, trace), roomB))
  {
    StartsAlike(a, b, native, world, trace);
    RestAlike(known, envA, envB, a, b, 0, Start(a, None, native, world, trace), Start(b, None, native, world, trace), roomA, roomB);
  }

  lemma DispatchedAlike<W(!new)>(envA: seq<Target<W>>, envB: seq<Target<W>>, a: Target<W>, b: Target<W>,
        native: seq<Value>, roomA: nat, roomB: nat, world: W, trace: seq<Event>)
    requires roomA > 0 && roomB > 0
    requires SameEnd(Rest(envA, a, Sorted(a.callbacks), 0, Start(a, None, native, world, trace), roomA - 1),
                     Rest(envB, b, Sorted(b.callbacks), 0, Start(b, None, native, world, trace), roomB - 1))
    ensures SameOutcome(Dispatch(envA, a, None, native, roomA, world, trace), Dispatch(envB, b, None, native, roomB, world, trace))
  {
    DispatchUnfolds(envA, a, None, native, roomA, world, trace, Rest(envA, a, Sorted(a.callbacks), 0, Start(a, None, native, world, trace), roomA - 1));
    DispatchUnfolds(envB, b, None, native, roomB, world, trace, Rest(envB, b, Sorted(b.callbacks), 0, Start(b, None, native, world, trace), roomB - 1));
  }

  /** The same result, the same memory, and the same calls with the same arguments. */
  predicate SameOutcome<W(==)>(a: Outcome<W>, b: Outcome<W>) {
    a.value == b.value && a.world == b.world && a.trace == b.trace
  }

  /** One entry for the dispatch itself and one for each callback that can be granted a recall. */
  ghost function Needed<W(!new)>(targets: iset<nat>, t: Target<W>): nat {
    Recalls(targets, t.kinds, Sorted(t.callbacks), 0) + 1
  }

  /**
    Recall is transparent. However many callbacks recall, and on whichever calls, the calls made (with
    their arguments), the final result and everything plugins and originals remember are those of the
    dispatch where the same callbacks changed the arguments and simply continued. Where no callback calls
    a hooked function, this holds at every depth; where some do, each recall uses up one entry of the
    target stack, and there must be enough left for what they call.
   */
  lemma RecallIsTransparent<W(!new)>(known: Known<W>, envA: seq<Target<W>>, envB: seq<Target<W>>, a: Target<W>,
        b: Target<W>, native: seq<Value>, roomA: nat, roomB: nat, world: W, trace: seq<Event>)
    requires Knows(known, envA) && Knows(known, envB)
    requires Enough(known, roomA, Needed(known.targets, a)) && Enough(known, roomB, 1) && roomA > 0 && roomB > 0
    requires SameTarget(a, b) && Twins(known.targets, a.kinds, a.callbacks, b.callbacks) && Distinct(a.callbacks)
    ensures SameOutcome(Dispatch(envA, a, None, native, roomA, world, trace), Dispatch(envB, b, None, native, roomB, world, trace))
  {
    SortedTwins(known.targets, a.kinds, a.callbacks, b.callbacks);
    SortedDistinct(a.callbacks);
    StartedAlike(known, envA, envB, a, b, native, roomA - 1, roomB - 1, world, trace);
    DispatchedAlike(envA, envB, a, b, native, roomA, roomB, world, trace);
  }

  // ---- how hooked functions come to be known ----

  ghost predicate Tame<W(!new)>(targets: iset<nat>, t: Target<W>) {
    && Distinct(t.callbacks)
    && forall i :: 0 <= i < |t.callbacks| ==> Direct(targets, t.kinds, t.callbacks[i]) || Recaller(targets, t.kinds, t.callbacks[i])
  }

  ghost function PlainAll<W(!new)>(targets: iset<nat>, t: Target<W>): Target<W> {
    t.(callbacks := seq(|t.callbacks|, i requires 0 <= i < |t.callbacks| =>
      if Direct(targets, t.kinds, t.callbacks[i]) then t.callbacks[i] else Plain(t.callbacks[i])))
  }

  /** How deep a dispatch starts does not matter while there is room for all its recalls and calls. */
  lemma DepthIsIrrelevant<W(!new)>(known: Known<W>, env: seq<Target<W>>, t: Target<W>, native: seq<Value>, roomA: nat,
        roomB: nat, world: W, trace: seq<Event>)
    requires Tame(known.targets, t) && Knows(known, env) && roomA > 0 && roomB > 0
    requires Enough(known, roomA, Needed(known.targets, t)) && Enough(known, roomB, Needed(known.targets, t))
    ensures SameOutcome(Dispatch(env, t, None, native, roomA, world, trace), Dispatch(env, t, None, native, roomB, world, trace))
  {
    var plain := PlainAll(known.targets, t);
    var room := known.floor + 1;
    RecallIsTransparent(known, env, env, t, plain, native, roomA, room, world, trace);
    RecallIsTransparent(known, env, env, t, plain, native, roomB, room, world, trace);
  }

  /** One more hooked function known: its callbacks may call those known before, and recall. */
  ghost function Extended<W(!new)>(known: Known<W>, env: seq<Target<W>>, k: nat): Known<W>
    requires k < |env|
  {
    var floor := known.floor + Needed(known.targets, env[k]);
    Known(known.targets + iset{k}, floor,
      (t: nat, args: seq<Value>, w: W, trace: seq<Event>) =>
        if t == k && t < |env| then Reported(env, t, args, floor, w, trace) else known.answer(t, args, w, trace))
  }

  /** Everything that calls only what is known already becomes known. */
  lemma KnownExtends<W(!new)>(known: Known<W>, env: seq<Target<W>>, k: nat)
    requires k < |env| && Knows(known, env) && Tame(known.targets, env[k])
    ensures Knows(Extended(known, env, k), env)
  {
    var more := Extended(known, env, k);
    forall t, args, room, w, trace | t in more.targets && room >= more.floor
      ensures Reported(env, t, args, room, w, trace) == more.answer(t, args, w, trace)
    {
      if t == k {
        ExtendedAnswers(known, env, k, args, room, w, trace);
      } else {
        assert t in known.targets && room >= known.floor;
        assert Reported(env, t, args, room, w, trace) == known.answer(t, args, w, trace);
      }
    }
  }

  lemma ExtendedAnswers<W(!new)>(known: Known<W>, env: seq<Target<W>>, k: nat, args: seq<Value>, room: nat, w: W,
        trace: seq<Event>)
    requires k < |env| && Knows(known, env) && Tame(known.targets, env[k]) && room >= Extended(known, env, k).floor
    ensures Reported(env, k, args, room, w, trace) == Extended(known, env, k).answer(k, args, w, trace)
  {
    var floor := known.floor + Needed(known.targets, env[k]);
    DepthIsIrrelevant(known, env, env[k], args, room, floor, w, trace);
    assert Reported(env, k, args, room, w, trace) == Reported(env, k, args, floor, w, trace);
  }

  // ---- layers ----

  /** To begin with nothing is known. */
  ghost function NothingKnown<W>(): Known<W> {
    Known(iset{}, 0, (t: nat, args: seq<Value>, w: W, trace: seq<Event>) => Report(Zero(0), w, trace))
  }

  /** The callbacks of every hooked function call earlier ones only. */
  ghost predicate Layered<W(!new)>(env: seq<Target<W>>) {
    forall k :: 0 <= k < |env| ==> Tame(Below(k), env[k])
  }

  predicate Lower(t: nat, k: nat) {
    t < k
  }

  ghost function Below(k: nat): iset<nat> {
    iset t: nat | Lower(t, k)
  }

  /** What the first `k` functions do. */
  ghost function Layers<W(!new)>(env: seq<Target<W>>, k: nat): (known: Known<W>)
    requires k <= |env|
    ensures known.targets == Below(k)
  {
    if k == 0 then
      assert Below(0) == iset{};
      NothingKnown<W>()
    else
      var before := Layers(env, k - 1);
      assert before.targets + iset{k - 1} == Below(k);
      Extended(before, env, k - 1)
  }

  lemma LayerKnown<W(!new)>(env: seq<Target<W>>, k: nat)
    requires 0 < k <= |env| && Tame(Below(k - 1), env[k - 1]) && Knows(Layers(env, k - 1), env)
    ensures Knows(Layers(env, k), env)
  {
    KnownExtends(Layers(env, k - 1), env, k - 1);
  }

  lemma {:induction false} LayersKnown<W(!new)>(env: seq<Target<W>>, k: nat)
    requires Layered(env) && k <= |env|
    ensures Knows(Layers(env, k), env)
  {
    if k > 0 {
      LayersKnown(env, k - 1);
      LayerKnown(env, k);
    }
  }

  /** The entries of the target stack the first `k` functions need between them. */
  ghost function LayersNeed<W(!new)>(env: seq<Target<W>>, k: nat): nat
    requires k <= |env|
  {
    if k == 0 then 0 else LayersNeed(env, k - 1) + Needed(Below(k - 1), env[k - 1])
  }

  lemma {:induction false} LayersFloor<W(!new)>(env: seq<Target<W>>, k: nat)
    requires k <= |env|
    ensures Layers(env, k).floor == LayersNeed(env, k)
  {
    if k > 0 {
      LayersFloor(env, k - 1);
    }
  }

  /**
    Recall is transparent in a whole family of hooked functions whose callbacks call earlier ones: for
    each of them, as long as the stack holds the recalls of it and of all before it.
   */
  lemma RecallIsTransparentInLayers<W(!new)>(env: seq<Target<W>>, k: nat, b: Target<W>,
        native: seq<Value>, roomA: nat, roomB: nat, world: W, trace: seq<Event>)
    requires Layered(env) && k < |env| && SameTarget(env[k], b) && Twins(Below(k), env[k].kinds, env[k].callbacks, b.callbacks)
    requires roomA >= LayersNeed(env, k + 1) && roomB >= LayersNeed(env, k) + 1
    ensures SameOutcome(Dispatch(env, env[k], None, native, roomA, world, trace), Dispatch(env, b, None, native, roomB, world, trace))
  {
    var known := Layers(env, k);
    LayersKnown(env, k);
    LayersFloor(env, k);
    RecallIsTransparent(known, env, env, env[k], b, native, roomA, roomB, world, trace);
  }
}
