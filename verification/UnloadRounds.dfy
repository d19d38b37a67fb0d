/**
  When unloading everything leaves nothing behind that could still be unloaded. The passes are followed
  as sets of attempted plugins, worked out from the state before the call alone.
 */
module UnloadRounds {
  import opened PluginUnload

  // ---- one pass, as a set ----

  /** An attempt on it takes its leases away, whether or not it then fails. */
  predicate Yields(start: Sys, o: Oracle, c: nat) {
    c in start.recs && c !in o.resists && !start.recs[c].transitioning
  }

  function Yielded(start: Sys, o: Oracle, tried: set<nat>): set<nat> {
    set c | c in tried && Yields(start, o, c)
  }

  /** Everything that names it was unloaded when these were tried. */
  ghost predicate Unnamed(start: Sys, o: Oracle, tried: set<nat>, h: nat)
    requires h in start.recs
  {
    forall q :: q in start.recs && Wants(start.recs, q, h) ==> q in tried && !Fails(start, o, q)
  }

  /** Nothing stands in its way once these were tried. */
  ghost predicate Free(start: Sys, o: Oracle, tried: set<nat>, h: nat) {
    Unloadable(start, h) && h !in o.held(tried) && Unnamed(start, o, tried, h) && !LeasedBeyond(start.reg, h, Yielded(start, o, tried))
  }

  ghost function Tried(start: Sys, o: Oracle, tried: set<nat>, h: nat): set<nat> {
    if h !in tried && Free(start, o, tried, h) then tried + {h} else tried
  }

  ghost function Round(start: Sys, o: Oracle, tried: set<nat>, hs: seq<nat>): set<nat>
    decreases |hs|
  {
    if hs == [] then tried else Round(start, o, Tried(start, o, tried, hs[0]), hs[1..])
  }

  /** What the first `k` passes try. */
  ghost function Rounds(start: Sys, o: Oracle, hs: seq<nat>, k: nat): set<nat> {
    if k == 0 then {} else Round(start, o, Rounds(start, o, hs, k - 1), hs)
  }

  /** Between these two something was unloaded. */
  ghost predicate Progress(start: Sys, o: Oracle, before: set<nat>, after: set<nat>) {
    exists h :: h in after && h !in before && h in start.recs && !Fails(start, o, h)
  }

  /** The pass after the first `k` unloads something. */
  ghost predicate Moves(start: Sys, o: Oracle, hs: seq<nat>, k: nat) {
    Progress(start, o, Rounds(start, o, hs, k), Rounds(start, o, hs, k + 1))
  }

  /** A pass unloads nothing, and yet another pass would find something to try. */
  ghost predicate StallsAt(start: Sys, o: Oracle, hs: seq<nat>, k: nat) {
    !Moves(start, o, hs, k) && Rounds(start, o, hs, k + 2) != Rounds(start, o, hs, k + 1)
  }

  ghost predicate Stalls(start: Sys, o: Oracle, hs: seq<nat>) {
    exists k: nat :: StallsAt(start, o, hs, k)
  }

  // ---- the sets are what the passes do ----

  lemma GivenUp(start: Sys, s: Sys, o: Oracle)
    requires Kept(start, s, o)
    ensures Elements(s.gone) + Returned(s, o, start) == Yielded(start, o, Elements(s.attempted))
  {
    forall h | h in s.attempted
      ensures h in start.recs
    {
      assert h in s.gone || Fails(start, o, h);
    }
  }

  lemma NamedIff(start: Sys, s: Sys, o: Oracle, h: nat)
    requires Kept(start, s, o) && h in s.recs
    ensures Wanted(s.recs, h) <==> !Unnamed(start, o, Elements(s.attempted), h)
  {
    assert SameShape(s.recs[h], start.recs[h]);
    if Wanted(s.recs, h) {
      var q :| q in s.recs && Wants(s.recs, q, h);
      assert SameShape(s.recs[q], start.recs[q]) && Wants(start.recs, q, h);
      assert q !in s.gone;
    }
    if !Unnamed(start, o, Elements(s.attempted), h) {
      var q :| q in start.recs && Wants(start.recs, q, h) && !(q in Elements(s.attempted) && !Fails(start, o, q));
      assert q !in s.gone && q in s.recs && SameShape(s.recs[q], start.recs[q]);
      assert Wants(s.recs, q, h);
    }
  }

  lemma FreeIff(start: Sys, s: Sys, o: Oracle, h: nat)
    requires Kept(start, s, o) && h !in s.attempted
    ensures Free(start, o, Elements(s.attempted), h) <==> Unloadable(s, h) && !Blocked(s, o, h)
  {
    assert h !in s.gone;
    if h in s.recs {
      assert s.recs[h] == start.recs[h];
      NamedIff(start, s, o, h);
      GivenUp(start, s, o);
      LeasedIff(start, s, o, h);
    }
  }

  lemma VisitTries(start: Sys, s: Sys, o: Oracle, h: nat)
    requires Kept(start, s, o)
    ensures Elements(Visit(s, o, h).attempted) == Tried(start, o, Elements(s.attempted), h)
  {
    if h !in s.attempted {
      FreeIff(start, s, o, h);
    }
    if Due(s, o, h) {
      assert Elements(s.attempted + [h]) == Elements(s.attempted) + {h};
    }
  }

  lemma {:induction false} PassTries(start: Sys, s: Sys, o: Oracle, hs: seq<nat>)
    requires Kept(start, s, o)
    ensures Elements(Pass(s, o, hs).attempted) == Round(start, o, Elements(s.attempted), hs)
    decreases |hs|
  {
    if hs != [] {
      VisitTries(start, s, o, hs[0]);
      VisitKeeps(start, s, o, hs[0]);
      PassTries(start, Visit(s, o, hs[0]), o, hs[1..]);
    }
  }

  /** A pass unloads something exactly when it tries something that does not fail. */
  lemma PassProgress(start: Sys, s: Sys, o: Oracle, hs: seq<nat>)
    requires Kept(start, s, o)
    ensures Pass(s, o, hs).gone != s.gone <==> Progress(start, o, Elements(s.attempted), Elements(Pass(s, o, hs).attempted))
  {
    var next := Pass(s, o, hs);
    PassKeeps(start, s, o, hs);
    PassGrows(s, o, hs);
    if Progress(start, o, Elements(s.attempted), Elements(next.attempted)) {
      var h :| h in Elements(next.attempted) && h !in Elements(s.attempted) && h in start.recs && !Fails(start, o, h);
      assert h in next.gone && h !in s.gone;
    }
    if next.gone != s.gone {
      PassGone(start, s, o, hs);
    }
  }

  lemma {:induction false} PassGone(start: Sys, s: Sys, o: Oracle, hs: seq<nat>)
    requires Kept(start, s, o) && Pass(s, o, hs).gone != s.gone
    ensures Progress(start, o, Elements(s.attempted), Elements(Pass(s, o, hs).attempted))
    decreases |hs|
  {
    var next := Visit(s, o, hs[0]);
    VisitKeeps(start, s, o, hs[0]);
    PassGrows(next, o, hs[1..]);
    if next.gone != s.gone {
      assert hs[0] in next.attempted && hs[0] !in s.attempted && hs[0] in next.gone;
      assert hs[0] in Pass(s, o, hs).attempted;
    } else {
      PassGone(start, next, o, hs[1..]);
      var h :| h in Elements(Pass(s, o, hs).attempted) && h !in Elements(next.attempted) && h in start.recs && !Fails(start, o, h);
      assert h !in s.attempted;
    }
  }

  // ---- where the passes end ----

  /** Pass `n - 1` is the first from `k` on that unloads nothing. */
  ghost predicate Stops(start: Sys, o: Oracle, hs: seq<nat>, k: nat, n: nat)
    decreases n - k
  {
    if n <= k then false
    else if Moves(start, o, hs, k) then Stops(start, o, hs, k + 1, n)
    else n == k + 1
  }

  lemma {:induction false} StopsMeans(start: Sys, o: Oracle, hs: seq<nat>, k: nat, n: nat)
    requires Stops(start, o, hs, k, n)
    ensures n > k && !Moves(start, o, hs, n - 1)
    ensures forall j :: k <= j < n - 1 ==> Moves(start, o, hs, j)
    decreases n - k
  {
    if Moves(start, o, hs, k) {
      StopsMeans(start, o, hs, k + 1, n);
    }
  }

  lemma {:induction false} AllStops(start: Sys, s: Sys, o: Oracle, hs: seq<nat>, k: nat) returns (n: nat)
    requires Kept(start, s, o) && Orderly(s, hs) && Elements(s.attempted) == Rounds(start, o, hs, k)
    ensures n > k && Elements(All(s, o, hs).attempted) == Rounds(start, o, hs, n) && Stops(start, o, hs, k, n)
    decreases |Elements(hs)| - |s.attempted|
  {
    n := k + 1;
    var next := RoundStep(start, s, o, hs, k);
    if Moves(start, o, hs, k) {
      n := AllStops(start, next, o, hs, k + 1);
    }
  }

  /** The last pass is the first that unloads nothing. */
  lemma AllRounds(start: Sys, s: Sys, o: Oracle, hs: seq<nat>, k: nat) returns (n: nat)
    requires Kept(start, s, o) && Orderly(s, hs) && Elements(s.attempted) == Rounds(start, o, hs, k)
    ensures n > k && Elements(All(s, o, hs).attempted) == Rounds(start, o, hs, n)
    ensures !Moves(start, o, hs, n - 1)
    ensures forall j :: k <= j < n - 1 ==> Moves(start, o, hs, j)
  {
    n := AllStops(start, s, o, hs, k);
    StopsMeans(start, o, hs, k, n);
  }

  lemma RoundStep(start: Sys, s: Sys, o: Oracle, hs: seq<nat>, k: nat) returns (next: Sys)
    requires Kept(start, s, o) && Orderly(s, hs) && Elements(s.attempted) == Rounds(start, o, hs, k)
    ensures Kept(start, next, o) && Orderly(next, hs) && Elements(next.attempted) == Rounds(start, o, hs, k + 1)
    ensures Moves(start, o, hs, k) ==> All(s, o, hs) == All(next, o, hs) && |s.attempted| < |next.attempted| <= |Elements(hs)|
    ensures !Moves(start, o, hs, k) ==> All(s, o, hs) == next
  {
    next := Pass(s, o, hs);
    PassIsRound(start, s, o, hs, k);
    AllUnfolds(s, o, hs);
  }

  lemma AllUnfolds(s: Sys, o: Oracle, hs: seq<nat>)
    requires Orderly(s, hs)
    ensures var next := Pass(s, o, hs);
      && Orderly(next, hs) && (next.gone != s.gone ==> |s.attempted| < |next.attempted| <= |Elements(hs)|)
      && All(s, o, hs) == if next.gone == s.gone then next else All(next, o, hs)
  {
    PassGrows(s, o, hs);
    PassOrderly(s, o, hs, hs);
    DistinctBounded(Pass(s, o, hs).attempted, Elements(hs));
  }

  lemma PassIsRound(start: Sys, s: Sys, o: Oracle, hs: seq<nat>, k: nat)
    requires Kept(start, s, o) && Elements(s.attempted) == Rounds(start, o, hs, k)
    ensures var next := Pass(s, o, hs);
      && Kept(start, next, o) && Elements(next.attempted) == Rounds(start, o, hs, k + 1)
      && (next.gone != s.gone <==> Moves(start, o, hs, k))
  {
    PassTries(start, s, o, hs);
    PassProgress(start, s, o, hs);
    PassKeeps(start, s, o, hs);
  }

  lemma {:induction false} RoundGrows(start: Sys, o: Oracle, tried: set<nat>, hs: seq<nat>)
    ensures tried <= Round(start, o, tried, hs)
    decreases |hs|
  {
    if hs != [] {
      RoundGrows(start, o, Tried(start, o, tried, hs[0]), hs[1..]);
    }
  }

  /** A pass tries nothing exactly when nothing untried is free. */
  lemma {:induction false} RoundIdle(start: Sys, o: Oracle, tried: set<nat>, hs: seq<nat>)
    ensures Round(start, o, tried, hs) == tried <==> forall h :: h in hs && h !in tried ==> !Free(start, o, tried, h)
    decreases |hs|
  {
    if hs != [] {
      if hs[0] !in tried && Free(start, o, tried, hs[0]) {
        RoundGrows(start, o, tried + {hs[0]}, hs[1..]);
        assert hs[0] in Round(start, o, tried, hs);
      } else {
        RoundIdle(start, o, tried, hs[1..]);
        assert forall h :: h in hs <==> h == hs[0] || h in hs[1..];
      }
    }
  }

  /** Once a pass tries nothing, no later pass does. */
  lemma {:induction false} RoundsRest(start: Sys, o: Oracle, hs: seq<nat>, n: nat, k: nat)
    requires Rounds(start, o, hs, n + 1) == Rounds(start, o, hs, n) && n <= k
    ensures Rounds(start, o, hs, k) == Rounds(start, o, hs, n)
  {
    if n < k {
      RoundsRest(start, o, hs, n, k - 1);
    }
  }

  lemma RestNoStall(start: Sys, o: Oracle, hs: seq<nat>, n: nat, k: nat)
    requires n <= k + 1
    ensures Rounds(start, o, hs, n + 1) == Rounds(start, o, hs, n) ==> Rounds(start, o, hs, k + 2) == Rounds(start, o, hs, k + 1)
  {
    if Rounds(start, o, hs, n + 1) == Rounds(start, o, hs, n) {
      RoundsRest(start, o, hs, n, k + 1);
      RoundsRest(start, o, hs, n, k + 2);
    }
  }

  lemma StallsIff(start: Sys, o: Oracle, hs: seq<nat>, n: nat)
    requires n > 0 && !Moves(start, o, hs, n - 1)
    requires forall j :: 0 <= j < n - 1 ==> Moves(start, o, hs, j)
    ensures Stalls(start, o, hs) <==> Rounds(start, o, hs, n + 1) != Rounds(start, o, hs, n)
  {
    if Rounds(start, o, hs, n + 1) != Rounds(start, o, hs, n) {
      assert StallsAt(start, o, hs, n - 1);
    }
    if Stalls(start, o, hs) {
      var k: nat :| StallsAt(start, o, hs, k);
      assert k >= n - 1;
      RestNoStall(start, o, hs, n, k);
    }
  }

  /**
    Whatever is left over at the end is still blocked, exactly when no pass unloads nothing and yet makes
    room for another attempt.
   */
  lemma StillBlockedIff(start: Sys, o: Oracle, hs: seq<nat>)
    requires Untouched(start) && Orderly(start, hs)
    ensures var end := All(start, o, hs);
      (forall h :: LeftOver(end, hs, h) ==> Blocked(end, o, h)) <==> !Stalls(start, o, hs)
  {
    UntouchedKept(start, o, hs);
    AllKeeps(start, start, o, hs);
    var end := All(start, o, hs);
    var n := AllRounds(start, start, o, hs, 0);
    StallsIff(start, o, hs, n);
    var tried := Elements(end.attempted);
    RoundIdle(start, o, tried, hs);
    forall h | h in hs && h !in tried
      ensures Free(start, o, tried, h) <==> LeftOver(end, hs, h) && !Blocked(end, o, h)
    {
      FreeIff(start, end, o, h);
    }
  }

  // ---- a condition on the plugins ----

  /** `c` leases a service of `h`. */
  ghost predicate Leases(start: Sys, c: nat, h: nat) {
    exists k :: k in start.reg.pubs && start.reg.pubs[k].provider == h && c in start.reg.pubs[k].consumers
  }

  /** A consumer that fails late stands behind the provider. */
  ghost predicate LateBehind(start: Sys, o: Oracle, hs: seq<nat>) {
    exists i, j :: 0 <= i < j < |hs| && hs[j] in o.late && Leases(start, hs[j], hs[i])
  }

  /** No attempt on a plugin lets go of another. */
  ghost predicate Lasting(o: Oracle) {
    forall a, b :: a <= b ==> o.held(a) <= o.held(b)
  }

  /** The first untried that a pass finds free was not free when the pass before looked at it: someone behind it made room. */
  lemma {:induction false} MadeRoom(start: Sys, o: Oracle, tried: set<nat>, hs: seq<nat>, i: nat) returns (j: nat)
    requires Lasting(o) && i < |hs| && hs[i] !in Round(start, o, tried, hs) && Free(start, o, Round(start, o, tried, hs), hs[i])
    requires forall h :: h in Round(start, o, tried, hs) && h !in tried ==> h in start.recs && Fails(start, o, h)
    ensures i < j < |hs| && hs[j] in o.late && Leases(start, hs[j], hs[i])
    decreases |hs|
  {
    var next := Tried(start, o, tried, hs[0]);
    RoundGrows(start, o, next, hs[1..]);
    if i > 0 {
      var k := MadeRoom(start, o, next, hs[1..], i - 1);
      j := k + 1;
    } else {
      var b := Blocking(start, o, tried, Round(start, o, tried, hs), hs[0]);
      assert b in Round(start, o, next, hs[1..]) && b !in next;
      var k := RoundHas(start, o, next, hs[1..], b);
      j := k + 1;
    }
  }

  /** What was in the way before, and no longer is, is a lease that a failing consumer gave up. */
  lemma Blocking(start: Sys, o: Oracle, before: set<nat>, after: set<nat>, h: nat) returns (c: nat)
    requires Lasting(o) && before <= after && Free(start, o, after, h) && !Free(start, o, before, h)
    requires forall x :: x in after && x !in before ==> x in start.recs && Fails(start, o, x)
    ensures c in after && c !in before && c in o.late && Leases(start, c, h)
  {
    assert o.held(before) <= o.held(after);
    assert Unnamed(start, o, before, h);
    var k :| k in start.reg.pubs && start.reg.pubs[k].provider == h && start.reg.pubs[k].consumers - Yielded(start, o, before) != {};
    c :| c in start.reg.pubs[k].consumers - Yielded(start, o, before);
    assert start.reg.pubs[k].consumers - Yielded(start, o, after) == {};
    assert c !in start.reg.pubs[k].consumers - Yielded(start, o, after);
    assert c in Yielded(start, o, after);
  }

  lemma {:induction false} RoundHas(start: Sys, o: Oracle, tried: set<nat>, hs: seq<nat>, h: nat) returns (j: nat)
    requires h in Round(start, o, tried, hs) && h !in tried
    ensures j < |hs| && hs[j] == h
    decreases |hs|
  {
    j := 0;
    if hs[0] != h {
      var k := RoundHas(start, o, Tried(start, o, tried, hs[0]), hs[1..], h);
      j := k + 1;
    }
  }

  lemma StallNeedsLate(start: Sys, o: Oracle, hs: seq<nat>, k: nat)
    requires Lasting(o) && StallsAt(start, o, hs, k)
    ensures LateBehind(start, o, hs)
  {
    var before, after := Rounds(start, o, hs, k), Rounds(start, o, hs, k + 1);
    RoundIdle(start, o, after, hs);
    var h :| h in hs && h !in after && Free(start, o, after, h);
    var i :| 0 <= i < |hs| && hs[i] == h;
    RoundFails(start, o, before, hs);
    var j := MadeRoom(start, o, before, hs, i);
  }

  /** Only plugins with a record are tried. */
  lemma {:induction false} RoundFails(start: Sys, o: Oracle, tried: set<nat>, hs: seq<nat>)
    ensures forall h :: h in Round(start, o, tried, hs) && h !in tried ==> h in start.recs
    decreases |hs|
  {
    if hs != [] {
      RoundFails(start, o, Tried(start, o, tried, hs[0]), hs[1..]);
    }
  }

  /** If no consumer that fails late stands behind its provider in the order of unloading, all that is left over is blocked. */
  lemma LeftOverIsBlocked(start: Sys, o: Oracle, hs: seq<nat>, h: nat)
    requires Untouched(start) && Orderly(start, hs) && Lasting(o) && !LateBehind(start, o, hs)
    requires LeftOver(All(start, o, hs), hs, h)
    ensures Blocked(All(start, o, hs), o, h)
  {
    StillBlockedIff(start, o, hs);
    if Stalls(start, o, hs) {
      var k: nat :| StallsAt(start, o, hs, k);
      StallNeedsLate(start, o, hs, k);
    }
  }

  /** The call of `LateFailureLeavesUnblocked` stalls in its first pass. */
  lemma LateStartStalls()
    ensures Stalls(LateStart, LateOracle, [1, 2])
  {
    LateFailureLeavesUnblocked();
    StillBlockedIff(LateStart, LateOracle, [1, 2]);
  }
}
