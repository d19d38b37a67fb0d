/**
  Unloading everything: passes over the reversed load order until a pass unloads nothing, each plugin
  attempted once at most. An oracle gives the outcome of each plugin's one attempt, and who is held by
  something else after any attempts.
 */
module PluginUnload {
  import opened Options
  import opened PublishedServices
  import opened HostProtocol

  /**
    `held(tried)`: plugins with a callback or native operation under way, or pinned by a factory, once those
    of `tried` were attempted. An attempt on a plugin of `resists` fails before its services are released,
    on one of `late` after; the former is put back to work if it is in `restored` and quarantined if it is
    in `quarantined`.
   */
  datatype Oracle = Oracle(held: set<nat> -> set<nat>, resists: set<nat>, late: set<nat>, restored: set<nat>, quarantined: set<nat>)

  datatype Sys = Sys(recs: map<nat, Plugin>, reg: Registry, attempted: seq<nat>, gone: seq<nat>)

  ghost predicate Wanted(recs: map<nat, Plugin>, h: nat)
    requires h in recs
  {
    exists q :: q in recs && Wants(recs, q, h)
  }

  /** `q` runs, or its module is open, and it names `h`. */
  predicate Wants(recs: map<nat, Plugin>, q: nat, h: nat)
    requires q in recs && h in recs
  {
    q != h && (recs[q].state == Loaded || recs[q].open) && Names(recs[q], recs[h].name)
  }

  ghost predicate Blocked(s: Sys, o: Oracle, h: nat)
    requires h in s.recs
  {
    h in o.held(Elements(s.attempted)) || Wanted(s.recs, h) || s.reg.Leased(h)
  }

  function Elements(hs: seq<nat>): set<nat> {
    set h | h in hs
  }

  /** Held, or among the dependencies of another plugin that runs or has its module open, or lending a service to someone. */
  lemma BlockedIff(s: Sys, o: Oracle, h: nat)
    requires h in s.recs
    ensures Blocked(s, o, h) <==>
      || h in o.held(Elements(s.attempted))
      || (exists q, i :: q in s.recs && q != h && 0 <= i < |s.recs[q].deps| && s.recs[q].deps[i].name == s.recs[h].name
                         && (s.recs[q].state == Loaded || s.recs[q].open))
      || (exists publication, c :: s.reg.Lends(publication, c) && s.reg.pubs[publication].provider == h)
  {
    if s.reg.Leased(h) {
      var publication :| publication in s.reg.pubs && s.reg.pubs[publication].provider == h && s.reg.pubs[publication].consumers != {};
      var c :| c in s.reg.pubs[publication].consumers;
      assert s.reg.Lends(publication, c);
    }
    if q, i :| q in s.recs && q != h && 0 <= i < |s.recs[q].deps| && s.recs[q].deps[i].name == s.recs[h].name
               && (s.recs[q].state == Loaded || s.recs[q].open) {
      assert Wants(s.recs, q, h);
    }
    if q :| q in s.recs && Wants(s.recs, q, h) {
      var i :| 0 <= i < |s.recs[q].deps| && s.recs[q].deps[i].name == s.recs[h].name;
      assert q != h;
    }
  }

  predicate Unloadable(s: Sys, h: nat) {
    h in s.recs && s.recs[h].open && Live(s.recs[h])
  }

  /** What an attempt that fails leaves of the record. */
  function Retained(p: Plugin, o: Oracle, h: nat): Plugin
    requires Live(p) && !p.transitioning
  {
    var begun := Acted(p, UnloadBegin, true);
    if h in o.resists then Acted(begun, UnloadFail(h in o.restored, h in o.quarantined && h !in o.restored), true)
    else Acted(begun.(doing := Released), UnloadFail(false, true), true)
  }

  /** One unload command on a plugin that is live and not blocked. */
  ghost function Attempt(s: Sys, o: Oracle, h: nat): Sys
    requires Unloadable(s, h)
  {
    var tried := s.(attempted := s.attempted + [h]);
    if s.recs[h].transitioning then tried
    else if h in o.resists then tried.(recs := s.recs[h := Retained(s.recs[h], o, h)])
    else if h in o.late then tried.(recs := s.recs[h := Retained(s.recs[h], o, h)], reg := s.reg.Without(h))
    else tried.(recs := s.recs - {h}, reg := s.reg.Without(h), gone := s.gone + [h])
  }

  ghost predicate Due(s: Sys, o: Oracle, h: nat) {
    Unloadable(s, h) && h !in s.attempted && !Blocked(s, o, h)
  }

  ghost function Visit(s: Sys, o: Oracle, h: nat): Sys {
    if Due(s, o, h) then Attempt(s, o, h) else s
  }

  ghost function Pass(s: Sys, o: Oracle, hs: seq<nat>): Sys
    decreases |hs|
  {
    if hs == [] then s else Pass(Visit(s, o, hs[0]), o, hs[1..])
  }

  lemma {:induction false} PassGrows(s: Sys, o: Oracle, hs: seq<nat>)
    ensures s.gone <= Pass(s, o, hs).gone && s.attempted <= Pass(s, o, hs).attempted
    ensures |Pass(s, o, hs).gone| - |s.gone| <= |Pass(s, o, hs).attempted| - |s.attempted|
    decreases |hs|
  {
    if hs != [] {
      PassGrows(Visit(s, o, hs[0]), o, hs[1..]);
    }
  }

  ghost predicate Distinct(q: seq<nat>) {
    forall i, j :: 0 <= i < j < |q| ==> q[i] != q[j]
  }

  /** Nothing is attempted twice, and only plugins of the load order are attempted. */
  ghost predicate Orderly(s: Sys, hs: seq<nat>) {
    Distinct(s.attempted) && forall h :: h in s.attempted ==> h in hs
  }

  lemma {:induction false} PassOrderly(s: Sys, o: Oracle, hs: seq<nat>, all: seq<nat>)
    requires Orderly(s, all) && forall h :: h in hs ==> h in all
    ensures Orderly(Pass(s, o, hs), all)
    decreases |hs|
  {
    if hs != [] {
      PassOrderly(Visit(s, o, hs[0]), o, hs[1..], all);
    }
  }

  lemma {:induction false} DistinctBounded(q: seq<nat>, among: set<nat>)
    requires Distinct(q) && forall i :: 0 <= i < |q| ==> q[i] in among
    ensures |q| <= |among|
  {
    if q != [] {
      var last := q[|q| - 1];
      DistinctBounded(q[..|q| - 1], among - {last});
    }
  }

  /** Passes until one unloads nothing. */
  ghost function All(s: Sys, o: Oracle, hs: seq<nat>): Sys
    requires Orderly(s, hs)
    decreases |Elements(hs)| - |s.attempted|
  {
    PassGrows(s, o, hs);
    PassOrderly(s, o, hs, hs);
    DistinctBounded(Pass(s, o, hs).attempted, Elements(hs));
    var next := Pass(s, o, hs);
    if next.gone == s.gone then next else All(next, o, hs)
  }

  // ---- what holds after any number of visits ----

  /** The attempts of `s` that failed after giving up the plugin's leases. */
  function Returned(s: Sys, o: Oracle, start: Sys): set<nat> {
    set h | h in s.attempted && h in o.late && h !in o.resists && h in start.recs && !start.recs[h].transitioning
  }

  /** Someone outside `except` held a lease of `h` in this registry. */
  ghost predicate LeasedBeyond(reg: Registry, h: nat, except: set<nat>) {
    exists k :: k in reg.pubs && reg.pubs[k].provider == h && reg.pubs[k].consumers - except != {}
  }

  ghost predicate RecordsKept(start: Sys, s: Sys) {
    && s.recs.Keys == start.recs.Keys - Elements(s.gone)
    && forall h :: h in s.recs ==> && SameShape(s.recs[h], start.recs[h])
                                   && (h !in s.attempted ==> s.recs[h] == start.recs[h])
  }

  predicate SameShape(p: Plugin, q: Plugin) {
    p.name == q.name && p.deps == q.deps && p.state == q.state && p.open == q.open && p.transitioning == q.transitioning
  }

  ghost predicate ServicesKept(start: Sys, s: Sys, o: Oracle) {
    var given := Elements(s.gone) + Returned(s, o, start);
    s.reg.pubs == map k | k in start.reg.pubs && start.reg.pubs[k].provider !in given
      :: start.reg.pubs[k].(consumers := start.reg.pubs[k].consumers - given)
  }

  /** Whatever named an unloaded plugin went before it. */
  ghost predicate DependentsFirst(start: Sys, gone: seq<nat>) {
    forall i, q :: 0 <= i < |gone| && gone[i] in start.recs && q in start.recs && Wants(start.recs, q, gone[i]) ==> q in gone[..i]
  }

  ghost predicate AttemptsKept(start: Sys, s: Sys, o: Oracle) {
    && (forall h :: h in s.gone ==> h in start.recs && h in s.attempted && !Fails(start, o, h))
    && (forall h :: h in s.attempted && h !in s.gone ==> h in start.recs && Fails(start, o, h))
  }

  predicate Fails(start: Sys, o: Oracle, h: nat)
    requires h in start.recs
  {
    h in o.resists || h in o.late || start.recs[h].transitioning
  }

  ghost predicate Kept(start: Sys, s: Sys, o: Oracle) {
    RecordsKept(start, s) && ServicesKept(start, s, o) && DependentsFirst(start, s.gone) && AttemptsKept(start, s, o)
  }

  lemma RetainedShape(p: Plugin, o: Oracle, h: nat)
    requires Live(p) && !p.transitioning
    ensures SameShape(Retained(p, o, h), p)
  {
  }

  /** A plugin whose unload failed takes on resources again only if it was put back to work, and is put aside only if it could not be. */
  lemma RetainedMeans(p: Plugin, o: Oracle, h: nat)
    requires Live(p) && !p.transitioning
    ensures var q := Retained(p, o, h);
      && q.doing == Idle && (q.accepting <==> h in o.resists && h in o.restored)
      && (q.cleanup <==> p.cleanup || (if h in o.resists then h in o.quarantined && h !in o.restored else true))
  {
  }

  lemma RecordRetained(start: Sys, s: Sys, after: Sys, h: nat, p: Plugin)
    requires RecordsKept(start, s) && h in s.recs && SameShape(p, s.recs[h])
    requires after.recs == s.recs[h := p] && after.attempted == s.attempted + [h] && after.gone == s.gone
    ensures RecordsKept(start, after)
  {
    assert SameShape(s.recs[h], start.recs[h]);
  }

  lemma RecordGone(start: Sys, s: Sys, after: Sys, h: nat)
    requires RecordsKept(start, s) && h in s.recs
    requires after.recs == s.recs - {h} && after.attempted == s.attempted + [h] && after.gone == s.gone + [h]
    ensures RecordsKept(start, after)
  {
    assert Elements(after.gone) == Elements(s.gone) + {h};
  }

  lemma AttemptKeepsRecords(start: Sys, s: Sys, o: Oracle, h: nat)
    requires RecordsKept(start, s) && Due(s, o, h)
    ensures RecordsKept(start, Attempt(s, o, h))
    ensures h in start.recs && s.recs[h] == start.recs[h]
  {
    assert SameShape(s.recs[h], start.recs[h]);
    var p, after := s.recs[h], Attempt(s, o, h);
    if p.transitioning {
      assert s.recs == s.recs[h := p];
      RecordRetained(start, s, after, h, p);
    } else if h in o.resists || h in o.late {
      RetainedShape(p, o, h);
      RecordRetained(start, s, after, h, Retained(p, o, h));
    } else {
      RecordGone(start, s, after, h);
    }
  }

  lemma AttemptKeepsAttempts(start: Sys, s: Sys, o: Oracle, h: nat)
    requires AttemptsKept(start, s, o) && Due(s, o, h) && h in start.recs && s.recs[h] == start.recs[h]
    ensures AttemptsKept(start, Attempt(s, o, h), o)
  {
  }

  lemma WithoutGiven(start: Sys, s: Sys, o: Oracle, after: Sys, h: nat)
    requires ServicesKept(start, s, o) && after.reg == s.reg.Without(h)
    requires Elements(after.gone) + Returned(after, o, start) == Elements(s.gone) + Returned(s, o, start) + {h}
    ensures ServicesKept(start, after, o)
  {
    var given := Elements(s.gone) + Returned(s, o, start);
    forall k | k in after.reg.pubs
      ensures after.reg.pubs[k] == start.reg.pubs[k].(consumers := start.reg.pubs[k].consumers - (given + {h}))
    {
      assert start.reg.pubs[k].consumers - given - {h} == start.reg.pubs[k].consumers - (given + {h});
    }
  }

  lemma AttemptKeepsServices(start: Sys, s: Sys, o: Oracle, h: nat)
    requires ServicesKept(start, s, o) && Due(s, o, h) && h in start.recs && s.recs[h] == start.recs[h]
    ensures ServicesKept(start, Attempt(s, o, h), o)
  {
    var after := Attempt(s, o, h);
    if s.recs[h].transitioning || h in o.resists {
      assert Returned(after, o, start) == Returned(s, o, start);
    } else if h in o.late {
      assert Returned(after, o, start) == Returned(s, o, start) + {h};
      WithoutGiven(start, s, o, after, h);
    } else {
      assert Returned(after, o, start) == Returned(s, o, start);
      assert Elements(after.gone) == Elements(s.gone) + {h};
      WithoutGiven(start, s, o, after, h);
    }
  }

  lemma AttemptKeepsOrder(start: Sys, s: Sys, o: Oracle, h: nat)
    requires RecordsKept(start, s) && DependentsFirst(start, s.gone) && Due(s, o, h) && h in start.recs
    ensures DependentsFirst(start, Attempt(s, o, h).gone)
  {
    var gone := Attempt(s, o, h).gone;
    forall i, q | 0 <= i < |gone| && gone[i] in start.recs && q in start.recs && Wants(start.recs, q, gone[i])
      ensures q in gone[..i]
    {
      if i < |s.gone| {
        assert gone[..i] == s.gone[..i];
      } else {
        assert gone[..i] == s.gone && SameShape(s.recs[h], start.recs[h]);
        assert q in s.recs ==> SameShape(s.recs[q], start.recs[q]);
        assert q in s.recs ==> Wants(s.recs, q, h);
      }
    }
  }

  lemma VisitKeeps(start: Sys, s: Sys, o: Oracle, h: nat)
    requires Kept(start, s, o)
    ensures Kept(start, Visit(s, o, h), o)
  {
    if Due(s, o, h) {
      AttemptKeepsRecords(start, s, o, h);
      AttemptKeepsAttempts(start, s, o, h);
      AttemptKeepsServices(start, s, o, h);
      AttemptKeepsOrder(start, s, o, h);
    }
  }

  lemma {:induction false} PassKeeps(start: Sys, s: Sys, o: Oracle, hs: seq<nat>)
    requires Kept(start, s, o)
    ensures Kept(start, Pass(s, o, hs), o)
    decreases |hs|
  {
    if hs != [] {
      VisitKeeps(start, s, o, hs[0]);
      PassKeeps(start, Visit(s, o, hs[0]), o, hs[1..]);
    }
  }

  lemma {:induction false} AllKeeps(start: Sys, s: Sys, o: Oracle, hs: seq<nat>)
    requires Kept(start, s, o) && Orderly(s, hs)
    ensures Kept(start, All(s, o, hs), o) && Orderly(All(s, o, hs), hs)
    decreases |Elements(hs)| - |s.attempted|
  {
    PassKeeps(start, s, o, hs);
    PassGrows(s, o, hs);
    PassOrderly(s, o, hs, hs);
    DistinctBounded(Pass(s, o, hs).attempted, Elements(hs));
    if Pass(s, o, hs).gone != s.gone {
      AllKeeps(start, Pass(s, o, hs), o, hs);
    }
  }

  // ---- where it stops ----

  /** It was held at some moment after the last unload. */
  ghost predicate HeldLast(o: Oracle, end: Sys, h: nat) {
    exists tried :: Elements(end.gone) <= tried <= Elements(end.attempted) && h in o.held(tried)
  }

  /** It was looked at in a pass that unloaded nothing, and something was in its way. */
  ghost predicate Refused(s: Sys, after: Sys, o: Oracle, h: nat) {
    h in after.attempted || !Unloadable(after, h) || HeldLast(o, after, h) || Wanted(after.recs, h) || s.reg.Leased(h)
  }

  lemma WantedStays(start: Sys, s: Sys, after: Sys, h: nat)
    requires RecordsKept(start, s) && RecordsKept(start, after) && s.gone == after.gone
    requires h in s.recs && Wanted(s.recs, h)
    ensures Wanted(after.recs, h)
  {
    var q :| q in s.recs && Wants(s.recs, q, h);
    assert SameShape(s.recs[q], start.recs[q]) && SameShape(after.recs[q], start.recs[q]);
    assert SameShape(s.recs[h], start.recs[h]) && SameShape(after.recs[h], start.recs[h]);
    assert Wants(after.recs, q, h);
  }

  lemma VisitReleases(s: Sys, o: Oracle, h: nat, g: nat)
    requires Visit(s, o, h).reg.Leased(g)
    ensures s.reg.Leased(g)
  {
    var reg := Visit(s, o, h).reg;
    var k :| k in reg.pubs && reg.pubs[k].provider == g && reg.pubs[k].consumers != {};
    assert s.reg.pubs[k].provider == g && s.reg.pubs[k].consumers != {};
  }

  /** The plugin looked at first is not touched again, so its verdict is the one at the end of the pass. */
  lemma IdleVisit(start: Sys, s: Sys, o: Oracle, h: nat, after: Sys)
    requires Kept(start, s, o) && Kept(start, after, o) && s.gone == after.gone
    requires Visit(s, o, h).attempted <= after.attempted
    ensures Refused(s, after, o, h)
  {
    if Due(s, o, h) {
      assert h in Visit(s, o, h).attempted;
    } else if h !in after.attempted && Unloadable(after, h) {
      assert SameShape(s.recs[h], start.recs[h]) && SameShape(after.recs[h], start.recs[h]);
      assert Elements(after.gone) <= Elements(s.attempted) <= Elements(after.attempted);
      if Wanted(s.recs, h) {
        WantedStays(start, s, after, h);
      }
    }
  }

  lemma {:induction false} IdlePass(start: Sys, s: Sys, o: Oracle, hs: seq<nat>, i: nat)
    requires Kept(start, s, o) && Pass(s, o, hs).gone == s.gone && i < |hs|
    ensures Refused(s, Pass(s, o, hs), o, hs[i])
    decreases |hs|
  {
    var next := Visit(s, o, hs[0]);
    PassGrows(next, o, hs[1..]);
    PassGrows(s, o, hs[..1]);
    assert s.gone <= next.gone;
    VisitKeeps(start, s, o, hs[0]);
    PassKeeps(start, next, o, hs[1..]);
    if i == 0 {
      IdleVisit(start, s, o, hs[0], Pass(s, o, hs));
    } else {
      IdlePass(start, next, o, hs[1..], i - 1);
      if next.reg.Leased(hs[i]) {
        VisitReleases(s, o, hs[0], hs[i]);
      }
    }
  }

  /** Left over: it could be unloaded by its state, and no attempt was made. */
  predicate LeftOver(s: Sys, hs: seq<nat>, h: nat) {
    h in hs && Unloadable(s, h) && h !in s.attempted
  }

  ghost predicate Untouched(s: Sys) {
    s.attempted == [] && s.gone == []
  }

  lemma UntouchedKept(start: Sys, o: Oracle, hs: seq<nat>)
    requires Untouched(start)
    ensures Kept(start, start, o) && Orderly(start, hs)
  {
    var given := Elements(start.gone) + Returned(start, o, start);
    assert given == {};
    forall k | k in start.reg.pubs
      ensures start.reg.pubs[k].(consumers := start.reg.pubs[k].consumers - given) == start.reg.pubs[k]
    {
      assert start.reg.pubs[k].consumers - given == start.reg.pubs[k].consumers;
    }
  }

  lemma LeasedIff(start: Sys, s: Sys, o: Oracle, h: nat)
    requires Kept(start, s, o) && h in s.recs && h !in s.attempted
    ensures s.reg.Leased(h) <==> LeasedBeyond(start.reg, h, Elements(s.gone) + Returned(s, o, start))
  {
    var given := Elements(s.gone) + Returned(s, o, start);
    assert h !in given;
    if LeasedBeyond(start.reg, h, given) {
      var k :| k in start.reg.pubs && start.reg.pubs[k].provider == h && start.reg.pubs[k].consumers - given != {};
      assert k in s.reg.pubs && s.reg.pubs[k].provider == h;
    }
  }

  lemma {:induction false} LastPass(start: Sys, s: Sys, o: Oracle, hs: seq<nat>, h: nat)
    requires Kept(start, s, o) && Orderly(s, hs) && LeftOver(All(s, o, hs), hs, h)
    ensures var end := All(s, o, hs);
      HeldLast(o, end, h) || Wanted(end.recs, h) || LeasedBeyond(start.reg, h, Elements(end.gone))
    decreases |Elements(hs)| - |s.attempted|
  {
    PassKeeps(start, s, o, hs);
    PassGrows(s, o, hs);
    PassOrderly(s, o, hs, hs);
    DistinctBounded(Pass(s, o, hs).attempted, Elements(hs));
    var next := Pass(s, o, hs);
    if next.gone != s.gone {
      LastPass(start, next, o, hs, h);
    } else {
      var i :| 0 <= i < |hs| && hs[i] == h;
      IdlePass(start, s, o, hs, i);
      assert s.attempted <= next.attempted && h !in s.attempted;
      if s.reg.Leased(h) {
        LeasedIff(start, s, o, h);
        LeasedBeyondLess(start.reg, h, Elements(s.gone), Elements(s.gone) + Returned(s, o, start));
      }
    }
  }

  lemma LeasedBeyondLess(reg: Registry, h: nat, less: set<nat>, more: set<nat>)
    requires less <= more && LeasedBeyond(reg, h, more)
    ensures LeasedBeyond(reg, h, less)
  {
    var k :| k in reg.pubs && reg.pubs[k].provider == h && reg.pubs[k].consumers - more != {};
    var c :| c in reg.pubs[k].consumers - more;
    assert c in reg.pubs[k].consumers - less;
  }

  /**
    At the end: dependents went first; whatever was attempted and stayed is one whose unload fails; and
    a plugin never attempted was held after the last unload, or is named by one that stays, or was leased by one that stays.
   */
  lemma UnloadAllStops(start: Sys, o: Oracle, hs: seq<nat>)
    requires Untouched(start) && Orderly(start, hs)
    ensures var end := All(start, o, hs);
      && Orderly(end, hs) && DependentsFirst(start, end.gone) && end.recs.Keys == start.recs.Keys - Elements(end.gone)
      && (forall h :: h in end.attempted && h in end.recs ==> h in start.recs && Fails(start, o, h))
      && (forall h :: LeftOver(end, hs, h) ==>
            HeldLast(o, end, h) || Wanted(end.recs, h) || LeasedBeyond(start.reg, h, Elements(end.gone)))
  {
    UntouchedKept(start, o, hs);
    AllKeeps(start, start, o, hs);
    var end := All(start, o, hs);
    forall h | LeftOver(end, hs, h)
      ensures HeldLast(o, end, h) || Wanted(end.recs, h) || LeasedBeyond(start.reg, h, Elements(end.gone))
    {
      LastPass(start, start, o, hs, h);
    }
  }

  // ---- when nothing stands in the way ----

  /** Every dependent and every consumer can itself be unloaded and ranks lower. */
  ghost predicate Acyclic(start: Sys, hs: seq<nat>, rank: nat -> nat) {
    && (forall q, h :: q in start.recs && h in start.recs && Wants(start.recs, q, h) ==>
          Unloadable(start, q) && q in hs && rank(q) < rank(h))
    && (forall k, c :: k in start.reg.pubs && c in start.reg.pubs[k].consumers ==>
          Unloadable(start, c) && c in hs && rank(c) < rank(start.reg.pubs[k].provider))
  }

  ghost predicate Willing(start: Sys, o: Oracle) {
    (forall tried :: o.held(tried) == {}) && forall h :: h in start.recs ==> !Fails(start, o, h)
  }

  lemma StaysUnloadable(start: Sys, s: Sys, o: Oracle, h: nat)
    requires Kept(start, s, o) && Unloadable(start, h) && h in s.recs
    ensures Unloadable(s, h)
  {
    assert SameShape(s.recs[h], start.recs[h]);
  }

  /** Whatever stays is kept by something of lower rank that stays too. */
  lemma Blocker(start: Sys, o: Oracle, hs: seq<nat>, rank: nat -> nat, h: nat) returns (q: nat)
    requires Untouched(start) && Orderly(start, hs) && Willing(start, o) && Acyclic(start, hs, rank)
    requires h in hs && Unloadable(start, h) && h in All(start, o, hs).recs
    ensures q in hs && Unloadable(start, q) && q in All(start, o, hs).recs && rank(q) < rank(h)
  {
    var end := All(start, o, hs);
    UnloadAllStops(start, o, hs);
    UntouchedKept(start, o, hs);
    AllKeeps(start, start, o, hs);
    StaysUnloadable(start, end, o, h);
    assert LeftOver(end, hs, h);
    if Wanted(end.recs, h) {
      q :| q in end.recs && Wants(end.recs, q, h);
      assert SameShape(end.recs[q], start.recs[q]) && SameShape(end.recs[h], start.recs[h]);
      assert Wants(start.recs, q, h);
    } else {
      var k :| k in start.reg.pubs && start.reg.pubs[k].provider == h && start.reg.pubs[k].consumers - Elements(end.gone) != {};
      q :| q in start.reg.pubs[k].consumers - Elements(end.gone);
    }
  }

  /** If every attempt succeeds, nothing else holds a plugin, and names and leases are acyclic, none remains. */
  lemma {:induction false} NoneLeft(start: Sys, o: Oracle, hs: seq<nat>, rank: nat -> nat, h: nat)
    requires Untouched(start) && Orderly(start, hs) && Willing(start, o) && Acyclic(start, hs, rank)
    requires h in hs && Unloadable(start, h)
    ensures h !in All(start, o, hs).recs
    decreases rank(h)
  {
    if h in All(start, o, hs).recs {
      var q := Blocker(start, o, hs, rank, h);
      NoneLeft(start, o, hs, rank, q);
    }
  }

  // ---- an attempt that fails late ----

  const Provider: Plugin := Plugin("provider", None, [], Loaded, true, true, false, true, false, Idle)
  const Consumer: Plugin := Plugin("consumer", None, [], Loaded, true, true, false, true, false, Idle)
  const Lease: Registry := Registry(map[1 := Publication(1, Key("service", 1), 7, {2})], map[Key("service", 1) := 1], 2)
  const LateStart: Sys := Sys(map[1 := Provider, 2 := Consumer], Lease, [], [])
  const LateOracle: Oracle := Oracle(_ => {}, {}, {2}, {}, {})

  lemma LateVisits()
    ensures Visit(LateStart, LateOracle, 1) == LateStart
    ensures Due(LateStart, LateOracle, 2)
  {
    assert Lease.pubs[1].provider == 1 && Lease.pubs[1].consumers == {2} && 2 in Lease.pubs[1].consumers;
    assert Lease.Leased(1);
    assert !Wanted(LateStart.recs, 2) && !Lease.Leased(2);
  }

  lemma LateAttempt()
    ensures var end := Attempt(LateStart, LateOracle, 2);
      end.gone == [] && end.attempted == [2] && LeftOver(end, [1, 2], 1) && !Blocked(end, LateOracle, 1)
  {
    var end := Attempt(LateStart, LateOracle, 2);
    assert !Wanted(end.recs, 1) && !end.reg.Leased(1);
  }

  /** The consumer is attempted last and fails after giving up its lease; the provider is not looked at again. */
  lemma LateFailureLeavesUnblocked()
    ensures Orderly(LateStart, [1, 2])
    ensures var end := All(LateStart, LateOracle, [1, 2]); LeftOver(end, [1, 2], 1) && !Blocked(end, LateOracle, 1)
  {
    LateVisits();
    LateAttempt();
    assert [2][1..] == [] && [1, 2][1..] == [2];
    assert Pass(LateStart, LateOracle, [2]) == Attempt(LateStart, LateOracle, 2);
    assert All(LateStart, LateOracle, [1, 2]) == Attempt(LateStart, LateOracle, 2);
  }

  // ---- the command ----

  function Reversed(q: seq<nat>): (r: seq<nat>)
    ensures |r| == |q| && forall i :: 0 <= i < |q| ==> r[i] == q[|q| - 1 - i]
  {
    if q == [] then [] else Reversed(q[1..]) + [q[0]]
  }

  class Manager {
    var order: seq<nat>
    var recs: map<nat, Plugin>
    var loadOrder: seq<nat>
    const services: PublishedServiceRegistry

    constructor (order: seq<nat>, recs: map<nat, Plugin>, loadOrder: seq<nat>, services: PublishedServiceRegistry)
      requires services.Valid() && forall h :: h in order <==> h in recs
      requires forall h :: h in recs && Live(recs[h]) ==> recs[h].open
      ensures Valid() && this.recs == recs && this.loadOrder == loadOrder && this.services == services
    {
      this.order, this.recs, this.loadOrder, this.services := order, recs, loadOrder, services;
    }

    ghost predicate Valid()
      reads this, services
    {
      && services.Valid() && (forall h :: h in order <==> h in recs)
      && forall h :: h in recs && Live(recs[h]) ==> recs[h].open
    }

    ghost function View(attempted: seq<nat>, gone: seq<nat>): Sys
      reads this, services
    {
      Sys(recs, services.View(), attempted, gone)
    }

    method HasRunningDependent(h: nat, held: set<nat>) returns (blocked: bool)
      requires Valid() && h in recs
      ensures blocked <==> h in held || Wanted(recs, h) || services.View().Leased(h)
    {
      if h in held {
        return true;
      }
      for i := 0 to |order|
        invariant forall j :: 0 <= j < i ==> !Wants(recs, order[j], h)
      {
        if Wants(recs, order[i], h) {
          return true;
        }
      }
      blocked := services.HasLeasedPublication(h);
    }

    /** `held`: who is held at this moment. */
    method UnloadPlugin(h: nat, o: Oracle, held: set<nat>, ghost attempted: seq<nat>, ghost gone: seq<nat>)
          returns (done: bool)
      requires Valid() && held == o.held(Elements(attempted))
      modifies this, services
      ensures Valid()
      ensures old(h in recs && Live(recs[h]) && !Blocked(View(attempted, gone), o, h)) ==>
        View(attempted + [h], if done then gone + [h] else gone) == Attempt(old(View(attempted, gone)), o, h)
      ensures !old(h in recs && Live(recs[h]) && !Blocked(View(attempted, gone), o, h)) ==>
        !done && View(attempted, gone) == old(View(attempted, gone))
      ensures loadOrder == if done then Removed(old(loadOrder), h) else old(loadOrder)
    {
      if h !in recs || !Live(recs[h]) || recs[h].transitioning {
        return false;
      }
      var blocked := HasRunningDependent(h, held);
      if blocked {
        return false;
      }
      done := UnloadUnblocked(h, o, attempted, gone);
    }

    /** The attempt on a plugin that nothing blocks. */
    method UnloadUnblocked(h: nat, o: Oracle, ghost attempted: seq<nat>, ghost gone: seq<nat>) returns (done: bool)
      requires Valid() && h in recs && Live(recs[h]) && !recs[h].transitioning && !services.View().Leased(h)
      modifies this, services
      ensures Valid()
      ensures View(attempted + [h], if done then gone + [h] else gone) == Attempt(old(View(attempted, gone)), o, h)
      ensures loadOrder == if done then Removed(old(loadOrder), h) else old(loadOrder)
    {
      if h in o.resists || h in o.late {
        recs := recs[h := Retained(recs[h], o, h)];
        if h in o.resists {
          return false;
        }
      }
      var released := services.ReleasePlugin(h);
      if h in o.late {
        return false;
      }
      order, recs, loadOrder := Removed(order, h), recs - {h}, Removed(loadOrder, h);
      return true;
    }

    method UnloadAllPlugins(o: Oracle) returns (unloaded: nat, ghost gone: seq<nat>, ghost attempts: seq<nat>)
      requires Valid()
      modifies this, services
      ensures Valid()
      ensures Orderly(old(View([], [])), Reversed(old(loadOrder)))
      ensures View(attempts, gone) == All(old(View([], [])), o, Reversed(old(loadOrder)))
      ensures unloaded == |gone|
    {
      var hs := Reversed(loadOrder);
      var attempted: seq<nat> := [];
      gone, unloaded := [], 0;
      ghost var start, now := View([], []), View([], []);
      var progress := true;
      while progress
        invariant Valid() && unloaded == |gone| && now == View(attempted, gone) && Orderly(now, hs)
        invariant if progress then All(start, o, hs) == All(now, o, hs) else All(start, o, hs) == now
        decreases progress, |Elements(hs)| - |attempted|
      {
        progress := false;
        for i := 0 to |hs|
          invariant Valid() && unloaded == |gone| && Pass(View(attempted, gone), o, hs[i..]) == Pass(now, o, hs)
          invariant now.gone <= gone && (progress <==> gone != now.gone)
        {
          var h := hs[i];
          ghost var before := View(attempted, gone);
          if h in recs && recs[h].open && Live(recs[h]) && h !in attempted {
            var held := o.held(Elements(attempted));
            var blocked := HasRunningDependent(h, held);
            if !blocked {
              var done := UnloadPlugin(h, o, held, attempted, gone);
              attempted := attempted + [h];
              if done {
                unloaded, gone, progress := unloaded + 1, gone + [h], true;
              }
            }
          }
          assert View(attempted, gone) == Visit(before, o, h);
          assert hs[i..][1..] == hs[i + 1..];
        }
        PassGrows(now, o, hs);
        PassOrderly(now, o, hs, hs);
        DistinctBounded(Pass(now, o, hs).attempted, Elements(hs));
        now := View(attempted, gone);
      }
      attempts := attempted;
    }
  }
}
