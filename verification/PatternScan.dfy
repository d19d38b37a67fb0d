/**
  The two pattern scanners: the runtime's, over the executable ranges of a loaded module merged into
  stretches of memory, and the tool's, over the executable ranges of a file one by one.
 */
module PatternScan {
  import opened Options
  import opened PatternText

  const MAX_ADDRESS: nat := 0xFFFF_FFFF_FFFF_FFFF

  datatype Range = Range(begin: nat, size: nat, readable: bool, executable: bool)
  /** From `begin` up to, not including, `end`. */
  datatype Stretch = Stretch(begin: nat, end: nat)

  datatype Found = Found(address: nat) | NotFound | Ambiguous

  // ---- what the scanners look for ----

  predicate Kept(r: Range, n: nat) {
    r.readable && r.executable && r.size >= n && r.begin + r.size <= MAX_ADDRESS
  }

  predicate Within(s: Stretch, a: nat) {
    s.begin <= a < s.end
  }

  ghost predicate Covered(ss: seq<Stretch>, a: nat) {
    exists i :: 0 <= i < |ss| && Within(ss[i], a)
  }

  predicate Fits(memory: nat -> Byte, p: Pattern, a: nat) {
    forall i :: 0 <= i < |p| ==> p[i].Some? ==> memory(a + i) == p[i].value
  }

  /** The pattern lies at `a`, all of it in covered memory. */
  ghost predicate Matches(ss: seq<Stretch>, memory: nat -> Byte, p: Pattern, a: nat) {
    Fits(memory, p, a) && forall x :: a <= x < a + |p| ==> Covered(ss, x)
  }

  ghost predicate Ascending(q: seq<nat>) {
    forall i, j :: 0 <= i < j < |q| ==> q[i] < q[j]
  }

  /** The occurrence asked for among the matches in ascending order; 0 asks for the only one. */
  function Select(matches: seq<nat>, occurrence: nat): Found {
    if occurrence == 0 then
      if |matches| == 0 then NotFound else if |matches| == 1 then Found(matches[0]) else Ambiguous
    else if |matches| >= occurrence then Found(matches[occurrence - 1])
    else NotFound
  }

  ghost predicate Place(places: iset<nat>, a: nat) {
    a in places
  }

  /** The places below `a`. */
  ghost function Lower(places: iset<nat>, a: nat): set<nat> {
    set b: nat | b < a && Place(places, b)
  }

  /**
    The right answer to a request, as the places themselves give it. Without an occurrence: the only place,
    or that there is none, or that there are several. With one: the place with exactly `occurrence - 1` below
    it, or that nowhere are there so many.
   */
  ghost predicate AnswerIs(places: iset<nat>, occurrence: nat, answer: Found) {
    match answer
    case Found(a) =>
      a in places && if occurrence == 0 then forall b :: b in places ==> b == a else |Lower(places, a)| == occurrence - 1
    case NotFound =>
      if occurrence == 0 then forall b :: b !in places else forall a :: |Lower(places, a)| < occurrence
    case Ambiguous =>
      occurrence == 0 && exists a, b :: a in places && b in places && a < b
  }

  function Firsts(q: seq<nat>, k: nat): set<nat>
    requires k <= |q|
  {
    if k == 0 then {} else Firsts(q, k - 1) + {q[k - 1]}
  }

  lemma {:induction false} FirstsHas(q: seq<nat>, k: nat, x: nat)
    requires k <= |q|
    ensures x in Firsts(q, k) <==> exists i :: 0 <= i < k && q[i] == x
  {
    if k > 0 {
      FirstsHas(q, k - 1, x);
    }
  }

  lemma {:induction false} FirstsCount(q: seq<nat>, k: nat)
    requires Ascending(q) && k <= |q|
    ensures |Firsts(q, k)| == k
  {
    if k > 0 {
      FirstsCount(q, k - 1);
      FirstsHas(q, k - 1, q[k - 1]);
    }
  }

  /** Below the `k`-th of an ascending list lie the first `k`. */
  lemma LowerCount(places: iset<nat>, q: seq<nat>, k: nat)
    requires Ascending(q) && k < |q| && forall a :: a in q <==> a in places
    ensures |Lower(places, q[k])| == k
  {
    FirstsCount(q, k);
    forall b: nat
      ensures b in Lower(places, q[k]) <==> b in Firsts(q, k)
    {
      FirstsHas(q, k, b);
    }
    assert Lower(places, q[k]) == Firsts(q, k);
  }

  lemma WholeCount(places: iset<nat>, q: seq<nat>, limit: nat)
    requires Ascending(q) && (forall a :: a in q <==> a in places) && forall a :: a in places ==> a < limit
    ensures |Lower(places, limit)| == |q|
  {
    FirstsCount(q, |q|);
    forall b: nat
      ensures b in Lower(places, limit) <==> b in Firsts(q, |q|)
    {
      FirstsHas(q, |q|, b);
      assert b in q <==> b in places;
    }
    assert Lower(places, limit) == Firsts(q, |q|);
  }

  lemma LowerBounded(places: iset<nat>, q: seq<nat>, a: nat)
    requires Ascending(q) && forall x :: x in q <==> x in places
    ensures |Lower(places, a)| <= |q|
  {
    FirstsCount(q, |q|);
    forall b | b in Lower(places, a)
      ensures b in Firsts(q, |q|)
    {
      FirstsHas(q, |q|, b);
    }
    SubsetSize(Lower(places, a), Firsts(q, |q|));
  }

  lemma {:induction false} SubsetSize(a: set<nat>, b: set<nat>)
    requires a <= b
    ensures |a| <= |b|
  {
    if a != {} {
      var x :| x in a;
      SubsetSize(a - {x}, b - {x});
    }
  }

  lemma SelectAnswers(places: iset<nat>, q: seq<nat>, occurrence: nat)
    requires Ascending(q) && forall a :: a in q <==> a in places
    ensures AnswerIs(places, occurrence, Select(q, occurrence))
  {
    if occurrence == 0 {
      assert |q| > 0 ==> q[0] in places;
      assert |q| > 1 ==> q[1] in places && q[0] < q[1];
    } else if |q| >= occurrence {
      LowerCount(places, q, occurrence - 1);
      assert q[occurrence - 1] in q;
    } else {
      forall a
        ensures |Lower(places, a)| < occurrence
      {
        LowerBounded(places, q, a);
      }
    }
  }

  lemma LowerGrows(places: iset<nat>, a: nat, b: nat)
    requires a in places && a < b
    ensures |Lower(places, a)| < |Lower(places, b)|
  {
    SubsetSize(Lower(places, a) + {a}, Lower(places, b));
  }

  /** There is one right answer. */
  lemma OneAnswer(places: iset<nat>, occurrence: nat, x: Found, y: Found)
    requires AnswerIs(places, occurrence, x) && AnswerIs(places, occurrence, y)
    ensures x == y
  {
    if occurrence > 0 {
      if x.Found? {
        FoundOrNot(places, occurrence, x.address, y);
      }
      if y.Found? {
        FoundOrNot(places, occurrence, y.address, x);
      }
    }
  }

  lemma FoundOrNot(places: iset<nat>, occurrence: nat, a: nat, y: Found)
    requires occurrence > 0 && AnswerIs(places, occurrence, Found(a)) && AnswerIs(places, occurrence, y)
    ensures y == Found(a)
  {
    LowerGrows(places, a, a + 1);
    if y.Found? && y.address < a {
      LowerGrows(places, y.address, a);
    }
    if y.Found? && a < y.address {
      LowerGrows(places, a, y.address);
    }
  }

  lemma {:induction false} AscendingUnique(a: seq<nat>, b: seq<nat>)
    requires Ascending(a) && Ascending(b) && forall x :: x in a <==> x in b
    ensures a == b
  {
    if a == [] {
      assert forall i :: 0 <= i < |b| ==> b[i] in b;
    } else {
      assert a[0] in b && b[0] in a;
      assert a[0] == b[0];
      forall x | x in a[1..]
        ensures x in b[1..]
      {
        assert x in b && x != a[0];
      }
      forall x | x in b[1..]
        ensures x in a[1..]
      {
        assert x in a && x != b[0];
      }
      AscendingUnique(a[1..], b[1..]);
    }
  }

  // ---- merging ----

  function Whole(r: Range): Stretch {
    Stretch(r.begin, r.begin + r.size)
  }

  function Stretches(ranges: seq<Range>, n: nat): seq<Stretch> {
    if ranges == [] then []
    else if Kept(ranges[0], n) then [Whole(ranges[0])] + Stretches(ranges[1..], n)
    else Stretches(ranges[1..], n)
  }

  lemma {:induction false} StretchesKept(ranges: seq<Range>, n: nat)
    ensures forall r :: r in ranges && Kept(r, n) ==> Whole(r) in Stretches(ranges, n)
    ensures forall i :: 0 <= i < |Stretches(ranges, n)| ==> Stretches(ranges, n)[i].begin + n <= Stretches(ranges, n)[i].end
  {
    if ranges != [] {
      StretchesKept(ranges[1..], n);
    }
  }

  function Insert(s: Stretch, ss: seq<Stretch>): (r: seq<Stretch>)
    ensures forall x :: x in r <==> x == s || x in ss
  {
    if ss == [] || s.begin <= ss[0].begin then [s] + ss else [ss[0]] + Insert(s, ss[1..])
  }

  function Sorted(ss: seq<Stretch>): (r: seq<Stretch>)
    ensures forall x :: x in r <==> x in ss
  {
    if ss == [] then [] else Insert(ss[0], Sorted(ss[1..]))
  }

  predicate InOrder(ss: seq<Stretch>) {
    forall i, j :: 0 <= i < j < |ss| ==> ss[i].begin <= ss[j].begin
  }

  lemma {:induction false} InsertInOrder(s: Stretch, ss: seq<Stretch>)
    requires InOrder(ss)
    ensures InOrder(Insert(s, ss))
  {
    if ss != [] && s.begin > ss[0].begin {
      InsertInOrder(s, ss[1..]);
      var rest := Insert(s, ss[1..]);
      forall k | 0 <= k < |rest|
        ensures ss[0].begin <= rest[k].begin
      {
        assert rest[k] in rest;
      }
    }
  }

  lemma {:induction false} SortedInOrder(ss: seq<Stretch>)
    ensures InOrder(Sorted(ss))
  {
    if ss != [] {
      SortedInOrder(ss[1..]);
      InsertInOrder(ss[0], Sorted(ss[1..]));
    }
  }

  /** One stretch added at the right end: it starts a new one only behind a gap. */
  function Join(done: seq<Stretch>, s: Stretch): seq<Stretch> {
    if done == [] || s.begin > done[|done| - 1].end then done + [s]
    else
      var last := done[|done| - 1];
      done[..|done| - 1] + [Stretch(last.begin, if s.end > last.end then s.end else last.end)]
  }

  /** The first `k` stretches joined. */
  function MergedTo(ss: seq<Stretch>, k: nat): seq<Stretch>
    requires k <= |ss|
  {
    if k == 0 then [] else Join(MergedTo(ss, k - 1), ss[k - 1])
  }

  function Merged(ss: seq<Stretch>): seq<Stretch> {
    MergedTo(ss, |ss|)
  }

  /** Sorted, disjoint, not even adjacent, and each at least `n` long. */
  predicate Apart(ss: seq<Stretch>, n: nat) {
    && (forall i :: 0 <= i < |ss| ==> ss[i].begin + n <= ss[i].end)
    && (forall i, j :: 0 <= i < j < |ss| ==> ss[i].end < ss[j].begin)
  }

  lemma JoinApart(done: seq<Stretch>, s: Stretch, n: nat)
    requires Apart(done, n) && s.begin + n <= s.end && (done != [] ==> done[|done| - 1].begin <= s.begin)
    ensures Apart(Join(done, s), n) && Join(done, s) != []
    ensures Join(done, s)[|Join(done, s)| - 1].begin <= s.begin
  {
    var all := Join(done, s);
    forall i, j | 0 <= i < j < |all|
      ensures all[i].end < all[j].begin
    {
      assert i < |done| && all[i].end == done[i].end;
      if j < |done| {
        assert all[j].begin == done[j].begin;
      }
    }
  }

  lemma {:induction false} MergedApart(ss: seq<Stretch>, k: nat, n: nat)
    requires k <= |ss| && InOrder(ss) && forall i :: 0 <= i < |ss| ==> ss[i].begin + n <= ss[i].end
    ensures Apart(MergedTo(ss, k), n)
    ensures k > 0 ==> MergedTo(ss, k) != [] && MergedTo(ss, k)[|MergedTo(ss, k)| - 1].begin <= ss[k - 1].begin
  {
    if k > 0 {
      MergedApart(ss, k - 1, n);
      JoinApart(MergedTo(ss, k - 1), ss[k - 1], n);
    }
  }

  lemma JoinCovers(done: seq<Stretch>, s: Stretch, a: nat)
    requires Apart(done, 0) && s.begin <= s.end
    requires done != [] ==> done[|done| - 1].begin <= s.begin
    ensures Covered(Join(done, s), a) <==> Covered(done, a) || Within(s, a)
  {
    var all := Join(done, s);
    if Covered(done, a) {
      var i :| 0 <= i < |done| && Within(done[i], a);
      assert Within(all[i], a);
    }
    if Within(s, a) {
      assert Within(all[|all| - 1], a);
    }
    if Covered(all, a) && !Within(s, a) {
      var i :| 0 <= i < |all| && Within(all[i], a);
      assert Within(done[i], a);
    }
  }

  ghost predicate CoveredTo(ss: seq<Stretch>, k: nat, a: nat)
    requires k <= |ss|
  {
    exists i :: 0 <= i < k && Within(ss[i], a)
  }

  lemma CoveredStep(ss: seq<Stretch>, k: nat, a: nat)
    requires k < |ss|
    ensures CoveredTo(ss, k + 1, a) <==> CoveredTo(ss, k, a) || Within(ss[k], a)
  {
  }

  lemma MergedReady(ss: seq<Stretch>, k: nat)
    requires k < |ss| && InOrder(ss) && forall i :: 0 <= i < |ss| ==> ss[i].begin <= ss[i].end
    ensures Apart(MergedTo(ss, k), 0) && ss[k].begin <= ss[k].end
    ensures MergedTo(ss, k) != [] ==> MergedTo(ss, k)[|MergedTo(ss, k)| - 1].begin <= ss[k].begin
  {
    MergedApart(ss, k, 0);
    assert k > 0 ==> ss[k - 1].begin <= ss[k].begin;
  }

  lemma MergedStep(ss: seq<Stretch>, k: nat, a: nat)
    requires k < |ss| && InOrder(ss) && forall i :: 0 <= i < |ss| ==> ss[i].begin <= ss[i].end
    ensures Covered(MergedTo(ss, k + 1), a) <==> Covered(MergedTo(ss, k), a) || Within(ss[k], a)
  {
    MergedReady(ss, k);
    JoinCovers(MergedTo(ss, k), ss[k], a);
  }

  lemma {:induction false} MergedCovers(ss: seq<Stretch>, k: nat, a: nat)
    requires k <= |ss| && InOrder(ss) && forall i :: 0 <= i < |ss| ==> ss[i].begin <= ss[i].end
    ensures Covered(MergedTo(ss, k), a) <==> CoveredTo(ss, k, a)
  {
    if k > 0 {
      MergedCovers(ss, k - 1, a);
      MergedStep(ss, k - 1, a);
      CoveredStep(ss, k - 1, a);
    }
  }

  // ---- matches ----

  /** The places where the pattern fits. */
  ghost function Places(memory: nat -> Byte, p: Pattern): iset<nat> {
    iset a: nat | Fits(memory, p, a)
  }

  /** The members from `from` up to, not including, `limit`, in order. */
  ghost function Hits(places: iset<nat>, from: nat, limit: nat): seq<nat>
    decreases limit - from
  {
    if from >= limit then [] else (if from in places then [from] else []) + Hits(places, from + 1, limit)
  }

  lemma {:induction false} HitAt(places: iset<nat>, from: nat, limit: nat, a: nat)
    ensures a in Hits(places, from, limit) <==> from <= a < limit && a in places
    decreases limit - from
  {
    if from < limit {
      HitAt(places, from + 1, limit, a);
    }
  }

  lemma {:induction false} HitsOrdered(places: iset<nat>, from: nat, limit: nat)
    ensures Ascending(Hits(places, from, limit))
    decreases limit - from
  {
    if from < limit {
      HitsOrdered(places, from + 1, limit);
      var rest := Hits(places, from + 1, limit);
      forall k | 0 <= k < |rest|
        ensures from < rest[k]
      {
        HitAt(places, from + 1, limit, rest[k]);
      }
    }
  }

  /** The last address, exclusive, at which a pattern of length `n` still ends in the stretch. */
  function Starts(s: Stretch, n: nat): nat {
    if s.end >= s.begin + n then s.end - n + 1 else s.begin
  }

  /** The hits in the first `k` stretches. */
  ghost function HitsTo(places: iset<nat>, n: nat, ss: seq<Stretch>, k: nat): seq<nat>
    requires k <= |ss|
  {
    if k == 0 then [] else HitsTo(places, n, ss, k - 1) + Hits(places, ss[k - 1].begin, Starts(ss[k - 1], n))
  }

  predicate Holds(s: Stretch, a: nat, n: nat) {
    s.begin <= a && a + n <= s.end
  }

  ghost predicate Inside(ss: seq<Stretch>, a: nat, n: nat) {
    InsideTo(ss, |ss|, a, n)
  }

  ghost predicate InsideTo(ss: seq<Stretch>, k: nat, a: nat, n: nat)
    requires k <= |ss|
  {
    exists i :: 0 <= i < k && Holds(ss[i], a, n)
  }

  lemma {:induction false} HitsAt(places: iset<nat>, n: nat, ss: seq<Stretch>, k: nat, a: nat)
    requires k <= |ss| && n > 0
    ensures a in HitsTo(places, n, ss, k) <==> a in places && InsideTo(ss, k, a, n)
  {
    if k > 0 {
      HitsAt(places, n, ss, k - 1, a);
      HitAt(places, ss[k - 1].begin, Starts(ss[k - 1], n), a);
      assert Holds(ss[k - 1], a, n) <==> ss[k - 1].begin <= a < Starts(ss[k - 1], n);
    }
  }

  lemma {:induction false} HitsAscend(places: iset<nat>, n: nat, ss: seq<Stretch>, k: nat)
    requires k <= |ss| && n > 0 && Apart(ss, n)
    ensures Ascending(HitsTo(places, n, ss, k))
  {
    if k > 0 {
      HitsAscend(places, n, ss, k - 1);
      HitsOrdered(places, ss[k - 1].begin, Starts(ss[k - 1], n));
      var before, after := HitsTo(places, n, ss, k - 1), Hits(places, ss[k - 1].begin, Starts(ss[k - 1], n));
      forall i, j | 0 <= i < |before| && 0 <= j < |after|
        ensures before[i] < after[j]
      {
        assert before[i] in before && after[j] in after;
        HitsAt(places, n, ss, k - 1, before[i]);
        HitAt(places, ss[k - 1].begin, Starts(ss[k - 1], n), after[j]);
      }
    }
  }

  lemma EndNotCovered(ss: seq<Stretch>, i: nat)
    requires Apart(ss, 0) && i < |ss|
    ensures !Covered(ss, ss[i].end)
  {
    forall j | 0 <= j < |ss|
      ensures !Within(ss[j], ss[i].end)
    {
      assert i < j ==> ss[i].end < ss[j].begin;
      assert j < i ==> ss[j].end < ss[i].begin;
    }
  }

  /** In stretches with gaps between them, covered without a break means inside one. */
  lemma ApartInside(ss: seq<Stretch>, a: nat, n: nat)
    requires Apart(ss, 0) && n > 0
    ensures Inside(ss, a, n) <==> forall x :: a <= x < a + n ==> Covered(ss, x)
  {
    if Inside(ss, a, n) {
      var i :| 0 <= i < |ss| && Holds(ss[i], a, n);
      assert forall x :: a <= x < a + n ==> Within(ss[i], x);
    }
    if forall x :: a <= x < a + n ==> Covered(ss, x) {
      assert Covered(ss, a);
      var i :| 0 <= i < |ss| && Within(ss[i], a);
      EndNotCovered(ss, i);
      assert Holds(ss[i], a, n);
    }
  }

  ghost function RuntimeMatches(ranges: seq<Range>, memory: nat -> Byte, p: Pattern): seq<nat> {
    var ss := Merged(Sorted(Stretches(ranges, |p|)));
    HitsTo(Places(memory, p), |p|, ss, |ss|)
  }

  lemma SortedKept(ranges: seq<Range>, n: nat)
    ensures var sorted := Sorted(Stretches(ranges, n));
      InOrder(sorted) && forall i :: 0 <= i < |sorted| ==> sorted[i].begin + n <= sorted[i].end
  {
    var raw := Stretches(ranges, n);
    var sorted := Sorted(raw);
    SortedInOrder(raw);
    StretchesKept(ranges, n);
    forall i | 0 <= i < |sorted|
      ensures sorted[i].begin + n <= sorted[i].end
    {
      assert sorted[i] in raw;
    }
  }

  /** Merging leaves gaps between the stretches and covers what the kept ranges cover. */
  lemma MergedStretches(ranges: seq<Range>, n: nat, a: nat)
    ensures Apart(Merged(Sorted(Stretches(ranges, n))), n)
    ensures Covered(Merged(Sorted(Stretches(ranges, n))), a) <==> Covered(Stretches(ranges, n), a)
  {
    var sorted := Sorted(Stretches(ranges, n));
    SortedKept(ranges, n);
    MergedApart(sorted, |sorted|, n);
    MergedCovers(sorted, |sorted|, a);
    assert Covered(Merged(sorted), a) <==> Covered(sorted, a);
    SameCover(sorted, Stretches(ranges, n), a);
  }

  lemma SameCover(x: seq<Stretch>, y: seq<Stretch>, a: nat)
    requires forall s :: s in x <==> s in y
    ensures Covered(x, a) <==> Covered(y, a)
  {
    if Covered(x, a) {
      var i :| 0 <= i < |x| && Within(x[i], a);
      assert x[i] in y;
    }
    if Covered(y, a) {
      var i :| 0 <= i < |y| && Within(y[i], a);
      assert y[i] in x;
    }
  }

  lemma MergedCoversAll(ranges: seq<Range>, n: nat)
    ensures Apart(Merged(Sorted(Stretches(ranges, n))), n)
    ensures forall x :: Covered(Merged(Sorted(Stretches(ranges, n))), x) <==> Covered(Stretches(ranges, n), x)
  {
    forall x
      ensures Covered(Merged(Sorted(Stretches(ranges, n))), x) <==> Covered(Stretches(ranges, n), x)
    {
      MergedStretches(ranges, n, x);
    }
    MergedStretches(ranges, n, 0);
  }

  lemma HitsMatch(ss: seq<Stretch>, raw: seq<Stretch>, memory: nat -> Byte, p: Pattern, a: nat)
    requires p != [] && Apart(ss, 0) && forall x :: Covered(ss, x) <==> Covered(raw, x)
    ensures a in HitsTo(Places(memory, p), |p|, ss, |ss|) <==> Matches(raw, memory, p, a)
  {
    HitsAt(Places(memory, p), |p|, ss, |ss|, a);
    ApartInside(ss, a, |p|);
  }

  /** The merged scan finds a place exactly when the pattern lies there in covered memory. */
  lemma RuntimeMatchesAt(ranges: seq<Range>, memory: nat -> Byte, p: Pattern, a: nat)
    requires p != []
    ensures a in RuntimeMatches(ranges, memory, p) <==> Matches(Stretches(ranges, |p|), memory, p, a)
  {
    MergedCoversAll(ranges, |p|);
    HitsMatch(Merged(Sorted(Stretches(ranges, |p|))), Stretches(ranges, |p|), memory, p, a);
  }

  lemma RuntimeMatchesAscend(ranges: seq<Range>, memory: nat -> Byte, p: Pattern)
    requires p != []
    ensures Ascending(RuntimeMatches(ranges, memory, p))
  {
    MergedStretches(ranges, |p|, 0);
    var ss := Merged(Sorted(Stretches(ranges, |p|)));
    HitsAscend(Places(memory, p), |p|, ss, |ss|);
  }

  // ---- the runtime's scan ----

  method FitsAt(memory: nat -> Byte, p: Pattern, a: nat) returns (matched: bool)
    ensures matched == Fits(memory, p, a)
  {
    for i := 0 to |p|
      invariant forall j :: 0 <= j < i ==> p[j].Some? ==> memory(a + j) == p[j].value
    {
      if p[i].Some? && memory(a + i) != p[i].value {
        return false;
      }
    }
    return true;
  }

  method MergeRanges(ranges: seq<Range>, n: nat) returns (merged: seq<Stretch>)
    ensures merged == Merged(Sorted(Stretches(ranges, n)))
  {
    var sorted := Sorted(Stretches(ranges, n));
    merged := [];
    for i := 0 to |sorted|
      invariant merged == MergedTo(sorted, i)
    {
      var s := sorted[i];
      if merged == [] || s.begin > merged[|merged| - 1].end {
        merged := merged + [s];
      } else {
        var last := merged[|merged| - 1];
        merged := merged[|merged| - 1 := Stretch(last.begin, if s.end > last.end then s.end else last.end)];
      }
    }
  }

  /** How the search stands when `seen` are the places found, none of them the one asked for. */
  ghost predicate Searching(seen: seq<nat>, occurrence: nat, matches: nat, selected: nat) {
    && matches == |seen| && (if occurrence == 0 then matches <= 1 else matches < occurrence)
    && (occurrence == 0 && matches == 1 ==> selected == seen[0])
  }

  lemma SelectAt(seen: seq<nat>, a: nat, rest: seq<nat>, occurrence: nat)
    ensures occurrence == |seen| + 1 ==> Select(seen + ([a] + rest), occurrence) == Found(a)
    ensures occurrence == 0 && seen != [] ==> Select(seen + ([a] + rest), occurrence) == Ambiguous
  {
  }

  /** Scan one stretch; `seen` was found before it and `later` will be after. */
  method ScanStretch(s: Stretch, memory: nat -> Byte, p: Pattern, occurrence: nat, found: nat, first: nat,
                     ghost seen: seq<nat>, ghost later: seq<nat>)
    returns (answer: Option<Found>, matches: nat, selected: nat)
    requires p != [] && s.begin + |p| <= s.end && Searching(seen, occurrence, found, first)
    ensures var here := Hits(Places(memory, p), s.begin, Starts(s, |p|));
      if answer.Some? then answer.value == Select(seen + (here + later), occurrence)
      else Searching(seen + here, occurrence, matches, selected)
  {
    answer, matches, selected := None, found, first;
    var limit := s.end - |p| + 1;
    ghost var places := Places(memory, p);
    ghost var done: seq<nat> := [];
    var a := s.begin;
    while a < limit
      invariant s.begin <= a <= limit
      invariant done + Hits(places, a, limit) == Hits(places, s.begin, limit)
      invariant Searching(seen + done, occurrence, matches, selected)
    {
      var matched := FitsAt(memory, p, a);
      ghost var rest := Hits(places, a + 1, limit);
      if matched {
        assert Hits(places, a, limit) == [a] + rest;
        Regroup(seen, done, a, rest, later);
        SelectAt(seen + done, a, rest + later, occurrence);
        matches := matches + 1;
        if occurrence == 0 && matches > 1 {
          return Some(Ambiguous), matches, selected;
        }
        if occurrence == 0 {
          selected := a;
        } else if matches == occurrence {
          return Some(Found(a)), matches, selected;
        }
        done := done + [a];
      } else {
        assert Hits(places, a, limit) == rest;
      }
      a := a + 1;
    }
    assert done == Hits(places, s.begin, limit);
  }

  lemma Regroup(seen: seq<nat>, done: seq<nat>, a: nat, rest: seq<nat>, later: seq<nat>)
    ensures seen + ((done + ([a] + rest)) + later) == (seen + done) + ([a] + (rest + later))
    ensures seen + (done + [a]) == (seen + done) + [a] && (done + [a]) + rest == done + ([a] + rest)
  {
  }

  /** `occurrence` fits 32 bits, and the count of matches never passes it. */
  method ScanPattern(ranges: seq<Range>, memory: nat -> Byte, p: Pattern, occurrence: nat) returns (result: Found)
    requires p != []
    ensures result == Select(RuntimeMatches(ranges, memory, p), occurrence)
    ensures AnswerIs(RuntimePlaces(ranges, memory, p), occurrence, result)
  {
    var merged := MergeRanges(ranges, |p|);
    MergedStretches(ranges, |p|, 0);
    result := ScanMerged(merged, memory, p, occurrence);
    RuntimeAnswers(ranges, memory, p, occurrence);
  }

  /** Where the pattern lies in executable memory. */
  ghost function RuntimePlaces(ranges: seq<Range>, memory: nat -> Byte, p: Pattern): iset<nat> {
    iset a: nat | Matches(Stretches(ranges, |p|), memory, p, a)
  }

  lemma RuntimeAnswers(ranges: seq<Range>, memory: nat -> Byte, p: Pattern, occurrence: nat)
    requires p != []
    ensures AnswerIs(RuntimePlaces(ranges, memory, p), occurrence, Select(RuntimeMatches(ranges, memory, p), occurrence))
  {
    RuntimeMatchesAscend(ranges, memory, p);
    forall a
      ensures a in RuntimeMatches(ranges, memory, p) <==> a in RuntimePlaces(ranges, memory, p)
    {
      RuntimeMatchesAt(ranges, memory, p, a);
    }
    SelectAnswers(RuntimePlaces(ranges, memory, p), RuntimeMatches(ranges, memory, p), occurrence);
  }

  method ScanMerged(merged: seq<Stretch>, memory: nat -> Byte, p: Pattern, occurrence: nat) returns (result: Found)
    requires p != [] && Apart(merged, |p|)
    ensures result == Select(HitsTo(Places(memory, p), |p|, merged, |merged|), occurrence)
  {
    var matches, selected := 0, 0;
    ghost var places, n := Places(memory, p), |p|;
    ghost var all, seen: seq<nat> := HitsTo(places, n, merged, |merged|), [];
    HitsSplit(places, n, merged, 0);
    for i := 0 to |merged|
      invariant seen + HitsFrom(places, n, merged, i) == all
      invariant Searching(seen, occurrence, matches, selected)
    {
      ghost var here := Hits(places, merged[i].begin, Starts(merged[i], n));
      ghost var later := HitsFrom(places, n, merged, i + 1);
      Associate(seen, here, later);
      var answer: Option<Found> := None;
      answer, matches, selected := ScanStretch(merged[i], memory, p, occurrence, matches, selected, seen, later);
      if answer.Some? {
        return answer.value;
      }
      seen := seen + here;
    }
    return if occurrence == 0 && matches == 1 then Found(selected) else NotFound;
  }

  lemma Associate(a: seq<nat>, b: seq<nat>, c: seq<nat>)
    ensures (a + b) + c == a + (b + c)
  {
  }

  ghost function HitsFrom(places: iset<nat>, n: nat, ss: seq<Stretch>, k: nat): seq<nat>
    requires k <= |ss|
    decreases |ss| - k
  {
    if k == |ss| then [] else Hits(places, ss[k].begin, Starts(ss[k], n)) + HitsFrom(places, n, ss, k + 1)
  }

  lemma {:induction false} HitsSplit(places: iset<nat>, n: nat, ss: seq<Stretch>, k: nat)
    requires k <= |ss|
    ensures HitsTo(places, n, ss, |ss|) == HitsTo(places, n, ss, k) + HitsFrom(places, n, ss, k)
    decreases |ss| - k
  {
    if k < |ss| {
      HitsSplit(places, n, ss, k + 1);
      assert HitsTo(places, n, ss, k + 1) == HitsTo(places, n, ss, k) + Hits(places, ss[k].begin, Starts(ss[k], n));
    }
  }

  // ---- the tool's scan ----

  /** An executable range of a file. */
  datatype FileRange = FileRange(offset: nat, size: nat)

  function Bytes(image: seq<Byte>): nat -> Byte {
    (a: nat) => if a < |image| then image[a] else 0
  }

  predicate InFile(r: FileRange, a: nat, n: nat) {
    r.offset <= a && a + n <= r.offset + r.size
  }

  /** The pattern lies at `a` within one of the ranges. */
  ghost predicate ToolMatch(ranges: seq<FileRange>, image: seq<Byte>, p: Pattern, a: nat) {
    Fits(Bytes(image), p, a) && exists i :: 0 <= i < |ranges| && InFile(ranges[i], a, |p|)
  }

  function InsertUnique(x: nat, q: seq<nat>): (r: seq<nat>)
    ensures forall y :: y in r <==> y == x || y in q
  {
    if q == [] || x < q[0] then [x] + q else if x == q[0] then q else [q[0]] + InsertUnique(x, q[1..])
  }

  lemma {:induction false} InsertAscends(x: nat, q: seq<nat>)
    requires Ascending(q)
    ensures Ascending(InsertUnique(x, q))
  {
    if q != [] && x > q[0] {
      InsertAscends(x, q[1..]);
      var rest := InsertUnique(x, q[1..]);
      forall k | 0 <= k < |rest|
        ensures q[0] < rest[k]
      {
        assert rest[k] in rest;
      }
    }
  }

  /** Every match in every range, sorted, without repeats. The image is read at legal offsets only. */
  method Scan(image: seq<Byte>, ranges: seq<FileRange>, p: Pattern) returns (matches: seq<nat>)
    requires p != [] && forall r :: r in ranges ==> r.offset + r.size <= |image|
    ensures Ascending(matches)
    ensures forall a :: a in matches <==> ToolMatch(ranges, image, p, a)
  {
    matches := [];
    for k := 0 to |ranges|
      invariant Ascending(matches)
      invariant forall a :: a in matches <==> Fits(Bytes(image), p, a) && exists i :: 0 <= i < k && InFile(ranges[i], a, |p|)
    {
      var r := ranges[k];
      assert r in ranges;
      if r.size >= |p| {
        matches := ScanRange(image, r, p, matches);
      }
    }
  }

  method ScanRange(image: seq<Byte>, r: FileRange, p: Pattern, found: seq<nat>) returns (matches: seq<nat>)
    requires p != [] && r.offset + r.size <= |image| && |p| <= r.size && Ascending(found)
    ensures Ascending(matches)
    ensures forall a :: a in matches <==> a in found || (Fits(Bytes(image), p, a) && InFile(r, a, |p|))
  {
    matches := found;
    var last := r.offset + r.size - |p|;
    var position := r.offset;
    while position <= last
      invariant r.offset <= position <= last + 1 && Ascending(matches)
      invariant forall a: nat :: a in matches <==> a in found || (Fits(Bytes(image), p, a) && r.offset <= a < position)
    {
      var matched := true;
      for i := 0 to |p|
        invariant forall j :: 0 <= j < i ==> p[j].Some? ==> Bytes(image)(position + j) == p[j].value
      {
        if p[i].Some? && image[position + i] != p[i].value {
          assert Bytes(image)(position + i) != p[i].value;
          matched := false;
          break;
        }
      }
      if matched {
        InsertAscends(position, matches);
        matches := InsertUnique(position, matches);
      }
      position := position + 1;
    }
  }

  /** `None` where the tool gives a reason instead of a place. */
  method SelectMatch(matches: seq<nat>, occurrence: nat) returns (selected: Option<nat>)
    ensures selected == match Select(matches, occurrence) case Found(a) => Some(a) case _ => None
    ensures forall places :: Ascending(matches) && (forall x :: x in matches <==> x in places) ==>
      match selected
      case Some(a) => AnswerIs(places, occurrence, Found(a))
      case None => AnswerIs(places, occurrence, NotFound) || AnswerIs(places, occurrence, Ambiguous)
  {
    forall places: iset<nat> | Ascending(matches) && (forall x :: x in matches <==> x in places)
      ensures AnswerIs(places, occurrence, Select(matches, occurrence))
    {
      SelectAnswers(places, matches, occurrence);
    }
    if matches == [] {
      return None;
    }
    if occurrence == 0 {
      return if |matches| != 1 then None else Some(matches[0]);
    }
    if occurrence > |matches| {
      return None;
    }
    return Some(matches[occurrence - 1]);
  }

  // ---- the two scanners compared ----

  /** The file ranges as a loaded module shows them. */
  function Loaded(ranges: seq<FileRange>): (rs: seq<Range>)
    ensures |rs| == |ranges|
  {
    seq(|ranges|, i requires 0 <= i < |ranges| => Range(ranges[i].offset, ranges[i].size, true, true))
  }

  ghost predicate Mappable(ranges: seq<FileRange>) {
    forall i :: 0 <= i < |ranges| ==> ranges[i].offset + ranges[i].size <= MAX_ADDRESS
  }

  /** No two ranges touch. */
  ghost predicate Separated(ranges: seq<FileRange>) {
    forall i, j :: 0 <= i < |ranges| && 0 <= j < |ranges| && i != j ==>
      ranges[i].offset + ranges[i].size < ranges[j].offset || ranges[j].offset + ranges[j].size < ranges[i].offset
  }

  /** Whatever the tool finds, the runtime finds. */
  lemma ToolSubset(ranges: seq<FileRange>, image: seq<Byte>, p: Pattern, a: nat)
    requires p != [] && Mappable(ranges) && ToolMatch(ranges, image, p, a)
    ensures a in RuntimeMatches(Loaded(ranges), Bytes(image), p)
  {
    var i :| 0 <= i < |ranges| && InFile(ranges[i], a, |p|);
    var r := Loaded(ranges)[i];
    StretchesKept(Loaded(ranges), |p|);
    assert r in Loaded(ranges) && Kept(r, |p|);
    var ss := Stretches(Loaded(ranges), |p|);
    assert Whole(r) in ss;
    var k :| 0 <= k < |ss| && ss[k] == Whole(r);
    forall x | a <= x < a + |p|
      ensures Covered(ss, x)
    {
      assert Within(ss[k], x);
    }
    RuntimeMatchesAt(Loaded(ranges), Bytes(image), p, a);
  }

  lemma {:induction false} StretchesFrom(ranges: seq<Range>, n: nat, s: Stretch) returns (i: nat)
    requires s in Stretches(ranges, n)
    ensures i < |ranges| && Kept(ranges[i], n) && s == Whole(ranges[i])
  {
    if Kept(ranges[0], n) && s == Whole(ranges[0]) {
      i := 0;
    } else {
      var k := StretchesFrom(ranges[1..], n, s);
      i := k + 1;
    }
  }

  lemma CoveringRange(ranges: seq<FileRange>, n: nat, x: nat) returns (i: nat)
    requires Covered(Stretches(Loaded(ranges), n), x)
    ensures i < |ranges| && ranges[i].offset <= x < ranges[i].offset + ranges[i].size
  {
    var ss := Stretches(Loaded(ranges), n);
    var k :| 0 <= k < |ss| && Within(ss[k], x);
    i := StretchesFrom(Loaded(ranges), n, ss[k]);
  }

  lemma SeparatedFinds(ranges: seq<FileRange>, image: seq<Byte>, p: Pattern, a: nat)
    requires p != [] && Separated(ranges) && a in RuntimeMatches(Loaded(ranges), Bytes(image), p)
    ensures ToolMatch(ranges, image, p, a)
  {
    RuntimeMatchesAt(Loaded(ranges), Bytes(image), p, a);
    var i := CoveringRange(ranges, |p|, a);
    var end := ranges[i].offset + ranges[i].size;
    if end < a + |p| {
      var j := CoveringRange(ranges, |p|, end);
    }
    assert InFile(ranges[i], a, |p|);
  }

  /** On separated ranges the tool lists the runtime's matches, so both choose the same place. */
  lemma SeparatedAgree(ranges: seq<FileRange>, image: seq<Byte>, p: Pattern, matches: seq<nat>, occurrence: nat)
    requires p != [] && Separated(ranges) && Mappable(ranges)
    requires Ascending(matches) && forall a :: a in matches <==> ToolMatch(ranges, image, p, a)
    ensures matches == RuntimeMatches(Loaded(ranges), Bytes(image), p)
    ensures Select(matches, occurrence) == Select(RuntimeMatches(Loaded(ranges), Bytes(image), p), occurrence)
  {
    var runtime := RuntimeMatches(Loaded(ranges), Bytes(image), p);
    RuntimeMatchesAscend(Loaded(ranges), Bytes(image), p);
    forall a
      ensures a in matches <==> a in runtime
    {
      if a in runtime {
        SeparatedFinds(ranges, image, p, a);
      }
      if a in matches {
        ToolSubset(ranges, image, p, a);
      }
    }
    AscendingUnique(matches, runtime);
  }

  // ---- exactly when the two scanners agree ----

  /** Ranges long enough for the pattern cover all of it between them. */
  ghost predicate Bridged(ranges: seq<FileRange>, n: nat, a: nat) {
    forall x :: a <= x < a + n ==> Covered(Stretches(Loaded(ranges), n), x)
  }

  predicate InOne(ranges: seq<FileRange>, n: nat, a: nat) {
    exists i :: 0 <= i < |ranges| && InFile(ranges[i], a, n)
  }

  /** What the ranges cover between them lies within one of them, for every place of `n` bytes. */
  ghost predicate Unbridged(ranges: seq<FileRange>, n: nat) {
    forall a :: Bridged(ranges, n, a) ==> InOne(ranges, n, a)
  }

  ghost predicate SamePlaces(ranges: seq<FileRange>, image: seq<Byte>, p: Pattern) {
    forall a :: a in RuntimeMatches(Loaded(ranges), Bytes(image), p) <==> ToolMatch(ranges, image, p, a)
  }

  lemma UnbridgedSame(ranges: seq<FileRange>, image: seq<Byte>, p: Pattern)
    requires p != [] && Mappable(ranges) && Unbridged(ranges, |p|)
    ensures SamePlaces(ranges, image, p)
  {
    forall a
      ensures a in RuntimeMatches(Loaded(ranges), Bytes(image), p) <==> ToolMatch(ranges, image, p, a)
    {
      RuntimeMatchesAt(Loaded(ranges), Bytes(image), p, a);
      if ToolMatch(ranges, image, p, a) {
        ToolSubset(ranges, image, p, a);
      }
      assert Matches(Stretches(Loaded(ranges), |p|), Bytes(image), p, a) ==> Bridged(ranges, |p|, a);
      assert Bridged(ranges, |p|, a) ==> InOne(ranges, |p|, a);
    }
  }

  /** A pattern of wildcards lies everywhere. */
  function Wildcards(n: nat): (p: Pattern)
    ensures |p| == n && forall i :: 0 <= i < n ==> p[i].None?
  {
    seq(n, i => None)
  }

  lemma SameUnbridged(ranges: seq<FileRange>, image: seq<Byte>, n: nat)
    requires n > 0 && SamePlaces(ranges, image, Wildcards(n))
    ensures Unbridged(ranges, n)
  {
    forall a | Bridged(ranges, n, a)
      ensures InOne(ranges, n, a)
    {
      RuntimeMatchesAt(Loaded(ranges), Bytes(image), Wildcards(n), a);
      assert ToolMatch(ranges, image, Wildcards(n), a);
    }
  }

  /**
    The two scanners find the same places for every pattern of `n` bytes exactly when no `n` bytes lie across
    ranges. This depends on the ranges alone, not on what is in the image.
   */
  lemma ScannersAgreeIff(ranges: seq<FileRange>, image: seq<Byte>, n: nat)
    requires n > 0 && Mappable(ranges)
    ensures Unbridged(ranges, n) <==> forall p: Pattern :: |p| == n ==> SamePlaces(ranges, image, p)
  {
    if Unbridged(ranges, n) {
      forall p: Pattern | |p| == n
        ensures SamePlaces(ranges, image, p)
      {
        UnbridgedSame(ranges, image, p);
      }
    } else if forall p: Pattern :: |p| == n ==> SamePlaces(ranges, image, p) {
      SameUnbridged(ranges, image, n);
    }
  }

  /** An image with two ranges that touch: the runtime also finds what lies across the border, the tool does not. */
  lemma TouchingRangesDiffer(image: seq<Byte>)
    requires |image| == 4
    ensures var ranges := [FileRange(0, 2), FileRange(2, 2)];
      && (forall r :: r in ranges ==> r.offset + r.size <= |image|)
      && 1 in RuntimeMatches(Loaded(ranges), Bytes(image), Wildcards(2)) && !ToolMatch(ranges, image, Wildcards(2), 1)
  {
    var ranges := [FileRange(0, 2), FileRange(2, 2)];
    var loaded := Loaded(ranges);
    var ss := Stretches(loaded, 2);
    StretchesKept(loaded, 2);
    assert loaded[0] in loaded && loaded[1] in loaded;
    assert Stretch(0, 2) in ss && Stretch(2, 4) in ss;
    var i :| 0 <= i < |ss| && ss[i] == Stretch(0, 2);
    var j :| 0 <= j < |ss| && ss[j] == Stretch(2, 4);
    assert Within(ss[i], 1) && Within(ss[j], 2);
    RuntimeMatchesAt(loaded, Bytes(image), Wildcards(2), 1);
    assert !InFile(ranges[0], 1, 2) && !InFile(ranges[1], 1, 2);
  }
}
