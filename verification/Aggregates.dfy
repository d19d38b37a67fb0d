/**
  Canonical form of aggregate descriptors: a recursive, memoised walk over a graph of descriptors that
  plugins hand in, which may share or even contain itself.
 */
module Aggregates {
  import opened Options
  import opened Numerals

  datatype Result = Ok | InvalidArgument

  const MAX_SIZE: nat := 64
  const MAX_FIELDS: nat := 64
  const MAX_DEPTH: nat := 8
  const MAX_DESCRIPTORS: nat := 256

  const AGGREGATE: nat := 13

  /** `header`: the size and flag words are right. Address 0 is null; a null field array is `None`. */
  datatype Field = Field(header: bool, kind: nat, offset: nat, length: nat, aggregate: nat)
  datatype Descriptor = Descriptor(header: bool, byteSize: nat, fields: Option<seq<Field>>)

  /** What plugin memory holds. Every non-null address a descriptor mentions can be read. */
  type Memory = map<nat, Descriptor>

  ghost predicate Readable(m: Memory, p: nat) {
    p == 0 || p in m
  }

  ghost predicate Closed(m: Memory) {
    forall p, i :: p in m && m[p].fields.Some? && 0 <= i < |m[p].fields.value| ==> Readable(m, m[p].fields.value[i].aggregate)
  }

  datatype Slot = Slot(kind: nat, offset: nat, length: nat, child: Option<Layout>)
  datatype Layout = Layout(byteSize: nat, fields: seq<Slot>)

  predicate Scalar(kind: nat) {
    1 <= kind <= 12
  }

  function ScalarSize(kind: nat): nat {
    if kind in {1, 2, 3} then 1
    else if kind in {4, 5} then 2
    else if kind in {6, 7, 11} then 4
    else if kind in {8, 9, 10, 12} then 8
    else 0
  }

  function SlotSize(f: Slot): nat {
    if f.child.Some? then f.child.value.byteSize else ScalarSize(f.kind)
  }

  // ---- what the walk should compute: the tree the descriptor unfolds to ----

  predicate HeaderFine(d: Descriptor) {
    && d.header && 0 < d.byteSize <= MAX_SIZE && d.fields.Some? && 0 < |d.fields.value| <= MAX_FIELDS
  }

  predicate FieldFine(d: Descriptor, i: nat)
    requires d.fields.Some? && i < |d.fields.value|
  {
    var f := d.fields.value[i];
    && f.header && f.length != 0 && f.offset < d.byteSize
    && (i > 0 ==> d.fields.value[i - 1].offset <= f.offset)
  }

  /** The array of the slot ends within the object. */
  predicate Fits(byteSize: nat, f: Slot) {
    SlotSize(f) > 0 && f.offset + f.length * SlotSize(f) <= byteSize
  }

  ghost predicate Unfolds(m: Memory, p: nat, l: Layout)
    decreases l, 1
  {
    && p != 0 && p in m && HeaderFine(m[p])
    && l.byteSize == m[p].byteSize && |l.fields| == |m[p].fields.value|
    && forall i :: 0 <= i < |l.fields| ==> FieldFine(m[p], i) && UnfoldsSlot(m, m[p].fields.value[i], l.fields[i]) && Fits(l.byteSize, l.fields[i])
  }

  ghost predicate UnfoldsSlot(m: Memory, f: Field, s: Slot)
    decreases s, 0
  {
    && s.kind == f.kind && s.offset == f.offset && s.length == f.length
    && if s.child.Some? then f.kind == AGGREGATE && Unfolds(m, f.aggregate, s.child.value) else Scalar(f.kind) && f.aggregate == 0
  }

  lemma {:induction false} UnfoldsOnce(m: Memory, p: nat, a: Layout, b: Layout)
    requires Unfolds(m, p, a) && Unfolds(m, p, b)
    ensures a == b
    decreases a
  {
    forall i | 0 <= i < |a.fields|
      ensures a.fields[i] == b.fields[i]
    {
      assert UnfoldsSlot(m, m[p].fields.value[i], a.fields[i]) && UnfoldsSlot(m, m[p].fields.value[i], b.fields[i]);
      if a.fields[i].child.Some? {
        UnfoldsOnce(m, m[p].fields.value[i].aggregate, a.fields[i].child.value, b.fields[i].child.value);
      }
    }
    assert a.fields == b.fields;
  }

  function Height(l: Layout): nat
    decreases l
  {
    1 + Highest(l.fields)
  }

  function Highest(fs: seq<Slot>): nat
    decreases fs
  {
    if fs == [] then 0
    else
      var a, b := SlotHeight(fs[0]), Highest(fs[1..]);
      if a > b then a else b
  }

  function SlotHeight(f: Slot): nat
    decreases f
  {
    if f.child.Some? then Height(f.child.value) else 0
  }

  lemma {:induction false} HighestIs(fs: seq<Slot>, i: nat)
    requires i < |fs|
    ensures SlotHeight(fs[i]) <= Highest(fs)
  {
    if i > 0 {
      HighestIs(fs[1..], i - 1);
    }
  }

  // ---- accepted graphs have no cycle ----

  predicate PointsTo(m: Memory, p: nat, q: nat) {
    p in m && m[p].fields.Some? && exists i :: 0 <= i < |m[p].fields.value| && m[p].fields.value[i].kind == AGGREGATE && m[p].fields.value[i].aggregate == q
  }

  ghost predicate Chain(m: Memory, path: seq<nat>) {
    forall i :: 0 <= i < |path| - 1 ==> PointsTo(m, path[i], path[i + 1])
  }

  /** Every chain of descriptors from an accepted one is no longer than its tree is high. */
  lemma {:induction false} ChainsEnd(m: Memory, path: seq<nat>, l: Layout)
    requires path != [] && Chain(m, path) && Unfolds(m, path[0], l)
    ensures |path| <= Height(l)
    decreases l
  {
    if |path| > 1 {
      var p := path[0];
      assert PointsTo(m, path[0], path[1]);
      var i :| 0 <= i < |m[p].fields.value| && m[p].fields.value[i].kind == AGGREGATE && m[p].fields.value[i].aggregate == path[1];
      assert UnfoldsSlot(m, m[p].fields.value[i], l.fields[i]);
      ChainsEnd(m, path[1..], l.fields[i].child.value);
      HighestIs(l.fields, i);
    }
  }

  /** Whatever is reached from an accepted descriptor is accepted itself. */
  lemma {:induction false} ReachedUnfolds(m: Memory, path: seq<nat>, k: nat, l: Layout) returns (below: Layout)
    requires k < |path| && Chain(m, path) && Unfolds(m, path[0], l)
    ensures Unfolds(m, path[k], below)
    decreases l
  {
    below := l;
    if k > 0 {
      var p := path[0];
      assert PointsTo(m, path[0], path[1]);
      var i :| 0 <= i < |m[p].fields.value| && m[p].fields.value[i].kind == AGGREGATE && m[p].fields.value[i].aggregate == path[1];
      assert UnfoldsSlot(m, m[p].fields.value[i], l.fields[i]);
      below := ReachedUnfolds(m, path[1..], k - 1, l.fields[i].child.value);
    }
  }

  /** So no descriptor that is reached reaches itself: a chain that closes could be walked round for ever. */
  lemma NoCycle(m: Memory, path: seq<nat>, l: Layout, i: nat, j: nat)
    requires i < j < |path| && Chain(m, path) && Unfolds(m, path[0], l)
    ensures path[i] != path[j]
  {
    if path[i] == path[j] {
      var below := ReachedUnfolds(m, path, i, l);
      var long := Around(m, path[i..j + 1], Height(below));
      ChainsEnd(m, long, below);
    }
  }

  lemma {:induction false} Around(m: Memory, path: seq<nat>, n: nat) returns (long: seq<nat>)
    requires |path| > 1 && Chain(m, path) && path[0] == path[|path| - 1]
    ensures |long| > n && Chain(m, long) && long[0] == path[0] && long[|long| - 1] == path[0]
  {
    if n == 0 {
      long := path;
    } else {
      var shorter := Around(m, path, n - 1);
      long := shorter + path[1..];
      forall i | 0 <= i < |long| - 1
        ensures PointsTo(m, long[i], long[i + 1])
      {
        if i >= |shorter| - 1 {
          assert PointsTo(m, path[i - (|shorter| - 1)], path[i + 1 - (|shorter| - 1)]);
        } else {
          assert PointsTo(m, shorter[i], shorter[i + 1]);
        }
      }
    }
  }

  // ---- the identity string ----

  function Identity(l: Layout): string
    decreases l
  {
    Decimal(l.byteSize) + "{" + Slots(l.fields) + "}"
  }

  function Slots(fs: seq<Slot>): string
    decreases fs
  {
    if fs == [] then "" else SlotText(fs[0]) + Slots(fs[1..])
  }

  function SlotText(f: Slot): string
    decreases f
  {
    Decimal(f.kind) + ":" + Decimal(f.offset) + ":" + Decimal(f.length) + ":" + ChildText(f.child) + ";"
  }

  function ChildText(child: Option<Layout>): string
    decreases child
  {
    if child.Some? then Identity(child.value) else ""
  }

  lemma {:induction false} IdentityPrefix(a: Layout, b: Layout, s: string, t: string)
    requires Identity(a) + s == Identity(b) + t
    ensures a == b && s == t
    decreases a, 3
  {
    IdentityIs(a, s);
    IdentityIs(b, t);
    var x, y := Slots(a.fields) + ("}" + s), Slots(b.fields) + ("}" + t);
    DecimalPrefix(a.byteSize, b.byteSize, "{" + x, "{" + y);
    assert ("{" + x)[1..] == x && ("{" + y)[1..] == y;
    SlotsPrefix(a.fields, b.fields, "}" + s, "}" + t);
    assert ("}" + s)[1..] == s && ("}" + t)[1..] == t;
  }

  lemma IdentityIs(a: Layout, s: string)
    ensures Identity(a) + s == Decimal(a.byteSize) + ("{" + (Slots(a.fields) + ("}" + s)))
  {
    var x := Slots(a.fields);
    assert Identity(a) == Decimal(a.byteSize) + "{" + x + "}";
  }

  lemma {:induction false} SlotsPrefix(fs: seq<Slot>, gs: seq<Slot>, s: string, t: string)
    requires Slots(fs) + s == Slots(gs) + t && s != [] && t != [] && s[0] == t[0] == '}'
    ensures fs == gs && s == t
    decreases fs, 2
  {
    if fs == [] || gs == [] {
      if fs != [] {
        FirstDigit(fs, s);
      } else if gs != [] {
        FirstDigit(gs, t);
      }
      assert Slots([]) + s == s && Slots([]) + t == t;
    } else {
      var x, y := Slots(fs[1..]) + s, Slots(gs[1..]) + t;
      assert Slots(fs) + s == SlotText(fs[0]) + x && Slots(gs) + t == SlotText(gs[0]) + y;
      SlotPrefix(fs[0], gs[0], x, y);
      SlotsPrefix(fs[1..], gs[1..], s, t);
    }
  }

  lemma FirstDigit(fs: seq<Slot>, s: string)
    requires fs != []
    ensures (Slots(fs) + s) != [] && IsDigit((Slots(fs) + s)[0])
  {
    assert SlotText(fs[0])[0] == Decimal(fs[0].kind)[0];
  }

  function Number(n: nat, rest: string): string {
    Decimal(n) + (":" + rest)
  }

  lemma NumberPrefix(n: nat, m: nat, s: string, t: string)
    requires Number(n, s) == Number(m, t)
    ensures n == m && s == t
  {
    DecimalPrefix(n, m, ":" + s, ":" + t);
    assert (":" + s)[1..] == s && (":" + t)[1..] == t;
  }

  lemma SlotTextIs(f: Slot, s: string)
    ensures SlotText(f) + s == Number(f.kind, Number(f.offset, Number(f.length, ChildText(f.child) + ";" + s)))
  {
    var c := ChildText(f.child) + ";";
    assert SlotText(f) == Decimal(f.kind) + ":" + Decimal(f.offset) + ":" + Decimal(f.length) + ":" + c;
  }

  lemma {:induction false} SlotPrefix(f: Slot, g: Slot, s: string, t: string)
    requires SlotText(f) + s == SlotText(g) + t
    ensures f == g && s == t
    decreases f, 1
  {
    SlotTextIs(f, s);
    SlotTextIs(g, t);
    var f3, g3 := ChildText(f.child) + ";" + s, ChildText(g.child) + ";" + t;
    NumberPrefix(f.kind, g.kind, Number(f.offset, Number(f.length, f3)), Number(g.offset, Number(g.length, g3)));
    NumberPrefix(f.offset, g.offset, Number(f.length, f3), Number(g.length, g3));
    NumberPrefix(f.length, g.length, f3, g3);
    ChildPrefix(f.child, g.child, s, t);
  }

  lemma ChildTextIs(child: Option<Layout>, s: string)
    ensures ChildText(child) + ";" + s == if child.Some? then Identity(child.value) + (";" + s) else ";" + s
    ensures child.Some? ==> IsDigit((ChildText(child) + ";" + s)[0])
  {
    if child.Some? {
      assert Identity(child.value)[0] == Decimal(child.value.byteSize)[0];
    }
  }

  lemma {:induction false} ChildPrefix(a: Option<Layout>, b: Option<Layout>, s: string, t: string)
    requires ChildText(a) + ";" + s == ChildText(b) + ";" + t
    ensures a == b && s == t
    decreases a, 0
  {
    ChildTextIs(a, s);
    ChildTextIs(b, t);
    assert (";" + s)[0] == ';' && (";" + s)[1..] == s && (";" + t)[0] == ';' && (";" + t)[1..] == t;
    if a.Some? && b.Some? {
      IdentityPrefix(a.value, b.value, ";" + s, ";" + t);
    }
  }

  /** Two layouts have the same identity string exactly when they are the same. */
  lemma IdentityInjective(a: Layout, b: Layout)
    ensures Identity(a) == Identity(b) <==> a == b
  {
    if Identity(a) == Identity(b) {
      assert Identity(a) + "" == Identity(b) + "";
      IdentityPrefix(a, b, "", "");
    }
  }

  lemma {:induction false} SlotsAppend(fs: seq<Slot>, f: Slot)
    ensures Slots(fs + [f]) == Slots(fs) + SlotText(f)
  {
    if fs == [] {
      assert [f][1..] == [];
    } else {
      assert (fs + [f])[1..] == fs[1..] + [f];
      SlotsAppend(fs[1..], f);
    }
  }

  // ---- the walk ----

  datatype Data = Data(layout: Layout, identity: string)

  /** What is remembered of a descriptor is its unfolding and that one's identity string. */
  ghost predicate Cached(m: Memory, completed: map<nat, Data>) {
    forall q :: q in completed ==> Remembers(m, q, completed[q])
  }

  ghost predicate Remembers(m: Memory, q: nat, d: Data) {
    Unfolds(m, q, d.layout) && d.identity == Identity(d.layout)
  }

  lemma CachedAdded(m: Memory, completed: map<nat, Data>, p: nat, d: Data)
    requires Cached(m, completed) && Remembers(m, p, d)
    ensures Cached(m, completed[p := d])
  {
  }

  lemma ArrayFits(byteSize: nat, offset: nat, length: nat, size: nat)
    requires offset < byteSize && size > 0
    ensures length > (byteSize - offset) / size <==> offset + length * size > byteSize
  {
    var available := byteSize - offset;
    var q := available / size;
    assert q * size <= available < (q + 1) * size;
    if length > q {
      assert length * size >= (q + 1) * size;
    } else {
      assert length * size <= q * size;
    }
  }

  /** Everything that can be reached is in `reach`. */
  ghost predicate Reaches(m: Memory, reach: set<nat>) {
    forall p, q :: p in reach && PointsTo(m, p, q) ==> q in reach
  }

  class BuildContext {
    var completed: map<nat, Data>
    var active: set<nat>
    var count: nat

    constructor ()
      ensures completed == map[] && active == {} && count == 0
    {
      completed, active, count := map[], {}, 0;
    }

    ghost predicate Valid(m: Memory)
      reads this
    {
      && Cached(m, completed)
      && active !! completed.Keys && count == |completed.Keys| + |active|
    }

    ghost predicate Expects(m: Memory, p: nat, depth: nat, l: Layout, reach: set<nat>)
      reads this
    {
      Welcome(m, p, depth, l, reach, completed.Keys, active)
    }

    /** Descriptor `p` seen from `depth`; `expected` and `reach` say when it must be accepted. */
    method CanonicalAggregate(m: Memory, p: nat, depth: nat, ghost expected: Layout, ghost reach: set<nat>)
      returns (result: Result, output: Option<Data>)
      requires Closed(m) && Readable(m, p) && Valid(m)
      modifies this
      ensures result == Ok ==> Valid(m) && active == old(active) && old(completed.Keys) <= completed.Keys
      ensures result == Ok ==> output.Some? && Unfolds(m, p, output.value.layout) && output.value.identity == Identity(output.value.layout)
      ensures result == Ok && old(completed.Keys) <= reach && p in reach && Reaches(m, reach) ==> completed.Keys <= reach
      ensures old(Expects(m, p, depth, expected, reach)) ==> result == Ok
      decreases MAX_DEPTH + 1 - depth, 1, 0
    {
      if p == 0 || depth > MAX_DEPTH {
        return InvalidArgument, None;
      }
      if p in completed {
        return Ok, Some(completed[p]);
      }
      ghost var welcome := Expects(m, p, depth, expected, reach);
      if welcome {
        EntryFits(m, p, depth, expected, reach, completed.Keys, active);
      }
      if p in active {
        return InvalidArgument, None;
      }
      active := active + {p};
      count := count + 1;
      var d := m[p];
      if count > MAX_DESCRIPTORS || !HeaderFine(d) {
        return InvalidArgument, None;
      }
      var r, slots, identity := CanonicalFields(m, p, depth, expected, reach);
      active := active - {p};
      if r != Ok {
        return r, None;
      }
      SlotsUnfold(m, p, slots);
      CachedAdded(m, completed, p, Data(Layout(d.byteSize, slots), identity + "}"));
      output := Some(Data(Layout(d.byteSize, slots), identity + "}"));
      completed := completed[p := output.value];
      result := Ok;
    }

    /** All fields of descriptor `p`, whose walk is under way. */
    method CanonicalFields(m: Memory, p: nat, depth: nat, ghost expected: Layout, ghost reach: set<nat>)
      returns (result: Result, slots: seq<Slot>, identity: string)
      requires Closed(m) && Valid(m) && p in m && HeaderFine(m[p]) && p in active && depth <= MAX_DEPTH
      modifies this
      ensures result == Ok ==> Valid(m) && active == old(active) && old(completed.Keys) <= completed.Keys
      ensures result == Ok ==> |slots| == |m[p].fields.value| && UnfoldsSlots(m, p, slots)
      ensures result == Ok ==> identity == Opened(m[p].byteSize, slots)
      ensures result == Ok && old(completed.Keys) <= reach && p in reach && Reaches(m, reach) ==> completed.Keys <= reach
      ensures old(Welcome(m, p, depth, expected, reach, completed.Keys, active - {p})) ==> result == Ok
      decreases MAX_DEPTH + 1 - depth, 0, 1
    {
      ghost var welcome := Welcome(m, p, depth, expected, reach, completed.Keys, active - {p});
      slots, identity := [], Decimal(m[p].byteSize) + "{";
      for i := 0 to |m[p].fields.value|
        invariant Valid(m) && active == old(active) && old(completed.Keys) <= completed.Keys
        invariant |slots| == i && UnfoldsSlots(m, p, slots)
        invariant identity == Opened(m[p].byteSize, slots)
        invariant old(completed.Keys) <= reach && p in reach && Reaches(m, reach) ==> completed.Keys <= reach
        invariant welcome ==> Welcome(m, p, depth, expected, reach, completed.Keys, active - {p})
      {
        var r, slot, text := CanonicalField(m, p, i, depth, expected, reach);
        if r != Ok {
          return r, slots, identity;
        }
        SlotAppended(m, p, slots, slot);
        identity := identity + text;
        slots := slots + [slot];
      }
      result := Ok;
    }

    /** Field `i` of descriptor `p`, whose walk is under way. */
    method CanonicalField(m: Memory, p: nat, i: nat, depth: nat, ghost expected: Layout, ghost reach: set<nat>)
      returns (result: Result, slot: Slot, text: string)
      requires Closed(m) && Valid(m) && p in m && HeaderFine(m[p]) && i < |m[p].fields.value|
      requires p in active && depth <= MAX_DEPTH
      modifies this
      ensures result == Ok ==> Valid(m) && active == old(active) && old(completed.Keys) <= completed.Keys
      ensures result == Ok ==> FieldFine(m[p], i) && UnfoldsSlot(m, m[p].fields.value[i], slot) && Fits(m[p].byteSize, slot)
      ensures result == Ok ==> text == SlotText(slot)
      ensures result == Ok && old(completed.Keys) <= reach && p in reach && Reaches(m, reach) ==> completed.Keys <= reach
      ensures old(Welcome(m, p, depth, expected, reach, completed.Keys, active - {p})) ==> result == Ok
      decreases MAX_DEPTH + 1 - depth, 0, 0
    {
      var d := m[p];
      var f := d.fields.value[i];
      slot, text := Slot(f.kind, f.offset, f.length, None), "";
      ghost var welcome := Welcome(m, p, depth, expected, reach, completed.Keys, active - {p});
      assert welcome ==> FieldFine(d, i) && UnfoldsSlot(m, f, expected.fields[i]) && Fits(d.byteSize, expected.fields[i]);
      if !FieldFine(d, i) {
        return InvalidArgument, slot, "";
      }
      var size := 0;
      if f.kind == AGGREGATE {
        assert Readable(m, d.fields.value[i].aggregate) && PointsTo(m, p, f.aggregate);
        ghost var below := ChildOf(expected, i);
        if welcome {
          WelcomeBelow(m, p, i, depth, expected, reach, completed.Keys, active - {p});
          assert active - {p} + {p} == active;
        }
        var r, nested := CanonicalAggregate(m, f.aggregate, depth + 1, below, reach);
        if r != Ok {
          return r, slot, "";
        }
        slot, text, size := slot.(child := Some(nested.value.layout)), nested.value.identity, nested.value.layout.byteSize;
        if welcome {
          UnfoldsOnce(m, f.aggregate, nested.value.layout, below);
        }
      } else if Scalar(f.kind) && f.aggregate == 0 {
        size := ScalarSize(f.kind);
      } else {
        return InvalidArgument, slot, "";
      }
      assert welcome ==> slot == expected.fields[i] && size == SlotSize(slot);
      if size == 0 || f.length > (d.byteSize - f.offset) / size {
        if size != 0 {
          ArrayFits(d.byteSize, f.offset, f.length, size);
        }
        return InvalidArgument, slot, "";
      }
      ArrayFits(d.byteSize, f.offset, f.length, size);
      text := Decimal(f.kind) + ":" + Decimal(f.offset) + ":" + Decimal(f.length) + ":" + text + ";";
      result := Ok;
    }
  }

  /** The slots are what the first fields of the descriptor unfold to. */
  ghost predicate UnfoldsSlots(m: Memory, p: nat, slots: seq<Slot>)
    requires p in m && m[p].fields.Some? && |slots| <= |m[p].fields.value|
  {
    forall j :: 0 <= j < |slots| ==> FieldFine(m[p], j) && UnfoldsSlot(m, m[p].fields.value[j], slots[j]) && Fits(m[p].byteSize, slots[j])
  }

  /** The identity string of an object whose slots so far are these. */
  function Opened(byteSize: nat, slots: seq<Slot>): string {
    Decimal(byteSize) + "{" + Slots(slots)
  }

  lemma SlotAppended(m: Memory, p: nat, slots: seq<Slot>, slot: Slot)
    requires p in m && m[p].fields.Some? && |slots| < |m[p].fields.value| && UnfoldsSlots(m, p, slots)
    requires var i := |slots|; FieldFine(m[p], i) && UnfoldsSlot(m, m[p].fields.value[i], slot) && Fits(m[p].byteSize, slot)
    ensures UnfoldsSlots(m, p, slots + [slot])
    ensures Opened(m[p].byteSize, slots) + SlotText(slot) == Opened(m[p].byteSize, slots + [slot])
  {
    OpenedAppended(m[p].byteSize, slots, slot);
  }

  lemma OpenedAppended(byteSize: nat, slots: seq<Slot>, slot: Slot)
    ensures Opened(byteSize, slots) + SlotText(slot) == Opened(byteSize, slots + [slot])
  {
    SlotsAppend(slots, slot);
  }

  lemma SlotsUnfold(m: Memory, p: nat, slots: seq<Slot>)
    requires p != 0 && p in m && HeaderFine(m[p]) && |slots| == |m[p].fields.value| && UnfoldsSlots(m, p, slots)
    ensures Unfolds(m, p, Layout(m[p].byteSize, slots))
    ensures Opened(m[p].byteSize, slots) + "}" == Identity(Layout(m[p].byteSize, slots))
  {
  }

  function ChildOf(l: Layout, i: nat): Layout {
    if i < |l.fields| && l.fields[i].child.Some? then l.fields[i].child.value else l
  }

  ghost predicate Above(m: Memory, a: nat, height: nat) {
    exists l :: Unfolds(m, a, l) && Height(l) > height
  }

  /** The descriptor unfolds within the limits, none of its ancestors is below it, and few enough descriptors are in reach. */
  ghost predicate Welcome(m: Memory, p: nat, depth: nat, l: Layout, reach: set<nat>, done: set<nat>, active: set<nat>) {
    && Unfolds(m, p, l) && depth + Height(l) <= MAX_DEPTH + 1
    && p in reach && Reaches(m, reach) && |reach| <= MAX_DESCRIPTORS && done <= reach && active <= reach
    && forall a :: a in active ==> Above(m, a, Height(l))
  }

  lemma EntryFits(m: Memory, p: nat, depth: nat, l: Layout, reach: set<nat>, done: set<nat>, active: set<nat>)
    requires Welcome(m, p, depth, l, reach, done, active) && p !in done && active !! done
    ensures p !in active && |done| + |active| + 1 <= MAX_DESCRIPTORS
  {
    assert p in active ==> Above(m, p, Height(l));
    if p in active {
      var other :| Unfolds(m, p, other) && Height(other) > Height(l);
      UnfoldsOnce(m, p, other, l);
    }
    SubsetSize(done + active + {p}, reach);
    assert |done + active + {p}| == |done| + |active| + 1;
  }

  lemma {:induction false} SubsetSize(a: set<nat>, b: set<nat>)
    requires a <= b
    ensures |a| <= |b|
  {
    if a != {} {
      var x :| x in a;
      SubsetSize(a - {x}, b - {x});
    }
  }

  lemma WelcomeBelow(m: Memory, p: nat, i: nat, depth: nat, l: Layout, reach: set<nat>, done: set<nat>,
        active: set<nat>)
    requires Welcome(m, p, depth, l, reach, done, active) && i < |l.fields| && m[p].fields.value[i].kind == AGGREGATE
    ensures Welcome(m, m[p].fields.value[i].aggregate, depth + 1, ChildOf(l, i), reach, done, active + {p})
  {
    assert UnfoldsSlot(m, m[p].fields.value[i], l.fields[i]);
    assert PointsTo(m, p, m[p].fields.value[i].aggregate);
    HighestIs(l.fields, i);
    var below := ChildOf(l, i);
    assert Height(l) > Height(below);
    forall a | a in active + {p}
      ensures Above(m, a, Height(below))
    {
      if a in active {
        assert Above(m, a, Height(l));
      }
    }
  }
}
