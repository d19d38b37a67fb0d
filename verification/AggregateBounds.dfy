/**
  What an accepted aggregate descriptor is good for: every scalar of every element of every array in it, however
  deeply nested, has a size the machine knows and lies inside the object.
 */
module AggregateBounds {
  import opened Aggregates

  /** Element `e` of the slot's array starts at `start`. */
  ghost predicate Begins(f: Slot, e: int, start: int) {
    0 <= e < f.length && start == f.offset + e * SlotSize(f)
  }

  /** A scalar of `size` bytes lies at `at` from the start of the object. */
  ghost predicate HasScalar(l: Layout, at: int, size: nat)
    decreases l
  {
    exists i, e, start :: 0 <= i < |l.fields| && Begins(l.fields[i], e, start) && SlotScalar(l.fields[i], at - start, size)
  }

  /** It lies at `at` from the start of each element of the slot's array. */
  ghost predicate SlotScalar(f: Slot, at: int, size: nat)
    decreases f
  {
    if f.child.Some? then HasScalar(f.child.value, at, size) else at == 0 && size == ScalarSize(f.kind)
  }

  lemma ElementInside(f: Slot, e: int, start: int, byteSize: nat)
    requires Fits(byteSize, f) && Begins(f, e, start)
    ensures 0 <= start && start + SlotSize(f) <= byteSize
  {
    assert (e + 1) * SlotSize(f) <= f.length * SlotSize(f);
    assert (e + 1) * SlotSize(f) == e * SlotSize(f) + SlotSize(f);
  }

  /** Every scalar of an accepted object has one, two, four or eight bytes, all of them inside the object. */
  lemma {:induction false} ScalarsInside(m: Memory, p: nat, l: Layout, at: int, size: nat)
    requires Unfolds(m, p, l) && HasScalar(l, at, size)
    ensures size in {1, 2, 4, 8} && 0 <= at && at + size <= l.byteSize <= MAX_SIZE
    decreases l, 1
  {
    var i, e, start :| 0 <= i < |l.fields| && Begins(l.fields[i], e, start) && SlotScalar(l.fields[i], at - start, size);
    var f := l.fields[i];
    assert UnfoldsSlot(m, m[p].fields.value[i], f) && Fits(l.byteSize, f);
    ElementInside(f, e, start, l.byteSize);
    SlotInside(m, m[p].fields.value[i], f, at - start, size);
  }

  lemma {:induction false} SlotInside(m: Memory, field: Field, f: Slot, at: int, size: nat)
    requires UnfoldsSlot(m, field, f) && SlotScalar(f, at, size)
    ensures size in {1, 2, 4, 8} && 0 <= at && at + size <= SlotSize(f)
    decreases f, 0
  {
    if f.child.Some? {
      ScalarsInside(m, field.aggregate, f.child.value, at, size);
    }
  }

  /** The fields of an accepted object begin inside it, one not before the other. */
  lemma {:induction false} OffsetsAscend(m: Memory, p: nat, l: Layout, i: nat, j: nat)
    requires Unfolds(m, p, l) && i <= j < |l.fields|
    ensures l.fields[i].offset <= l.fields[j].offset < l.byteSize
    decreases j - i
  {
    assert FieldFine(m[p], j) && UnfoldsSlot(m, m[p].fields.value[j], l.fields[j]);
    if i < j {
      assert FieldFine(m[p], j - 1) && UnfoldsSlot(m, m[p].fields.value[j - 1], l.fields[j - 1]);
      OffsetsAscend(m, p, l, i, j - 1);
    }
  }

  /** And there is one at least: an accepted object holds something. */
  lemma {:induction false} HoldsScalar(m: Memory, p: nat, l: Layout) returns (at: int, size: nat)
    requires Unfolds(m, p, l)
    ensures HasScalar(l, at, size)
    decreases l
  {
    var f := l.fields[0];
    assert FieldFine(m[p], 0) && UnfoldsSlot(m, m[p].fields.value[0], f);
    var below, s := 0, ScalarSize(f.kind);
    if f.child.Some? {
      below, s := HoldsScalar(m, m[p].fields.value[0].aggregate, f.child.value);
    }
    at, size := f.offset + below, s;
    assert Begins(f, 0, f.offset) && SlotScalar(f, at - f.offset, size);
  }
}
