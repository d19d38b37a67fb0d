/**
  Hooks on virtual tables: one shared table slot swapped in place, or one object moved to a shadow copy
  of its table. The original table is constant; other code may write the object's table cell, or the
  shared slot, at any time. Whether memory can be read, written and re-protected is an oracle.
 */
module Vtables {
  import opened Options

  datatype Result = Ok | Invalid | Conflict | ProtectionFailure

  /** A word of memory that others may write too. */
  class Cell {
    var value: nat

    constructor (value: nat)
      ensures this.value == value
    {
      this.value := value;
    }
  }

  /**
    How one exchange goes: is the cell accessible, can it be made writable, can its protection be put
    back, and what foreign code writes between the swap and the restored protection.
   */
  datatype Memory = Memory(accessible: bool, unprotects: bool, restores: bool, foreign: Option<nat>)

  function Foreign(value: nat, write: Option<nat>): nat {
    if write.Some? then write.value else value
  }

  function Swapped(value: nat, expected: nat, desired: nat): nat {
    if value == expected then desired else value
  }

  /** The swap happened, the protection could not be restored: swap back what is still ours. */
  function RolledBack(value: nat, expected: nat, desired: nat, m: Memory): nat {
    if value == expected then Swapped(Foreign(desired, m.foreign), desired, expected) else Foreign(value, m.foreign)
  }

  method Exchange(cell: Cell, expected: nat, desired: nat, protect: bool, m: Memory) returns (result: Result)
    modifies cell
    ensures result == (if !m.accessible then Invalid
                       else if protect && (!m.unprotects || !m.restores) then ProtectionFailure
                       else if old(cell.value) == expected then Ok else Conflict)
    ensures !m.accessible || (protect && !m.unprotects) ==> cell.value == old(cell.value)
    ensures m.accessible && !protect ==> cell.value == Swapped(old(cell.value), expected, desired)
    ensures m.accessible && protect && m.unprotects && m.restores ==>
      cell.value == Foreign(Swapped(old(cell.value), expected, desired), m.foreign)
    ensures m.accessible && protect && m.unprotects && !m.restores ==>
      cell.value == RolledBack(old(cell.value), expected, desired, m)
  {
    if !m.accessible {
      return Invalid;
    }
    if protect && !m.unprotects {
      return ProtectionFailure;
    }
    var exchanged := cell.value == expected;
    if exchanged {
      cell.value := desired;
    }
    if protect {
      if m.foreign.Some? {
        cell.value := m.foreign.value;
      }
      if !m.restores {
        if exchanged && cell.value == desired {
          cell.value := expected;
        }
        return ProtectionFailure;
      }
    }
    return if exchanged then Ok else Conflict;
  }

  /** A slot of a table that all objects of a class share. */
  class SharedVtableHook {
    const slot: Cell
    const original: nat
    const replacement: nat
    var enabled: bool

    constructor (slot: Cell, replacement: nat)
      ensures this.slot == slot && this.original == slot.value && this.replacement == replacement && !enabled
      ensures InPlace()
    {
      this.slot, this.original, this.replacement, this.enabled := slot, slot.value, replacement, false;
    }

    /** Nobody else has written the slot. */
    ghost predicate InPlace()
      reads this, slot
    {
      slot.value == if enabled then replacement else original
    }

    method Enable(m: Memory) returns (result: Result)
      modifies this`enabled, slot
      ensures enabled == (old(enabled) || result == Ok)
      ensures old(InPlace()) && m.foreign.None? ==> InPlace()
      ensures old(InPlace()) && m.foreign.None? && result != Ok ==> slot.value == old(slot.value)
      ensures old(enabled) ==> result == Ok && slot.value == old(slot.value)
      ensures !old(enabled) ==>
        (result == Ok <==> m.accessible && m.unprotects && m.restores && old(slot.value) == original)
    {
      if enabled {
        return Ok;
      }
      result := Exchange(slot, original, replacement, true, m);
      if result == Ok {
        enabled := true;
      }
    }

    method Disable(m: Memory) returns (result: Result)
      modifies this`enabled, slot
      ensures enabled == (old(enabled) && result != Ok)
      ensures old(InPlace()) && m.foreign.None? ==> InPlace()
      ensures !old(enabled) ==> result == Ok && slot.value == old(slot.value)
      ensures old(InPlace()) && m.foreign.None? && result != Ok ==> slot.value == old(slot.value)
      ensures old(enabled) ==>
        (result == Ok <==> m.accessible && m.unprotects && m.restores && old(slot.value) == replacement)
    {
      if !enabled {
        return Ok;
      }
      result := Exchange(slot, replacement, original, true, m);
      if result == Ok {
        enabled := false;
      }
    }
  }

  // ---- the shadow table as a value ----

  function Zeros(n: nat): (r: seq<nat>)
    ensures |r| == n && forall i :: 0 <= i < n ==> r[i] == 0
  {
    seq(n, _ => 0)
  }

  function Count(replacements: seq<nat>): nat {
    if replacements == [] then 0 else (if replacements[0] == 0 then 0 else 1) + Count(replacements[1..])
  }

  /** What the shadow table should hold: the replacement where there is one, the original elsewhere. */
  function Shadow(original: seq<nat>, replacements: seq<nat>): (s: seq<nat>)
    requires |original| == |replacements|
    ensures |s| == |original|
  {
    seq(|original|, i requires 0 <= i < |original| => if replacements[i] == 0 then original[i] else replacements[i])
  }

  lemma {:induction false} CountUpdated(replacements: seq<nat>, i: nat, r: nat)
    requires i < |replacements|
    ensures Count(replacements[i := r]) + (if replacements[i] == 0 then 0 else 1) == Count(replacements) + (if r == 0 then 0 else 1)
  {
    if i > 0 {
      assert replacements[i := r][1..] == replacements[1..][i - 1 := r];
      CountUpdated(replacements[1..], i - 1, r);
    } else {
      assert replacements[i := r][1..] == replacements[1..];
    }
  }

  lemma {:induction false} CountZero(replacements: seq<nat>)
    ensures Count(replacements) == 0 <==> forall i :: 0 <= i < |replacements| ==> replacements[i] == 0
  {
    if replacements != [] {
      CountZero(replacements[1..]);
    }
  }

  /**
    How memory behaves during one call: the object when the call begins, the object at the exchange, the
    shadow table, the shadow table at a roll-back, and a foreign write to the object in between.
   */
  datatype Access = Access(reachable: bool, again: bool, own: bool, back: bool, foreign: Option<nat>)

  /** The two table addresses and the entries of the original table. */
  datatype Tables = Tables(entries: seq<nat>, original: nat, shadow: nat)

  /** An object's table cell, the replacements in force and the entries of the shadow table. */
  datatype View = View(cell: nat, replacements: seq<nat>, table: seq<nat>)

  /** An entry of the shadow table is the original or the replacement in force. */
  ghost predicate Held(entries: seq<nat>, replacements: seq<nat>, table: seq<nat>) {
    && |table| == |replacements| == |entries|
    && forall i :: 0 <= i < |entries| ==> table[i] == entries[i] || (replacements[i] != 0 && table[i] == replacements[i])
  }

  class InstanceVtable {
    const instance: Cell
    const original: seq<nat>
    const originalAddress: nat
    const shadowAddress: nat
    const shadow: array<nat>
    const replacements: array<nat>
    var enabledCount: nat

    constructor (instance: Cell, original: seq<nat>, shadowAddress: nat)
      requires shadowAddress != instance.value
      ensures Valid() && fresh(shadow) && fresh(replacements) && enabledCount == 0
      ensures this.instance == instance && Home() == Tables(original, instance.value, shadowAddress)
      ensures State() == View(instance.value, Zeros(|original|), original)
    {
      this.instance, this.original, this.originalAddress, this.shadowAddress := instance, original, instance.value, shadowAddress;
      this.shadow := new nat[|original|](i requires 0 <= i < |original| => original[i]);
      this.replacements := new nat[|original|](_ => 0);
      this.enabledCount := 0;
      new;
      CountZero(replacements[..]);
      assert replacements[..] == Zeros(|original|);
    }

    ghost predicate Valid()
      reads this, shadow, replacements
    {
      && shadow != replacements && originalAddress != shadowAddress
      && enabledCount == Count(replacements[..]) && Held(original, replacements[..], shadow[..])
    }

    ghost function Home(): Tables {
      Tables(original, originalAddress, shadowAddress)
    }

    ghost function State(): View
      reads this, instance, replacements, shadow
    {
      View(instance.value, replacements[..], shadow[..])
    }

    /** An exchange on an entry of the shadow table. */
    method ExchangeEntry(index: nat, expected: nat, desired: nat, accessible: bool) returns (result: Result)
      requires index < shadow.Length
      modifies shadow
      ensures result == if !accessible then Invalid else if old(shadow[index]) == expected then Ok else Conflict
      ensures shadow[..] == if result == Ok then old(shadow[..])[index := desired] else old(shadow[..])
    {
      if !accessible {
        return Invalid;
      }
      if shadow[index] != expected {
        return Conflict;
      }
      shadow[index] := desired;
      return Ok;
    }

    method Enable(index: nat, replacement: nat, a: Access) returns (result: Result)
      requires Valid()
      modifies this`enabledCount, instance, shadow, replacements
      ensures Valid()
      ensures (result, State()) == EnableSpec(Home(), old(State()), index, replacement, a)
    {
      if index >= replacements.Length || replacement == 0 || replacements[index] != 0 || !a.reachable {
        return Invalid;
      }
      CountUpdated(replacements[..], index, replacement);
      assert shadow[..][index] == original[index];
      if enabledCount == 0 {
        shadow[index] := replacement;
        result := Exchange(instance, originalAddress, shadowAddress, false, Memory(a.again, true, true, None));
        if result != Ok {
          shadow[index] := original[index];
          assert shadow[..] == old(shadow[..]);
          return;
        }
        assert shadow[..] == old(shadow[..])[index := replacement];
      } else {
        if instance.value != shadowAddress {
          return Conflict;
        }
        if a.foreign.Some? {
          instance.value := a.foreign.value;
        }
        result := ExchangeEntry(index, original[index], replacement, a.own);
        if result != Ok {
          return;
        }
      }
      replacements[index] := replacement;
      enabledCount := enabledCount + 1;
      assert replacements[..] == old(replacements[..])[index := replacement];
      return Ok;
    }

    method Disable(index: nat, replacement: nat, a: Access) returns (result: Result)
      requires Valid()
      modifies this`enabledCount, instance, shadow, replacements
      ensures Valid()
      ensures (result, State()) == DisableSpec(Home(), old(State()), index, replacement, a)
    {
      if index >= replacements.Length || replacement == 0 || replacements[index] != replacement || !a.reachable {
        return Invalid;
      }
      CountUpdated(replacements[..], index, 0);
      if instance.value != shadowAddress {
        return Conflict;
      }
      if a.foreign.Some? {
        instance.value := a.foreign.value;
      }
      result := ExchangeEntry(index, replacement, original[index], a.own);
      if result != Ok {
        return;
      }
      if enabledCount == 1 {
        result := Exchange(instance, shadowAddress, originalAddress, false, Memory(a.again, true, true, None));
        if result != Ok {
          var back := ExchangeEntry(index, original[index], replacement, a.back);
          assert a.back ==> shadow[..] == old(shadow[..]);
          return;
        }
      }
      replacements[index] := 0;
      enabledCount := enabledCount - 1;
      assert replacements[..] == old(replacements[..])[index := 0];
      return Ok;
    }

    method Restore(a: Access) returns (result: Result)
      requires Valid()
      modifies this`enabledCount, instance, shadow, replacements
      ensures Valid()
      ensures (result, State()) == RestoreSpec(Home(), old(State()), a)
    {
      if enabledCount == 0 {
        return Ok;
      }
      if !a.reachable {
        return Invalid;
      }
      result := Exchange(instance, shadowAddress, originalAddress, false, Memory(a.again, true, true, None));
      if result != Ok {
        return;
      }
      for i := 0 to replacements.Length
        invariant forall j :: 0 <= j < i ==> shadow[j] == original[j] && replacements[j] == 0
        invariant instance.value == originalAddress
      {
        shadow[i] := original[i];
        replacements[i] := 0;
      }
      enabledCount := 0;
      CountZero(replacements[..]);
      assert replacements[..] == Zeros(|original|);
      assert shadow[..] == original;
    }

    method Intact(accessible: bool) returns (intact: bool)
      requires Valid()
      ensures intact == (accessible && instance.value == Resting(Count(replacements[..]), Home()))
    {
      intact := accessible && instance.value == if enabledCount == 0 then originalAddress else shadowAddress;
    }
  }

  function Resting(count: nat, t: Tables): nat {
    if count == 0 then t.original else t.shadow
  }

  /** The result, the object's cell, the replacements and the shadow table after `Enable`. */
  ghost function EnableSpec(t: Tables, v: View, index: nat, replacement: nat, a: Access): (Result, View)
    requires |v.table| == |v.replacements|
  {
    if index >= |v.replacements| || replacement == 0 || v.replacements[index] != 0 || !a.reachable then (Invalid, v)
    else
      var put := View(t.shadow, v.replacements[index := replacement], v.table[index := replacement]);
      if Count(v.replacements) == 0 then
        if !a.again then (Invalid, v) else if v.cell != t.original then (Conflict, v) else (Ok, put)
      else if v.cell != t.shadow then (Conflict, v)
      else if !a.own then (Invalid, v.(cell := Foreign(v.cell, a.foreign)))
      else (Ok, put.(cell := Foreign(v.cell, a.foreign)))
  }

  ghost function DisableSpec(t: Tables, v: View, index: nat, replacement: nat, a: Access): (Result, View)
    requires |v.table| == |v.replacements| == |t.entries|
  {
    if index >= |v.replacements| || replacement == 0 || v.replacements[index] != replacement || !a.reachable then (Invalid, v)
    else if v.cell != t.shadow then (Conflict, v)
    else
      var w := v.(cell := Foreign(v.cell, a.foreign));
      var taken := w.(replacements := v.replacements[index := 0], table := v.table[index := t.entries[index]]);
      var left := w.(table := if a.back then v.table else taken.table);
      if !a.own then (Invalid, w)
      else if v.table[index] != replacement then (Conflict, w)
      else if Count(v.replacements) != 1 then (Ok, taken)
      else if !a.again then (Invalid, left)
      else if w.cell != t.shadow then (Conflict, left)
      else (Ok, taken.(cell := t.original))
  }

  ghost function RestoreSpec(t: Tables, v: View, a: Access): (Result, View) {
    if Count(v.replacements) == 0 then (Ok, v)
    else if !a.reachable || !a.again then (Invalid, v)
    else if v.cell != t.shadow then (Conflict, v)
    else (Ok, View(t.original, Zeros(|v.replacements|), t.entries))
  }

  // ---- laws of the three operations ----

  datatype Op = Put(index: nat, replacement: nat) | Take(index: nat, replacement: nat) | Reset

  ghost function Do(t: Tables, v: View, op: Op, a: Access): (r: (Result, View))
    requires Held(t.entries, v.replacements, v.table)
    ensures Held(t.entries, r.1.replacements, r.1.table)
  {
    match op
    case Put(index, replacement) => EnableSpec(t, v, index, replacement, a)
    case Take(index, replacement) => DisableSpec(t, v, index, replacement, a)
    case Reset => RestoreSpec(t, v, a)
  }

  /** A successful operation changes its own slot and no other: enabled, it holds the replacement; disabled, the original. */
  lemma SuccessSetsSlot(t: Tables, v: View, op: Op, a: Access, i: nat)
    requires Held(t.entries, v.replacements, v.table) && Do(t, v, op, a).0 == Ok && i < |t.entries|
    ensures var after := Do(t, v, op, a).1;
      match op
      case Put(index, replacement) =>
        if i == index then after.replacements[i] == after.table[i] == replacement && replacement != 0 && v.replacements[i] == 0
        else after.replacements[i] == v.replacements[i] && after.table[i] == v.table[i]
      case Take(index, replacement) =>
        if i == index then after.replacements[i] == 0 && after.table[i] == t.entries[i] && v.replacements[i] == replacement
        else after.replacements[i] == v.replacements[i] && after.table[i] == v.table[i]
      case Reset => after.replacements[i] == 0 && after.table[i] == t.entries[i]
  {
    if op.Reset? && Count(v.replacements) == 0 {
      CountZero(v.replacements);
    }
  }

  /** Protection that cannot be put back: the swap is undone unless foreign code wrote the cell in between. */
  lemma RolledBackMeans(value: nat, expected: nat, desired: nat, m: Memory)
    requires value == expected
    ensures m.foreign.None? ==> RolledBack(value, expected, desired, m) == expected
    ensures m.foreign.Some? && m.foreign.value != desired ==> RolledBack(value, expected, desired, m) == m.foreign.value
  {
  }

  /** When an enable or a disable succeeds: the slot is as expected, memory allows it, and the object points where it should. */
  lemma SucceedsIff(t: Tables, v: View, op: Op, a: Access)
    requires Held(t.entries, v.replacements, v.table) && !op.Reset? && a.foreign.None?
    ensures Do(t, v, op, a).0 == Ok <==>
      && op.index < |t.entries| && op.replacement != 0 && a.reachable
      && v.cell == (if op.Put? && Count(v.replacements) == 0 then t.original else t.shadow)
      && v.replacements[op.index] == (if op.Put? then 0 else op.replacement)
      && (op.Take? ==> v.table[op.index] == op.replacement)
      && (!(op.Put? && Count(v.replacements) == 0) ==> a.own)
      && (Count(v.replacements) == (if op.Put? then 0 else 1) ==> a.again)
  {
  }

  /** A failed operation changes no replacement, the object only as foreign code does, and the shadow table
      only if a roll-back failed too. */
  lemma FailureChangesNothing(t: Tables, v: View, op: Op, a: Access)
    requires Held(t.entries, v.replacements, v.table) && Do(t, v, op, a).0 != Ok
    ensures var after := Do(t, v, op, a).1;
      && after.replacements == v.replacements && (after.cell == v.cell || Some(after.cell) == a.foreign)
      && (after.table != v.table ==> op.Take? && !a.back && Count(v.replacements) == 1 &&
                                     op.index < |v.table| && after.table == v.table[op.index := t.entries[op.index]])
  {
  }

  /** The slot's replacement is in force, but its entry of the shadow table is the original. */
  predicate Stranded(t: Tables, v: View, i: nat) {
    i < |v.replacements| && i < |v.table| && i < |t.entries| && v.replacements[i] != 0 && v.table[i] == t.entries[i] != v.replacements[i]
  }

  /** A disable of the last slot that fails at the object and cannot be rolled back. */
  predicate Strands(t: Tables, v: View, op: Op, a: Access, i: nat)
    requires Held(t.entries, v.replacements, v.table)
  {
    && op.Take? && op.index == i < |v.replacements| && Count(v.replacements) == 1
    && op.replacement == v.replacements[i] == v.table[i] != t.entries[i] && op.replacement != 0
    && v.cell == t.shadow && a.reachable && a.own && !a.back
    && (!a.again || Foreign(v.cell, a.foreign) != t.shadow)
  }

  /** The object is moved back to its own table. */
  predicate Resets(t: Tables, v: View, op: Op, a: Access) {
    op.Reset? && a.reachable && a.again && v.cell == t.shadow
  }

  /** No enable or disable ever frees a stranded slot; only restoring the whole object does. */
  lemma StrandedStays(t: Tables, v: View, op: Op, a: Access, i: nat)
    requires Held(t.entries, v.replacements, v.table)
    ensures Stranded(t, Do(t, v, op, a).1, i) <==> Strands(t, v, op, a, i) || (Stranded(t, v, i) && !Resets(t, v, op, a))
  {
    if Stranded(t, v, i) && op.Reset? {
      CountZero(v.replacements);
    }
  }

  /** The object's cell is written only over one of the two table addresses this hook put there. */
  lemma ForeignTableSurvives(t: Tables, v: View, op: Op, a: Access)
    requires Held(t.entries, v.replacements, v.table) && a.foreign.None? && v.cell != t.original && v.cell != t.shadow
    ensures Do(t, v, op, a).1.cell == v.cell
  {
  }

  datatype Call = Call(op: Op, a: Access)

  ghost function RunAll(t: Tables, v: View, calls: seq<Call>): (after: View)
    requires Held(t.entries, v.replacements, v.table)
    ensures Held(t.entries, after.replacements, after.table)
    decreases |calls|
  {
    if calls == [] then v else RunAll(t, Do(t, v, calls[0].op, calls[0].a).1, calls[1..])
  }

  /** Without foreign writes the object points at the table the count calls for, whatever failed. */
  lemma {:induction false} Settled(t: Tables, v: View, calls: seq<Call>)
    requires Held(t.entries, v.replacements, v.table) && forall i :: 0 <= i < |calls| ==> calls[i].a.foreign.None?
    requires v.cell == Resting(Count(v.replacements), t)
    ensures var after := RunAll(t, v, calls); after.cell == Resting(Count(after.replacements), t)
    decreases |calls|
  {
    if calls != [] {
      var next := Do(t, v, calls[0].op, calls[0].a).1;
      match calls[0].op {
        case Put(index, replacement) => if index < |v.replacements| { CountUpdated(v.replacements, index, replacement); }
        case Take(index, replacement) => if index < |v.replacements| { CountUpdated(v.replacements, index, 0); }
        case Reset => CountZero(next.replacements);
      }
      Settled(t, next, calls[1..]);
    }
  }

  /** While roll-backs succeed, the shadow table holds the replacements in force and the originals elsewhere. */
  lemma {:induction false} TableFollows(t: Tables, v: View, calls: seq<Call>)
    requires Held(t.entries, v.replacements, v.table) && forall i :: 0 <= i < |calls| ==> calls[i].a.back
    requires v.table == Shadow(t.entries, v.replacements)
    ensures var after := RunAll(t, v, calls); after.table == Shadow(t.entries, after.replacements)
    decreases |calls|
  {
    if calls != [] {
      var next := Do(t, v, calls[0].op, calls[0].a).1;
      assert next.table == Shadow(t.entries, next.replacements);
      TableFollows(t, next, calls[1..]);
    }
  }

  /** Enables that succeeded less disables that succeeded. */
  ghost function Balance(t: Tables, v: View, calls: seq<Call>): int
    requires Held(t.entries, v.replacements, v.table)
    decreases |calls|
  {
    if calls == [] then 0
    else
      var done := Do(t, v, calls[0].op, calls[0].a);
      (if done.0 != Ok then 0 else if calls[0].op.Put? then 1 else if calls[0].op.Take? then -1 else 0)
      + Balance(t, done.1, calls[1..])
  }

  lemma {:induction false} BalanceCounts(t: Tables, v: View, calls: seq<Call>)
    requires Held(t.entries, v.replacements, v.table) && forall i :: 0 <= i < |calls| ==> !calls[i].op.Reset?
    ensures Count(RunAll(t, v, calls).replacements) == Count(v.replacements) + Balance(t, v, calls)
    decreases |calls|
  {
    if calls != [] {
      match calls[0].op {
        case Put(index, replacement) => if index < |v.replacements| { CountUpdated(v.replacements, index, replacement); }
        case Take(index, replacement) => if index < |v.replacements| { CountUpdated(v.replacements, index, 0); }
      }
      BalanceCounts(t, Do(t, v, calls[0].op, calls[0].a).1, calls[1..]);
    }
  }

  /** Once every enabled slot was disabled again, in any order, the object and the shadow are as at first. */
  lemma RoundTrip(t: Tables, calls: seq<Call>)
    requires forall i :: 0 <= i < |calls| ==> !calls[i].op.Reset? && calls[i].a.foreign.None?
    ensures var start := View(t.original, Zeros(|t.entries|), t.entries);
      Balance(t, start, calls) == 0 ==> RunAll(t, start, calls) == start
  {
    var start := View(t.original, Zeros(|t.entries|), t.entries);
    var after := RunAll(t, start, calls);
    CountZero(start.replacements);
    CountZero(after.replacements);
    Settled(t, start, calls);
    BalanceCounts(t, start, calls);
    if Balance(t, start, calls) == 0 {
      assert after.replacements == start.replacements && after.table == start.table;
    }
  }
}
