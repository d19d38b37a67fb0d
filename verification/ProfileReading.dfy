/**
  Which texts are profiles, and of what: each record names one item or one scalar of the profile, each scalar is
  named once, nothing else is said, and the profile is well formed.
 */
module ProfileReading {
  import opened Numerals
  import opened Options
  import opened Profiles
  import opened RecordReading
  import RecordText

  const KINDS: set<string> := {"module", "interface", "slot", "pattern"}

  /** The records with the name, in order. */
  function OfKind(rs: seq<Record>, name: string): seq<Record> {
    if rs == [] then [] else (if rs[0] != [] && rs[0][0] == name then [rs[0]] else []) + OfKind(rs[1..], name)
  }

  ghost predicate Named(rs: seq<Record>) {
    forall k :: 0 <= k < |rs| ==> rs[k] != [] && rs[k][0] in SCALARS + KINDS
  }

  // ---- what a record says ----

  ghost predicate SaysModule(r: Record, m: Module) {
    && |r| == 5 && r[..3] == ["module", m.role, m.name]
    && m.size <= MAX64 && Numeral(r[3], m.size)
    && m.hash <= MAX64 && |r[4]| == 16 && Lowered(r[4]) == Hex64(m.hash)
  }

  ghost predicate SaysInterface(r: Record, i: Interface) {
    r == ["interface", i.key, i.name, i.host]
  }

  ghost predicate SaysSlot(r: Record, s: Slot) {
    |r| == 4 && r[..3] == ["slot", s.of, s.member] && s.index <= MAX32 && Numeral(r[3], s.index)
  }

  ghost predicate SaysPattern(r: Record, e: Expression) {
    && |r| == 7 && r[..4] == ["pattern", e.key, e.host, e.text]
    && e.occurrence <= MAX32 && Numeral(r[4], e.occurrence)
    && e.count <= MAX32 && Numeral(r[5], e.count)
    && e.offset <= MAX64 && Numeral(r[6], e.offset)
  }

  /** One item for each record, in order. */
  ghost predicate SayAll<T(!new)>(rs: seq<Record>, xs: seq<T>, says: (Record, T) -> bool) {
    if rs == [] then xs == [] else xs != [] && says(rs[0], xs[0]) && SayAll(rs[1..], xs[1..], says)
  }

  ghost predicate Describe(rs: seq<Record>, p: Profile) {
    && Named(rs)
    && (forall n :: n in SCALARS ==> OfKind(rs, n) == [[n, ScalarMap(p)[n]]])
    && SayAll(OfKind(rs, "module"), p.modules, SaysModule)
    && SayAll(OfKind(rs, "interface"), p.interfaces, SaysInterface)
    && SayAll(OfKind(rs, "slot"), p.slots, SaysSlot)
    && SayAll(OfKind(rs, "pattern"), p.patterns, SaysPattern)
  }

  // ---- one record ----

  lemma ModuleTaken(d: Draft, r: Record) returns (x: Option<Module>)
    requires r != [] && r[0] == "module"
    ensures forall y :: SaysModule(r, y) <==> x == Some(y)
    ensures Take(d, r) == if x.Some? then d.(modules := d.modules + [x.value]) else d.(fine := false)
  {
    x := None;
    if |r| == 5 {
      if ParseUnsigned(r[3], MAX64).Some? && ParseHex64(r[4]).Some? {
        x := Some(Module(r[1], r[2], ParseUnsigned(r[3], MAX64).value, ParseHex64(r[4]).value));
        HexBounded(r[4]);
      }
      forall y: Module
        ensures SaysModule(r, y) <==> x == Some(y)
      {
        NumeralReads(r[3], MAX64, y.size);
        if y.hash <= MAX64 {
          HexNumeralReads(r[4], y.hash);
        }
        assert r[..3] == [r[0], r[1], r[2]];
      }
    }
  }

  lemma HexBounded(s: string)
    requires ParseHex64(s).Some?
    ensures ParseHex64(s).value <= MAX64
  {
    HexDigitsRead(s);
    Power16Is();
  }

  lemma InterfaceTaken(d: Draft, r: Record) returns (x: Option<Interface>)
    requires r != [] && r[0] == "interface"
    ensures forall y :: SaysInterface(r, y) <==> x == Some(y)
    ensures Take(d, r) == if x.Some? then d.(interfaces := d.interfaces + [x.value]) else d.(fine := false)
  {
    x := if |r| == 4 then Some(Interface(r[1], r[2], r[3])) else None;
  }

  lemma SlotTaken(d: Draft, r: Record) returns (x: Option<Slot>)
    requires r != [] && r[0] == "slot"
    ensures forall y :: SaysSlot(r, y) <==> x == Some(y)
    ensures Take(d, r) == if x.Some? then d.(slots := d.slots + [x.value]) else d.(fine := false)
  {
    x := None;
    if |r| == 4 {
      if ParseUnsigned(r[3], MAX32).Some? {
        x := Some(Slot(r[1], r[2], ParseUnsigned(r[3], MAX32).value));
      }
      forall y: Slot
        ensures SaysSlot(r, y) <==> x == Some(y)
      {
        NumeralReads(r[3], MAX32, y.index);
        assert r[..3] == [r[0], r[1], r[2]];
      }
    }
  }

  lemma PatternTaken(d: Draft, r: Record) returns (x: Option<Expression>)
    requires r != [] && r[0] == "pattern"
    ensures forall y :: SaysPattern(r, y) <==> x == Some(y)
    ensures Take(d, r) == if x.Some? then d.(patterns := d.patterns + [x.value]) else d.(fine := false)
  {
    x := None;
    if |r| == 7 {
      var a, b, c := ParseUnsigned(r[4], MAX32), ParseUnsigned(r[5], MAX32), ParseUnsigned(r[6], MAX64);
      if a.Some? && b.Some? && c.Some? {
        x := Some(Expression(r[1], r[2], r[3], a.value, b.value, c.value));
      }
      forall y: Expression
        ensures SaysPattern(r, y) <==> x == Some(y)
      {
        NumeralReads(r[4], MAX32, y.occurrence);
        NumeralReads(r[5], MAX32, y.count);
        NumeralReads(r[6], MAX64, y.offset);
        assert r[..4] == [r[0], r[1], r[2], r[3]];
      }
    }
  }

  // ---- what is left to be said, once `d` is known, so that `q` comes out ----

  ghost predicate Left<T(!new)>(d: seq<T>, q: seq<T>, rs: seq<Record>, says: (Record, T) -> bool) {
    d <= q && SayAll(rs, q[|d|..], says)
  }

  lemma LeftTake<T(!new)>(d: seq<T>, q: seq<T>, r: Record, rs: seq<Record>, says: (Record, T) -> bool, x: Option<T>)
    requires forall y :: says(r, y) <==> x == Some(y)
    ensures Left(d, q, [r] + rs, says) <==> x.Some? && Left(d + [x.value], q, rs, says)
  {
    assert ([r] + rs)[1..] == rs;
    if d <= q && |d| < |q| {
      assert q[|d|..][1..] == q[|d| + 1..] && q[|d|..][0] == q[|d|];
      assert x == Some(q[|d|]) ==> q[..|d| + 1] == d + [q[|d|]];
    }
    if x.Some? && d + [x.value] <= q {
      assert q[..|d| + 1] == d + [x.value] && q[|d|] == x.value;
      assert q[..|d|] == (d + [x.value])[..|d|];
    }
  }

  ghost predicate ScalarLeft(d: map<string, string>, q: map<string, string>, rs: seq<Record>, n: string) {
    if n in d then n in q && q[n] == d[n] && rs == [] else rs == if n in q then [[n, q[n]]] else []
  }

  ghost predicate AllLeft(d: Draft, rs: seq<Record>, q: Draft) {
    && Named(rs)
    && ScalarsLeft(d.scalars, q.scalars, rs)
    && Left(d.modules, q.modules, OfKind(rs, "module"), SaysModule)
    && Left(d.interfaces, q.interfaces, OfKind(rs, "interface"), SaysInterface)
    && Left(d.slots, q.slots, OfKind(rs, "slot"), SaysSlot)
    && Left(d.patterns, q.patterns, OfKind(rs, "pattern"), SaysPattern)
  }

  lemma KindStep(r: Record, rs: seq<Record>, name: string)
    ensures OfKind([r] + rs, name) == if r != [] && r[0] == name then [r] + OfKind(rs, name) else OfKind(rs, name)
    ensures Named([r] + rs) <==> r != [] && r[0] in SCALARS + KINDS && Named(rs)
  {
    assert ([r] + rs)[1..] == rs;
    assert [] + OfKind(rs, name) == OfKind(rs, name);
    if Named([r] + rs) {
      assert forall k :: 0 <= k < |rs| ==> rs[k] == ([r] + rs)[k + 1];
    }
  }

  lemma ScalarStep(d: Draft, r: Record, rs: seq<Record>, q: Draft, n: string)
    requires r != [] && r[0] in SCALARS && n in SCALARS && Take(d, r).fine && d.fine
    ensures ScalarLeft(d.scalars, q.scalars, OfKind([r] + rs, n), n) <==> ScalarLeft(Take(d, r).scalars, q.scalars, OfKind(rs, n), n)
  {
    KindStep(r, rs, n);
    if n == r[0] {
      assert r == [n, r[1]];
      assert [r] + OfKind(rs, n) == [r] <==> OfKind(rs, n) == [];
    }
  }

  lemma KindSteps(r: Record, rs: seq<Record>)
    ensures Named([r] + rs) <==> r != [] && r[0] in SCALARS + KINDS && Named(rs)
    ensures forall n :: OfKind([r] + rs, n) == if r != [] && r[0] == n then [r] + OfKind(rs, n) else OfKind(rs, n)
  {
    KindStep(r, rs, "");
    forall n: string
      ensures OfKind([r] + rs, n) == if r != [] && r[0] == n then [r] + OfKind(rs, n) else OfKind(rs, n)
    {
      KindStep(r, rs, n);
    }
  }

  ghost predicate ScalarsLeft(d: map<string, string>, q: map<string, string>, rs: seq<Record>) {
    forall n :: n in SCALARS ==> ScalarLeft(d, q, OfKind(rs, n), n)
  }

  lemma ScalarsSame(d: map<string, string>, q: map<string, string>, r: Record, rs: seq<Record>)
    requires r != [] && r[0] !in SCALARS
    ensures ScalarsLeft(d, q, [r] + rs) <==> ScalarsLeft(d, q, rs)
  {
    KindSteps(r, rs);
  }

  /** A record that is no scalar: what it leaves of the scalars and of the other lists is the same. */
  lemma OthersSame(r: Record, rs: seq<Record>, name: string)
    requires r != [] && r[0] in KINDS
    ensures Named([r] + rs) <==> Named(rs)
    ensures OfKind([r] + rs, name) == if r[0] == name then [r] + OfKind(rs, name) else OfKind(rs, name)
  {
    KindStep(r, rs, name);
  }

  lemma KindsDiffer()
    ensures KINDS !! SCALARS
    ensures "module" != "interface" && "module" != "slot" && "module" != "pattern"
    ensures "interface" != "slot" && "interface" != "pattern" && "slot" != "pattern"
  {
  }

  // One record read: what was left to be said is that record and what is left then.

  lemma ModuleStep(d: Draft, r: Record, rs: seq<Record>, q: Draft)
    requires d.fine && r != [] && r[0] == "module"
    ensures AllLeft(d, [r] + rs, q) <==> Take(d, r).fine && AllLeft(Take(d, r), rs, q)
  {
    KindsDiffer();
    ScalarsSame(d.scalars, q.scalars, r, rs);
    OthersSame(r, rs, "module");
    OthersSame(r, rs, "interface");
    OthersSame(r, rs, "slot");
    OthersSame(r, rs, "pattern");
    var x := ModuleTaken(d, r);
    LeftTake(d.modules, q.modules, r, OfKind(rs, "module"), SaysModule, x);
  }

  lemma InterfaceStep(d: Draft, r: Record, rs: seq<Record>, q: Draft)
    requires d.fine && r != [] && r[0] == "interface"
    ensures AllLeft(d, [r] + rs, q) <==> Take(d, r).fine && AllLeft(Take(d, r), rs, q)
  {
    KindsDiffer();
    ScalarsSame(d.scalars, q.scalars, r, rs);
    OthersSame(r, rs, "module");
    OthersSame(r, rs, "interface");
    OthersSame(r, rs, "slot");
    OthersSame(r, rs, "pattern");
    var x := InterfaceTaken(d, r);
    LeftTake(d.interfaces, q.interfaces, r, OfKind(rs, "interface"), SaysInterface, x);
  }

  lemma SlotStep(d: Draft, r: Record, rs: seq<Record>, q: Draft)
    requires d.fine && r != [] && r[0] == "slot"
    ensures AllLeft(d, [r] + rs, q) <==> Take(d, r).fine && AllLeft(Take(d, r), rs, q)
  {
    KindsDiffer();
    ScalarsSame(d.scalars, q.scalars, r, rs);
    OthersSame(r, rs, "module");
    OthersSame(r, rs, "interface");
    OthersSame(r, rs, "slot");
    OthersSame(r, rs, "pattern");
    var x := SlotTaken(d, r);
    LeftTake(d.slots, q.slots, r, OfKind(rs, "slot"), SaysSlot, x);
  }

  lemma PatternStep(d: Draft, r: Record, rs: seq<Record>, q: Draft)
    requires d.fine && r != [] && r[0] == "pattern"
    ensures AllLeft(d, [r] + rs, q) <==> Take(d, r).fine && AllLeft(Take(d, r), rs, q)
  {
    KindsDiffer();
    ScalarsSame(d.scalars, q.scalars, r, rs);
    OthersSame(r, rs, "module");
    OthersSame(r, rs, "interface");
    OthersSame(r, rs, "slot");
    OthersSame(r, rs, "pattern");
    var x := PatternTaken(d, r);
    LeftTake(d.patterns, q.patterns, r, OfKind(rs, "pattern"), SaysPattern, x);
  }

  lemma ScalarsStep(d: Draft, r: Record, rs: seq<Record>, q: Draft)
    requires d.fine && r != [] && r[0] in SCALARS
    ensures ScalarsLeft(d.scalars, q.scalars, [r] + rs) <==> Take(d, r).fine && ScalarsLeft(Take(d, r).scalars, q.scalars, rs)
  {
    if Take(d, r).fine {
      forall n | n in SCALARS
        ensures ScalarLeft(d.scalars, q.scalars, OfKind([r] + rs, n), n) <==> ScalarLeft(Take(d, r).scalars, q.scalars, OfKind(rs, n), n)
      {
        ScalarStep(d, r, rs, q, n);
      }
    } else {
      KindStep(r, rs, r[0]);
      assert OfKind([r] + rs, r[0])[0] == r;
      assert !ScalarLeft(d.scalars, q.scalars, OfKind([r] + rs, r[0]), r[0]);
    }
  }

  lemma ScalarRecordStep(d: Draft, r: Record, rs: seq<Record>, q: Draft)
    requires d.fine && r != [] && r[0] in SCALARS
    ensures AllLeft(d, [r] + rs, q) <==> Take(d, r).fine && AllLeft(Take(d, r), rs, q)
  {
    KindsDiffer();
    ScalarsStep(d, r, rs, q);
    KindStep(r, rs, "module");
    KindStep(r, rs, "interface");
    KindStep(r, rs, "slot");
    KindStep(r, rs, "pattern");
  }

  lemma {:induction false} WrongStays(d: Draft, rs: seq<Record>)
    requires !d.fine
    ensures !TakeAll(d, rs).fine
    decreases |rs|
  {
    if rs != [] {
      WrongStays(Take(d, rs[0]), rs[1..]);
    }
  }

  /** Reading ends at `q` exactly when the records say what `d` lacks of it. */
  lemma {:induction false} TakesIs(d: Draft, rs: seq<Record>, q: Draft)
    requires d.fine && q.fine && d.scalars.Keys <= SCALARS && q.scalars.Keys <= SCALARS
    ensures TakeAll(d, rs) == q <==> AllLeft(d, rs, q)
    decreases |rs|
  {
    if rs == [] {
      NothingLeft(d, q);
    } else {
      var r, rest := rs[0], rs[1..];
      assert rs == [r] + rest;
      if r == [] || r[0] !in SCALARS + KINDS {
        WrongStays(Take(d, r), rest);
      } else {
        if r[0] in SCALARS {
          ScalarRecordStep(d, r, rest, q);
        } else if r[0] == "module" {
          ModuleStep(d, r, rest, q);
        } else if r[0] == "interface" {
          InterfaceStep(d, r, rest, q);
        } else if r[0] == "slot" {
          SlotStep(d, r, rest, q);
        } else {
          PatternStep(d, r, rest, q);
        }
        if Take(d, r).fine {
          TakesIs(Take(d, r), rest, q);
        } else {
          WrongStays(Take(d, r), rest);
        }
      }
    }
  }

  lemma NothingLeft(d: Draft, q: Draft)
    requires d.fine && q.fine && d.scalars.Keys <= SCALARS && q.scalars.Keys <= SCALARS
    ensures d == q <==> AllLeft(d, [], q)
  {
    if AllLeft(d, [], q) {
      forall n | n in d.scalars || n in q.scalars
        ensures n in d.scalars && n in q.scalars && d.scalars[n] == q.scalars[n]
      {
        assert ScalarLeft(d.scalars, q.scalars, OfKind([], n), n);
      }
      assert d.scalars == q.scalars;
      Whole(d.modules, q.modules);
      Whole(d.interfaces, q.interfaces);
      Whole(d.slots, q.slots);
      Whole(d.patterns, q.patterns);
    }
  }

  lemma Whole<T>(a: seq<T>, b: seq<T>)
    requires a <= b && b[|a|..] == []
    ensures a == b
  {
  }

  // ---- the whole text ----

  function DraftOf(p: Profile): Draft {
    Draft(ScalarMap(p), p.modules, p.interfaces, p.slots, p.patterns, true)
  }

  lemma {:induction false} KeysKept(d: Draft, rs: seq<Record>)
    requires d.scalars.Keys <= SCALARS
    ensures TakeAll(d, rs).scalars.Keys <= SCALARS
    decreases |rs|
  {
    if rs != [] {
      KeysKept(Take(d, rs[0]), rs[1..]);
    }
  }

  lemma FinishIs(d: Draft, p: Profile)
    requires d.scalars.Keys <= SCALARS
    ensures Finish(d) == Some(p) <==> d == DraftOf(p) && WellFormed(p)
  {
    if Finish(d) == Some(p) {
      assert d.scalars == ScalarMap(p);
    }
  }

  lemma DescribeIs(rs: seq<Record>, p: Profile)
    ensures Finish(TakeAll(Blank, rs)) == Some(p) <==> Describe(rs, p) && WellFormed(p)
  {
    KeysKept(Blank, rs);
    FinishIs(TakeAll(Blank, rs), p);
    TakesIs(Blank, rs, DraftOf(p));
    assert forall n :: n in SCALARS ==> n in ScalarMap(p) && n !in Blank.scalars;
    assert p.modules[0..] == p.modules && p.interfaces[0..] == p.interfaces && p.slots[0..] == p.slots && p.patterns[0..] == p.patterns;
  }

  /** The lines of the text that count are the header and the records written out. */
  ghost predicate Spells(text: string, rs: seq<Record>) {
    var lines := Kept(RecordText.Lines(text));
    lines != [] && lines[0] == HEADER && Spell(lines[1..], rs)
  }

  /** A text is read as a profile exactly when it spells records that say this profile, and it is well formed. */
  lemma ParseIs(text: string, p: Profile)
    ensures Parse(text) == Some(p) <==> WellFormed(p) && exists rs :: Spells(text, rs) && Describe(rs, p)
  {
    forall rs: seq<Record>
      ensures RecordText.Read(text, HEADER) == Some(rs) <==> Spells(text, rs)
    {
      ReadIs(text, HEADER, rs);
    }
    forall rs: seq<Record>
      ensures Finish(TakeAll(Blank, rs)) == Some(p) <==> Describe(rs, p) && WellFormed(p)
    {
      DescribeIs(rs, p);
    }
  }
}
