/**
  Compatibility profiles: what makes one well formed, the text it is written as, and reading it back.
 */
module Profiles {
  import opened Numerals
  import opened Options
  import opened PatternText
  import opened Sorting
  import RecordText

  type Record = RecordText.Record

  const HEADER: string := "keels2-compatibility-profile\t1"

  datatype Module = Module(role: string, name: string, size: nat, hash: nat)
  datatype Interface = Interface(key: string, name: string, host: string)
  datatype Slot = Slot(of: string, member: string, index: nat)
  datatype Expression = Expression(key: string, host: string, text: string, occurrence: nat, count: nat, offset: nat)

  datatype Profile = Profile(
    accepted: bool, game: string, version: string, platform: string,
    modules: seq<Module>, interfaces: seq<Interface>, slots: seq<Slot>, patterns: seq<Expression>)

  function ModuleKey(m: Module): seq<string> { [m.role] }
  function InterfaceKey(i: Interface): seq<string> { [i.key] }
  function SlotKey(s: Slot): seq<string> { [s.of, s.member] }
  function PatternKey(e: Expression): seq<string> { [e.key] }

  /** The numbers fit their machine types. */
  ghost predicate InRange(p: Profile) {
    && (forall m :: m in p.modules ==> m.size <= MAX64 && m.hash <= MAX64)
    && (forall s :: s in p.slots ==> s.index <= MAX32)
    && (forall e :: e in p.patterns ==> e.occurrence <= MAX32 && e.count <= MAX32 && e.offset <= MAX64)
  }

  // ---- structure ----

  predicate HasRole(modules: seq<Module>, role: string) {
    exists i :: 0 <= i < |modules| && modules[i].role == role
  }

  predicate HasInterface(interfaces: seq<Interface>, key: string) {
    exists i :: 0 <= i < |interfaces| && interfaces[i].key == key
  }

  predicate ModuleFine(m: Module) {
    RecordText.ValidToken(m.role) && m.name != "" && RecordText.PlainText(m.name) && m.size != 0
  }

  predicate InterfaceFine(modules: seq<Module>, i: Interface) {
    RecordText.ValidToken(i.key) && RecordText.ValidToken(i.name) && HasRole(modules, i.host)
  }

  predicate SlotFine(interfaces: seq<Interface>, s: Slot) {
    RecordText.ValidToken(s.of) && RecordText.ValidToken(s.member) && HasInterface(interfaces, s.of)
  }

  /** The expression is a pattern in normal form, and the occurrence asked for exists. */
  predicate PatternFine(modules: seq<Module>, e: Expression) {
    && RecordText.ValidToken(e.key) && HasRole(modules, e.host) && Normal(e.text)
    && e.count != 0 && (e.occurrence == 0 || e.occurrence <= e.count)
  }

  predicate Normal(text: string) {
    var p := ParseTool(text);
    p.Some? && Print(p.value) == text
  }

  ghost predicate WellFormed(p: Profile) {
    && RecordText.ValidToken(p.game) && RecordText.ValidToken(p.version) && RecordText.ValidToken(p.platform)
    && (forall m :: m in p.modules ==> ModuleFine(m)) && DistinctKeys(p.modules, ModuleKey)
    && (forall i :: i in p.interfaces ==> InterfaceFine(p.modules, i)) && DistinctKeys(p.interfaces, InterfaceKey)
    && (forall s :: s in p.slots ==> SlotFine(p.interfaces, s)) && DistinctKeys(p.slots, SlotKey)
    && (forall e :: e in p.patterns ==> PatternFine(p.modules, e)) && DistinctKeys(p.patterns, PatternKey)
  }

  // ---- writing ----

  function ModuleRecord(m: Module): Record {
    ["module", m.role, m.name, Decimal(m.size), Hex64(m.hash)]
  }

  function InterfaceRecord(i: Interface): Record {
    ["interface", i.key, i.name, i.host]
  }

  function SlotRecord(s: Slot): Record {
    ["slot", s.of, s.member, Decimal(s.index)]
  }

  function PatternRecord(e: Expression): Record {
    ["pattern", e.key, e.host, e.text, Decimal(e.occurrence), Decimal(e.count), Decimal(e.offset)]
  }

  function Mapped<T>(xs: seq<T>, f: T -> Record): (rs: seq<Record>)
    ensures |rs| == |xs| && forall i :: 0 <= i < |xs| ==> rs[i] == f(xs[i])
  {
    seq(|xs|, i requires 0 <= i < |xs| => f(xs[i]))
  }

  function Scalars(p: Profile): seq<Record> {
    [["status", if p.accepted then "accepted" else "candidate-untrusted"],
     ["review", if p.accepted then "complete" else "required"],
     ["game", p.game], ["version", p.version], ["platform", p.platform]]
  }

  function SortedProfile(p: Profile): Profile {
    p.(modules := SortBy(p.modules, ModuleKey), interfaces := SortBy(p.interfaces, InterfaceKey),
       slots := SortBy(p.slots, SlotKey), patterns := SortBy(p.patterns, PatternKey))
  }

  function Items(p: Profile): seq<Record> {
    Mapped(p.modules, ModuleRecord) + (Mapped(p.interfaces, InterfaceRecord)
      + (Mapped(p.slots, SlotRecord) + Mapped(p.patterns, PatternRecord)))
  }

  /** The records of a profile, each list sorted by its key. */
  function Records(p: Profile): seq<Record> {
    Scalars(p) + Items(SortedProfile(p))
  }

  function Text(p: Profile): string {
    RecordText.Write(HEADER, Records(p))
  }

  // ---- reading ----

  /** What was read so far; `fine` is false once a record was wrong. */
  datatype Draft = Draft(
    scalars: map<string, string>, modules: seq<Module>, interfaces: seq<Interface>, slots: seq<Slot>,
    patterns: seq<Expression>, fine: bool)

  const Blank: Draft := Draft(map[], [], [], [], [], true)

  const SCALARS: set<string> := {"status", "review", "game", "version", "platform"}

  function Take(d: Draft, r: Record): Draft {
    if r == [] then d.(fine := false)
    else if r[0] in SCALARS then
      if |r| != 2 || r[0] in d.scalars then d.(fine := false) else d.(scalars := d.scalars[r[0] := r[1]])
    else if r[0] == "module" then TakeModule(d, r)
    else if r[0] == "interface" then
      if |r| != 4 then d.(fine := false) else d.(interfaces := d.interfaces + [Interface(r[1], r[2], r[3])])
    else if r[0] == "slot" then
      if |r| != 4 || ParseUnsigned(r[3], MAX32).None? then d.(fine := false)
      else d.(slots := d.slots + [Slot(r[1], r[2], ParseUnsigned(r[3], MAX32).value)])
    else if r[0] == "pattern" then TakePattern(d, r)
    else d.(fine := false)
  }

  function TakeModule(d: Draft, r: Record): Draft {
    if |r| != 5 || ParseUnsigned(r[3], MAX64).None? || ParseHex64(r[4]).None? then d.(fine := false)
    else d.(modules := d.modules + [Module(r[1], r[2], ParseUnsigned(r[3], MAX64).value, ParseHex64(r[4]).value)])
  }

  function TakePattern(d: Draft, r: Record): Draft {
    if |r| != 7 || ParseUnsigned(r[4], MAX32).None? || ParseUnsigned(r[5], MAX32).None? || ParseUnsigned(r[6], MAX64).None? then
      d.(fine := false)
    else
      d.(patterns := d.patterns + [Expression(r[1], r[2], r[3], ParseUnsigned(r[4], MAX32).value,
                                              ParseUnsigned(r[5], MAX32).value, ParseUnsigned(r[6], MAX64).value)])
  }

  function Fold<S, R>(step: (S, R) -> S, d: S, rs: seq<R>): S
    decreases |rs|
  {
    if rs == [] then d else Fold(step, step(d, rs[0]), rs[1..])
  }

  function TakeAll(d: Draft, rs: seq<Record>): Draft {
    Fold(Take, d, rs)
  }

  /** The two scalars that say how far the profile is trusted. */
  function Trust(d: Draft): Option<bool> {
    if "status" !in d.scalars || "review" !in d.scalars then None
    else if d.scalars["status"] == "accepted" && d.scalars["review"] == "complete" then Some(true)
    else if d.scalars["status"] == "candidate-untrusted" && d.scalars["review"] == "required" then Some(false)
    else None
  }

  ghost function Finish(d: Draft): Option<Profile> {
    if !d.fine || Trust(d).None? || !({"game", "version", "platform"} <= d.scalars.Keys) then None
    else
      var p := Profile(Trust(d).value, d.scalars["game"], d.scalars["version"], d.scalars["platform"],
                       d.modules, d.interfaces, d.slots, d.patterns);
      if WellFormed(p) then Some(p) else None
  }

  ghost function Parse(text: string): Option<Profile> {
    var records := RecordText.Read(text, HEADER);
    if records.None? then None else Finish(TakeAll(Blank, records.value))
  }

  // ---- what is written can be read ----

  lemma DecimalPlain(n: nat, max: nat)
    requires n <= max <= MAX64
    ensures RecordText.PlainText(Decimal(n)) && ParseUnsigned(Decimal(n), max) == Some(n)
  {
    DecimalReads(n, max);
    DecimalShort(n);
  }

  function Power10(k: nat): nat {
    if k == 0 then 1 else 10 * Power10(k - 1)
  }

  lemma DecimalShort(n: nat)
    requires n <= MAX64
    ensures |Decimal(n)| <= 20
  {
    assert Power10(5) == 100_000;
    assert Power10(10) == 100_000 * Power10(5);
    assert Power10(15) == 100_000 * Power10(10);
    assert Power10(20) == 100_000 * Power10(15);
    DecimalLength(n, 20);
  }

  lemma {:induction false} DecimalLength(n: nat, k: nat)
    requires k > 0 && n < Power10(k)
    ensures |Decimal(n)| <= k
  {
    if n >= 10 {
      assert k > 1 by { assert Power10(1) == 10 * Power10(0); }
      DecimalLength(n / 10, k - 1);
    }
  }

  lemma HexPlainText(n: nat)
    requires n <= MAX64
    ensures RecordText.PlainText(Hex64(n)) && ParseHex64(Hex64(n)) == Some(n)
  {
    Hex64Reads(n);
    forall i | 0 <= i < 16
      ensures Hex64(n)[i] as int >= 32 && Hex64(n)[i] as int != 127
    {
      HexPlain(n, 16, i);
    }
  }

  lemma {:induction false} PrintPlain(p: Pattern)
    ensures |Print(p)| <= 3 * |p| && forall i :: 0 <= i < |Print(p)| ==> Print(p)[i] as int >= 32 && Print(p)[i] as int != 127
  {
    if p != [] {
      PrintPlain(p[..|p| - 1]);
    }
  }

  lemma {:induction false} ReadToolBounded(tokens: seq<string>, done: Pattern)
    requires |done| <= MAX_PATTERN
    ensures ReadTool(tokens, done).Some? ==> |ReadTool(tokens, done).value| <= MAX_PATTERN
  {
    if tokens != [] && PatternText.Read(tokens[0]).Some? && |done| < MAX_PATTERN {
      ReadToolBounded(tokens[1..], done + [PatternText.Read(tokens[0]).value]);
    }
  }

  lemma NormalPlain(text: string)
    requires Normal(text)
    ensures RecordText.PlainText(text)
  {
    ReadToolBounded(Tokens(text, 0), []);
    PrintPlain(ParseTool(text).value);
  }

  lemma ModuleClean(m: Module)
    requires ModuleFine(m) && m.size <= MAX64 && m.hash <= MAX64
    ensures RecordText.Clean(ModuleRecord(m))
  {
    DecimalPlain(m.size, MAX64);
    HexPlainText(m.hash);
  }

  lemma ModuleTakes(m: Module, d: Draft)
    requires m.size <= MAX64 && m.hash <= MAX64
    ensures Take(d, ModuleRecord(m)) == d.(modules := d.modules + [m])
  {
    DecimalReads(m.size, MAX64);
    Hex64Reads(m.hash);
  }

  lemma HostPlain(modules: seq<Module>, host: string)
    requires HasRole(modules, host) && forall m :: m in modules ==> ModuleFine(m)
    ensures RecordText.PlainText(host)
  {
    var k :| 0 <= k < |modules| && modules[k].role == host;
    assert ModuleFine(modules[k]);
  }

  lemma InterfaceClean(modules: seq<Module>, i: Interface)
    requires InterfaceFine(modules, i) && forall m :: m in modules ==> ModuleFine(m)
    ensures RecordText.Clean(InterfaceRecord(i))
  {
    HostPlain(modules, i.host);
  }

  lemma SlotClean(interfaces: seq<Interface>, s: Slot)
    requires SlotFine(interfaces, s) && s.index <= MAX32
    ensures RecordText.Clean(SlotRecord(s))
  {
    DecimalPlain(s.index, MAX32);
  }

  lemma SlotTakes(s: Slot, d: Draft)
    requires s.index <= MAX32
    ensures Take(d, SlotRecord(s)) == d.(slots := d.slots + [s])
  {
    DecimalReads(s.index, MAX32);
  }

  lemma PatternPlain(modules: seq<Module>, e: Expression)
    requires PatternFine(modules, e) && forall m :: m in modules ==> ModuleFine(m)
    ensures RecordText.PlainText(e.key) && RecordText.PlainText(e.host) && RecordText.PlainText(e.text)
  {
    HostPlain(modules, e.host);
    NormalPlain(e.text);
    TokenPlain(e.key);
  }

  lemma PatternClean(e: Expression)
    requires RecordText.PlainText(e.key) && RecordText.PlainText(e.host) && RecordText.PlainText(e.text)
    requires e.occurrence <= MAX32 && e.count <= MAX32 && e.offset <= MAX64
    ensures RecordText.Clean(PatternRecord(e))
  {
    DecimalPlain(e.occurrence, MAX32);
    DecimalPlain(e.count, MAX32);
    DecimalPlain(e.offset, MAX64);
    SevenClean(PatternRecord(e));
  }

  lemma TokenPlain(s: string)
    requires RecordText.ValidToken(s)
    ensures RecordText.PlainText(s)
  {
  }

  lemma SevenClean(r: Record)
    requires |r| == 7 && r[0] == "pattern" && RecordText.PlainText(r[1]) && RecordText.PlainText(r[2]) && RecordText.PlainText(r[3])
    requires RecordText.PlainText(r[4]) && RecordText.PlainText(r[5]) && RecordText.PlainText(r[6])
    ensures RecordText.Clean(r)
  {
  }

  lemma PatternTakes(e: Expression, d: Draft)
    requires e.occurrence <= MAX32 && e.count <= MAX32 && e.offset <= MAX64
    ensures Take(d, PatternRecord(e)) == d.(patterns := d.patterns + [e])
  {
    DecimalReads(e.occurrence, MAX32);
    DecimalReads(e.count, MAX32);
    DecimalReads(e.offset, MAX64);
    assert Take(d, PatternRecord(e)) == TakePattern(d, PatternRecord(e));
  }

  // ---- whole lists ----

  lemma {:induction false} FoldAppend<S, R>(step: (S, R) -> S, d: S, a: seq<R>, b: seq<R>)
    ensures Fold(step, d, a + b) == Fold(step, Fold(step, d, a), b)
    decreases |a|
  {
    if a == [] {
      assert a + b == b;
    } else {
      assert (a + b)[1..] == a[1..] + b;
      FoldAppend(step, step(d, a[0]), a[1..], b);
    }
  }

  /** Reading the records of a list one by one adds its items one by one. */
  lemma {:induction false} FoldMapped<S(!new), T>(step: (S, Record) -> S, f: T -> Record, add: (S, T) -> S, xs: seq<T>,
        d: S)
    requires forall i, e: S :: 0 <= i < |xs| ==> step(e, f(xs[i])) == add(e, xs[i])
    ensures Fold(step, d, Mapped(xs, f)) == Fold(add, d, xs)
    decreases |xs|
  {
    if xs != [] {
      assert Mapped(xs, f)[1..] == Mapped(xs[1..], f);
      FoldMapped(step, f, add, xs[1..], add(d, xs[0]));
    }
  }

  function AddModule(d: Draft, x: Module): Draft { d.(modules := d.modules + [x]) }
  function AddInterface(d: Draft, x: Interface): Draft { d.(interfaces := d.interfaces + [x]) }
  function AddSlot(d: Draft, x: Slot): Draft { d.(slots := d.slots + [x]) }
  function AddPattern(d: Draft, x: Expression): Draft { d.(patterns := d.patterns + [x]) }

  lemma {:induction false} ModulesAdded(d: Draft, xs: seq<Module>)
    ensures Fold(AddModule, d, xs) == d.(modules := d.modules + xs)
    decreases |xs|
  {
    if xs == [] {
      assert d.modules + xs == d.modules;
    } else {
      ModulesAdded(AddModule(d, xs[0]), xs[1..]);
      assert d.modules + [xs[0]] + xs[1..] == d.modules + xs;
    }
  }

  lemma {:induction false} InterfacesAdded(d: Draft, xs: seq<Interface>)
    ensures Fold(AddInterface, d, xs) == d.(interfaces := d.interfaces + xs)
    decreases |xs|
  {
    if xs == [] {
      assert d.interfaces + xs == d.interfaces;
    } else {
      InterfacesAdded(AddInterface(d, xs[0]), xs[1..]);
      assert d.interfaces + [xs[0]] + xs[1..] == d.interfaces + xs;
    }
  }

  lemma {:induction false} SlotsAdded(d: Draft, xs: seq<Slot>)
    ensures Fold(AddSlot, d, xs) == d.(slots := d.slots + xs)
    decreases |xs|
  {
    if xs == [] {
      assert d.slots + xs == d.slots;
    } else {
      SlotsAdded(AddSlot(d, xs[0]), xs[1..]);
      assert d.slots + [xs[0]] + xs[1..] == d.slots + xs;
    }
  }

  lemma {:induction false} PatternsAdded(d: Draft, xs: seq<Expression>)
    ensures Fold(AddPattern, d, xs) == d.(patterns := d.patterns + xs)
    decreases |xs|
  {
    if xs == [] {
      assert d.patterns + xs == d.patterns;
    } else {
      PatternsAdded(AddPattern(d, xs[0]), xs[1..]);
      assert d.patterns + [xs[0]] + xs[1..] == d.patterns + xs;
    }
  }

  lemma ModulesRead(xs: seq<Module>, d: Draft)
    requires forall x :: x in xs ==> x.size <= MAX64 && x.hash <= MAX64
    ensures TakeAll(d, Mapped(xs, ModuleRecord)) == d.(modules := d.modules + xs)
  {
    forall i, e: Draft | 0 <= i < |xs|
      ensures Take(e, ModuleRecord(xs[i])) == AddModule(e, xs[i])
    {
      ModuleTakes(xs[i], e);
    }
    FoldMapped(Take, ModuleRecord, AddModule, xs, d);
    ModulesAdded(d, xs);
  }

  lemma InterfacesRead(xs: seq<Interface>, d: Draft)
    ensures TakeAll(d, Mapped(xs, InterfaceRecord)) == d.(interfaces := d.interfaces + xs)
  {
    forall i, e: Draft | 0 <= i < |xs|
      ensures Take(e, InterfaceRecord(xs[i])) == AddInterface(e, xs[i])
    {
    }
    FoldMapped(Take, InterfaceRecord, AddInterface, xs, d);
    InterfacesAdded(d, xs);
  }

  lemma SlotsRead(xs: seq<Slot>, d: Draft)
    requires forall x :: x in xs ==> x.index <= MAX32
    ensures TakeAll(d, Mapped(xs, SlotRecord)) == d.(slots := d.slots + xs)
  {
    forall i, e: Draft | 0 <= i < |xs|
      ensures Take(e, SlotRecord(xs[i])) == AddSlot(e, xs[i])
    {
      SlotTakes(xs[i], e);
    }
    FoldMapped(Take, SlotRecord, AddSlot, xs, d);
    SlotsAdded(d, xs);
  }

  lemma PatternsRead(xs: seq<Expression>, d: Draft)
    requires forall x :: x in xs ==> x.occurrence <= MAX32 && x.count <= MAX32 && x.offset <= MAX64
    ensures TakeAll(d, Mapped(xs, PatternRecord)) == d.(patterns := d.patterns + xs)
  {
    forall i, e: Draft | 0 <= i < |xs|
      ensures Take(e, PatternRecord(xs[i])) == AddPattern(e, xs[i])
    {
      PatternTakes(xs[i], e);
    }
    FoldMapped(Take, PatternRecord, AddPattern, xs, d);
    PatternsAdded(d, xs);
  }

  // ---- sorting keeps a profile well formed ----

  lemma SortedDistinct<T>(xs: seq<T>, key: T -> seq<string>)
    requires DistinctKeys(xs, key)
    ensures DistinctKeys(SortBy(xs, key), key)
    ensures forall x :: x in SortBy(xs, key) <==> x in xs
  {
    SortSorted(xs, key);
    var ys := SortBy(xs, key);
    forall i, j | 0 <= i < j < |ys|
      ensures key(ys[i]) != key(ys[j])
    {
      KeyOrder(key(ys[i]), key(ys[j]));
    }
    forall x
      ensures x in ys <==> x in xs
    {
      assert x in multiset(ys) <==> x in multiset(xs);
    }
  }

  lemma SameRoles(a: seq<Module>, b: seq<Module>, role: string)
    requires forall m :: m in a ==> m in b
    ensures HasRole(a, role) ==> HasRole(b, role)
  {
    if i :| 0 <= i < |a| && a[i].role == role {
      assert a[i] in b;
    }
  }

  lemma SameInterfaces(a: seq<Interface>, b: seq<Interface>, key: string)
    requires forall x :: x in a ==> x in b
    ensures HasInterface(a, key) ==> HasInterface(b, key)
  {
    if i :| 0 <= i < |a| && a[i].key == key {
      assert a[i] in b;
    }
  }

  lemma SortedWellFormed(p: Profile)
    requires WellFormed(p) && InRange(p)
    ensures WellFormed(SortedProfile(p)) && InRange(SortedProfile(p))
  {
    SortedDistinct(p.modules, ModuleKey);
    SortedDistinct(p.interfaces, InterfaceKey);
    SortedDistinct(p.slots, SlotKey);
    SortedDistinct(p.patterns, PatternKey);
    var q := SortedProfile(p);
    forall i | i in q.interfaces
      ensures InterfaceFine(q.modules, i)
    {
      SameRoles(p.modules, q.modules, i.host);
    }
    forall e | e in q.patterns
      ensures PatternFine(q.modules, e)
    {
      SameRoles(p.modules, q.modules, e.host);
    }
    forall s | s in q.slots
      ensures SlotFine(q.interfaces, s)
    {
      SameInterfaces(p.interfaces, q.interfaces, s.of);
    }
  }

  // ---- round trip and canonical form ----

  lemma ItemsClean(p: Profile, r: Record)
    requires WellFormed(p) && InRange(p) && r in Items(p)
    ensures RecordText.Clean(r)
  {
    if r in Mapped(p.modules, ModuleRecord) {
      var i :| 0 <= i < |p.modules| && r == ModuleRecord(p.modules[i]);
      ModuleClean(p.modules[i]);
    } else if r in Mapped(p.interfaces, InterfaceRecord) {
      var i :| 0 <= i < |p.interfaces| && r == InterfaceRecord(p.interfaces[i]);
      InterfaceClean(p.modules, p.interfaces[i]);
    } else if r in Mapped(p.slots, SlotRecord) {
      var i :| 0 <= i < |p.slots| && r == SlotRecord(p.slots[i]);
      SlotClean(p.interfaces, p.slots[i]);
    } else {
      var i :| 0 <= i < |p.patterns| && r == PatternRecord(p.patterns[i]);
      PatternFineClean(p.modules, p.patterns[i]);
    }
  }

  lemma PatternFineClean(modules: seq<Module>, e: Expression)
    requires PatternFine(modules, e) && forall m :: m in modules ==> ModuleFine(m)
    requires e.occurrence <= MAX32 && e.count <= MAX32 && e.offset <= MAX64
    ensures RecordText.Clean(PatternRecord(e))
  {
    PatternPlain(modules, e);
    PatternClean(e);
  }

  lemma TakeFour(d: Draft, a: seq<Record>, b: seq<Record>, c: seq<Record>, e: seq<Record>)
    ensures TakeAll(d, a + (b + (c + e))) == TakeAll(TakeAll(TakeAll(TakeAll(d, a), b), c), e)
  {
    FoldAppend(Take, d, a, b + (c + e));
    FoldAppend(Take, TakeAll(d, a), b, c + e);
    FoldAppend(Take, TakeAll(TakeAll(d, a), b), c, e);
  }

  function Filled(d: Draft, p: Profile): Draft {
    d.(modules := p.modules, interfaces := p.interfaces, slots := p.slots, patterns := p.patterns)
  }

  predicate Empty(d: Draft) {
    d.modules == [] && d.interfaces == [] && d.slots == [] && d.patterns == []
  }

  lemma ItemsRead(p: Profile, d: Draft)
    requires InRange(p) && Empty(d)
    ensures TakeAll(d, Items(p)) == Filled(d, p)
  {
    ModulesRead(p.modules, d);
    InterfacesRead(p.interfaces, d.(modules := p.modules));
    SlotsRead(p.slots, d.(modules := p.modules, interfaces := p.interfaces));
    PatternsRead(p.patterns, d.(modules := p.modules, interfaces := p.interfaces, slots := p.slots));
    Gathered(p, d);
  }

  lemma Gathered(p: Profile, d: Draft)
    requires Empty(d)
    requires TakeAll(d, Mapped(p.modules, ModuleRecord)) == d.(modules := d.modules + p.modules)
    requires var d1 := d.(modules := p.modules); TakeAll(d1, Mapped(p.interfaces, InterfaceRecord)) == d1.(interfaces := d1.interfaces + p.interfaces)
    requires var d2 := d.(modules := p.modules, interfaces := p.interfaces); TakeAll(d2, Mapped(p.slots, SlotRecord)) == d2.(slots := d2.slots + p.slots)
    requires var d3 := d.(modules := p.modules, interfaces := p.interfaces, slots := p.slots);
      TakeAll(d3, Mapped(p.patterns, PatternRecord)) == d3.(patterns := d3.patterns + p.patterns)
    ensures TakeAll(d, Items(p)) == Filled(d, p)
  {
    TakeFour(d, Mapped(p.modules, ModuleRecord), Mapped(p.interfaces, InterfaceRecord), Mapped(p.slots, SlotRecord), Mapped(p.patterns, PatternRecord));
    assert [] + p.modules == p.modules && [] + p.interfaces == p.interfaces;
    assert [] + p.slots == p.slots && [] + p.patterns == p.patterns;
  }

  function ScalarMap(p: Profile): map<string, string> {
    map["status" := if p.accepted then "accepted" else "candidate-untrusted",
        "review" := if p.accepted then "complete" else "required",
        "game" := p.game, "version" := p.version, "platform" := p.platform]
  }

  lemma ScalarsRead(p: Profile)
    ensures TakeAll(Blank, Scalars(p)) == Blank.(scalars := ScalarMap(p))
  {
    var rs := Scalars(p);
    var d1 := Take(Blank, rs[0]);
    var d2 := Take(d1, rs[1]);
    var d3 := Take(d2, rs[2]);
    var d4 := Take(d3, rs[3]);
    var d5 := Take(d4, rs[4]);
    assert d5 == Blank.(scalars := ScalarMap(p));
    FoldFive(Take, Blank, rs);
  }

  lemma FoldFive<S, R>(step: (S, R) -> S, d: S, rs: seq<R>)
    requires |rs| == 5
    ensures Fold(step, d, rs) == step(step(step(step(step(d, rs[0]), rs[1]), rs[2]), rs[3]), rs[4])
  {
    assert rs[1..][1..] == rs[2..] && rs[2..][1..] == rs[3..] && rs[3..][1..] == rs[4..] && rs[4..][1..] == [];
    var d2 := step(step(d, rs[0]), rs[1]);
    assert Fold(step, d, rs) == Fold(step, d2, rs[2..]);
    var d4 := step(step(d2, rs[2]), rs[3]);
    assert Fold(step, d2, rs[2..]) == Fold(step, d4, rs[4..]);
    assert Fold(step, d4, rs[4..]) == Fold(step, step(d4, rs[4]), []);
  }

  ghost predicate AllClean(rs: seq<Record>) {
    forall k :: 0 <= k < |rs| ==> RecordText.Clean(rs[k])
  }

  lemma CleanAppend(a: seq<Record>, b: seq<Record>)
    requires AllClean(a) && AllClean(b)
    ensures AllClean(a + b)
  {
  }

  lemma ScalarsClean(p: Profile)
    requires RecordText.ValidToken(p.game) && RecordText.ValidToken(p.version) && RecordText.ValidToken(p.platform)
    ensures AllClean(Scalars(p))
  {
    TokenPlain(p.game);
    TokenPlain(p.version);
    TokenPlain(p.platform);
    PairClean("status", Scalars(p)[0][1]);
    PairClean("review", Scalars(p)[1][1]);
    PairClean("game", p.game);
    PairClean("version", p.version);
    PairClean("platform", p.platform);
  }

  lemma PairClean(name: string, value: string)
    requires RecordText.PlainText(name) && RecordText.PlainText(value) && name != "" && name[0] != '#'
    ensures RecordText.Clean([name, value])
  {
  }

  lemma RecordsClean(p: Profile)
    requires WellFormed(p) && InRange(p)
    ensures AllClean(Records(p))
  {
    ScalarsClean(p);
    SortedWellFormed(p);
    var items := Items(SortedProfile(p));
    forall k | 0 <= k < |items|
      ensures RecordText.Clean(items[k])
    {
      ItemsClean(SortedProfile(p), items[k]);
    }
    CleanAppend(Scalars(p), items);
  }

  lemma RecordsRead(p: Profile)
    requires WellFormed(p) && InRange(p)
    ensures TakeAll(Blank, Records(p)) == Filled(Blank.(scalars := ScalarMap(p)), SortedProfile(p))
  {
    SortedWellFormed(p);
    ScalarsRead(p);
    FoldAppend(Take, Blank, Scalars(p), Items(SortedProfile(p)));
    ItemsRead(SortedProfile(p), Blank.(scalars := ScalarMap(p)));
  }

  lemma FilledFinishes(p: Profile)
    requires WellFormed(p)
    ensures Finish(Filled(Blank.(scalars := ScalarMap(p)), p)) == Some(p)
  {
  }

  lemma RecordsFinish(p: Profile)
    requires WellFormed(p) && InRange(p)
    ensures Finish(TakeAll(Blank, Records(p))) == Some(SortedProfile(p))
  {
    RecordsRead(p);
    SortedWellFormed(p);
    FilledFinishes(SortedProfile(p));
    assert ScalarMap(SortedProfile(p)) == ScalarMap(p);
  }

  lemma TextReads(p: Profile)
    requires WellFormed(p) && InRange(p)
    ensures RecordText.Read(Text(p), HEADER) == Some(Records(p))
  {
    RecordsClean(p);
    HeaderFine();
    RecordText.WriteReads(HEADER, Records(p));
  }

  lemma HeaderFine()
    ensures RecordText.Headline(HEADER)
  {
  }

  /** Reading what was written gives the profile back, with each list sorted by its key. */
  lemma RoundTrip(p: Profile)
    requires WellFormed(p) && InRange(p)
    ensures Parse(Text(p)) == Some(SortedProfile(p))
  {
    TextReads(p);
    RecordsFinish(p);
  }

  ghost predicate SameUpToOrder(p: Profile, q: Profile) {
    && p.accepted == q.accepted && p.game == q.game && p.version == q.version && p.platform == q.platform
    && multiset(p.modules) == multiset(q.modules) && multiset(p.interfaces) == multiset(q.interfaces)
    && multiset(p.slots) == multiset(q.slots) && multiset(p.patterns) == multiset(q.patterns)
  }

  /** Two profiles are written alike exactly when they differ in the order of their lists only. */
  lemma CanonicalForm(p: Profile, q: Profile)
    requires WellFormed(p) && WellFormed(q) && InRange(p) && InRange(q)
    ensures SameUpToOrder(p, q) <==> Text(p) == Text(q)
  {
    if SameUpToOrder(p, q) {
      SortIgnoresOrder(p.modules, q.modules, ModuleKey);
      SortIgnoresOrder(p.interfaces, q.interfaces, InterfaceKey);
      SortIgnoresOrder(p.slots, q.slots, SlotKey);
      SortIgnoresOrder(p.patterns, q.patterns, PatternKey);
    }
    if Text(p) == Text(q) {
      RoundTrip(p);
      RoundTrip(q);
      assert SortedProfile(p) == SortedProfile(q);
    }
  }

  // ---- the loops ----

  method CheckModules(modules: seq<Module>) returns (valid: bool, roles: set<string>)
    ensures valid <==> (forall m :: m in modules ==> ModuleFine(m)) && DistinctKeys(modules, ModuleKey)
    ensures valid ==> forall role :: role in roles <==> HasRole(modules, role)
  {
    valid, roles := true, {};
    for k := 0 to |modules|
      invariant valid <==> (forall j :: 0 <= j < k ==> ModuleFine(modules[j])) && DistinctKeys(modules[..k], ModuleKey)
      invariant valid ==> forall role :: role in roles <==> HasRole(modules[..k], role)
    {
      var m := modules[k];
      assert modules[..k + 1] == modules[..k] + [m];
      if !RecordText.ValidToken(m.role) || m.role in roles {
        valid := false;
      } else {
        roles := roles + {m.role};
      }
      if m.name == "" || !RecordText.PlainText(m.name) || m.size == 0 {
        valid := false;
      }
    }
    assert modules[..|modules|] == modules;
  }

  predicate InterfaceListed(roles: set<string>, i: Interface) {
    RecordText.ValidToken(i.key) && RecordText.ValidToken(i.name) && i.host in roles
  }

  method CheckInterfaces(interfaces: seq<Interface>, roles: set<string>) returns (valid: bool, keys: set<string>)
    ensures valid <==> (forall i :: i in interfaces ==> InterfaceListed(roles, i)) && DistinctKeys(interfaces, InterfaceKey)
    ensures valid ==> forall key :: key in keys <==> HasInterface(interfaces, key)
  {
    valid, keys := true, {};
    for k := 0 to |interfaces|
      invariant valid <==> (forall j :: 0 <= j < k ==> InterfaceListed(roles, interfaces[j])) && DistinctKeys(interfaces[..k], InterfaceKey)
      invariant valid ==> forall key :: key in keys <==> HasInterface(interfaces[..k], key)
    {
      var i := interfaces[k];
      assert interfaces[..k + 1] == interfaces[..k] + [i];
      if !RecordText.ValidToken(i.key) || i.key in keys {
        valid := false;
      } else {
        keys := keys + {i.key};
      }
      if !RecordText.ValidToken(i.name) || i.host !in roles {
        valid := false;
      }
    }
    assert interfaces[..|interfaces|] == interfaces;
  }

  predicate SlotListed(keys: set<string>, s: Slot) {
    RecordText.ValidToken(s.of) && s.of in keys && RecordText.ValidToken(s.member)
  }

  method CheckSlots(slots: seq<Slot>, keys: set<string>) returns (valid: bool)
    ensures valid <==> (forall s :: s in slots ==> SlotListed(keys, s)) && DistinctKeys(slots, SlotKey)
  {
    valid := true;
    var seen: set<seq<string>> := {};
    for k := 0 to |slots|
      invariant valid <==> (forall j :: 0 <= j < k ==> SlotListed(keys, slots[j])) && DistinctKeys(slots[..k], SlotKey)
      invariant forall key :: key in seen <==> exists j :: 0 <= j < k && SlotKey(slots[j]) == key
    {
      var s := slots[k];
      assert slots[..k + 1] == slots[..k] + [s];
      if SlotKey(s) in seen {
        valid := false;
      }
      seen := seen + {SlotKey(s)};
      if !SlotListed(keys, s) {
        valid := false;
      }
    }
    assert slots[..|slots|] == slots;
  }

  /** `normal`: the text is a pattern in normal form. */
  predicate PatternListed(roles: set<string>, e: Expression, normal: bool) {
    && RecordText.ValidToken(e.key) && e.host in roles && normal
    && e.count != 0 && (e.occurrence == 0 || e.occurrence <= e.count)
  }

  method CheckTexts(patterns: seq<Expression>) returns (normal: seq<bool>)
    ensures |normal| == |patterns| && forall k :: 0 <= k < |patterns| ==> normal[k] == Normal(patterns[k].text)
  {
    normal := [];
    for k := 0 to |patterns|
      invariant |normal| == k && forall j :: 0 <= j < k ==> normal[j] == Normal(patterns[j].text)
    {
      var parsed, normalized := ParsePatternTool(patterns[k].text);
      normal := normal + [parsed.Some? && normalized == patterns[k].text];
    }
  }

  method CheckPatterns(patterns: seq<Expression>, roles: set<string>, normal: seq<bool>) returns (valid: bool)
    requires |normal| == |patterns|
    ensures valid <==> (forall k :: 0 <= k < |patterns| ==> PatternListed(roles, patterns[k], normal[k])) && DistinctKeys(patterns, PatternKey)
  {
    valid := true;
    var keys: set<string> := {};
    for k := 0 to |patterns|
      invariant valid <==> (forall j :: 0 <= j < k ==> PatternListed(roles, patterns[j], normal[j])) && DistinctKeys(patterns[..k], PatternKey)
      invariant valid ==> forall key :: key in keys <==> exists j :: 0 <= j < k && patterns[j].key == key
    {
      var e := patterns[k];
      assert patterns[..k + 1] == patterns[..k] + [e];
      if !RecordText.ValidToken(e.key) || e.key in keys {
        valid := false;
      } else {
        keys := keys + {e.key};
      }
      if e.host !in roles || !normal[k] || e.count == 0 || (e.occurrence != 0 && e.occurrence > e.count) {
        valid := false;
      }
    }
    assert patterns[..|patterns|] == patterns;
  }

  method ValidateStructure(p: Profile) returns (valid: bool)
    ensures valid <==> WellFormed(p)
  {
    if !RecordText.ValidToken(p.game) || !RecordText.ValidToken(p.version) || !RecordText.ValidToken(p.platform) {
      return false;
    }
    var modules, roles := CheckModules(p.modules);
    var interfaces, keys := CheckInterfaces(p.interfaces, roles);
    var slots := CheckSlots(p.slots, keys);
    var normal := CheckTexts(p.patterns);
    var patterns := CheckPatterns(p.patterns, roles, normal);
    assert modules ==> forall k :: 0 <= k < |p.patterns| ==> PatternListed(roles, p.patterns[k], normal[k]) == PatternFine(p.modules, p.patterns[k]);
    return modules && interfaces && slots && patterns;
  }

  method ReadProfile(text: string) returns (result: Option<Profile>)
    ensures result == Parse(text)
  {
    var records := RecordText.ReadRecords(text, HEADER);
    if records.None? {
      return None;
    }
    var d := Blank;
    var rs := records.value;
    for k := 0 to |rs|
      invariant TakeAll(d, rs[k..]) == TakeAll(Blank, rs)
    {
      assert rs[k..][0] == rs[k] && rs[k..][1..] == rs[k + 1..];
      d := Take(d, rs[k]);
    }
    assert rs[|rs|..] == [];
    if !({"game", "version", "platform"} <= d.scalars.Keys) || Trust(d).None? {
      return None;
    }
    var p := Profile(Trust(d).value, d.scalars["game"], d.scalars["version"], d.scalars["platform"],
                     d.modules, d.interfaces, d.slots, d.patterns);
    var valid := ValidateStructure(p);
    return if d.fine && valid then Some(p) else None;
  }

  method AppendLines(text: string, rs: seq<Record>) returns (longer: string)
    ensures longer == text + RecordText.Unlines(RecordText.Written(rs))
  {
    longer := text;
    for k := 0 to |rs|
      invariant longer + RecordText.Unlines(RecordText.Written(rs[k..])) == text + RecordText.Unlines(RecordText.Written(rs))
    {
      LineFirst(rs, k);
      ghost var later := RecordText.Unlines(RecordText.Written(rs[k + 1..]));
      assert longer + (RecordText.Join(rs[k]) + ("\n" + later)) == (longer + (RecordText.Join(rs[k]) + "\n")) + later;
      longer := longer + (RecordText.Join(rs[k]) + "\n");
    }
    assert RecordText.Written(rs[|rs|..]) == [];
  }

  lemma LineFirst(rs: seq<Record>, k: nat)
    requires k < |rs|
    ensures RecordText.Unlines(RecordText.Written(rs[k..])) ==
            RecordText.Join(rs[k]) + ("\n" + RecordText.Unlines(RecordText.Written(rs[k + 1..])))
  {
    assert rs[k..][1..] == rs[k + 1..];
    var lines := RecordText.Written(rs[k..]);
    assert lines[0] == RecordText.Join(rs[k]) && lines[1..] == RecordText.Written(rs[k + 1..]);
  }

  /** `exists`: there is a file at the path already. `None` where the tool gives an error. */
  method WriteProfile(p: Profile, present: bool) returns (text: Option<string>)
    ensures text == if WellFormed(p) && !present then Some(Text(p)) else None
  {
    var valid := ValidateStructure(p);
    if !valid || present {
      return None;
    }
    var sorted := SortedProfile(p);
    var out := AppendLines(HEADER + "\n", Scalars(p));
    out := AppendLines(out, Mapped(sorted.modules, ModuleRecord));
    out := AppendLines(out, Mapped(sorted.interfaces, InterfaceRecord));
    out := AppendLines(out, Mapped(sorted.slots, SlotRecord));
    out := AppendLines(out, Mapped(sorted.patterns, PatternRecord));
    LinesJoined(Scalars(p), Mapped(sorted.modules, ModuleRecord), Mapped(sorted.interfaces, InterfaceRecord),
      Mapped(sorted.slots, SlotRecord), Mapped(sorted.patterns, PatternRecord));
    return Some(out);
  }

  function LineText(rs: seq<Record>): string {
    RecordText.Unlines(RecordText.Written(rs))
  }

  lemma {:induction false} LineTextAppend(a: seq<Record>, b: seq<Record>)
    ensures LineText(a + b) == LineText(a) + LineText(b)
    decreases |a|
  {
    if a == [] {
      assert a + b == b;
    } else {
      LineTextAppend(a[1..], b);
      LineFirst(a, 0);
      LineFirst(a + b, 0);
      assert a[0..] == a && (a + b)[0..] == a + b && (a + b)[1..] == a[1..] + b;
    }
  }

  lemma FiveJoined(h: string, a: string, b: string, c: string, d: string, e: string)
    ensures ((((h + a) + b) + c) + d) + e == h + (a + (b + (c + (d + e))))
  {
    assert (((h + a) + b) + c) + d == ((h + a) + b) + (c + d);
    assert (((h + a) + b) + (c + d)) + e == ((h + a) + b) + (c + (d + e));
    assert ((h + a) + b) + (c + (d + e)) == (h + a) + (b + (c + (d + e)));
  }

  lemma LinesJoined(a: seq<Record>, b: seq<Record>, c: seq<Record>, d: seq<Record>, e: seq<Record>)
    ensures (((((HEADER + "\n") + LineText(a)) + LineText(b)) + LineText(c)) + LineText(d)) + LineText(e) ==
            RecordText.Write(HEADER, a + (b + (c + (d + e))))
  {
    LineTextAppend(a, b + (c + (d + e)));
    LineTextAppend(b, c + (d + e));
    LineTextAppend(c, d + e);
    LineTextAppend(d, e);
    FiveJoined(HEADER + "\n", LineText(a), LineText(b), LineText(c), LineText(d), LineText(e));
    HeaderFirst(a + (b + (c + (d + e))));
  }

  lemma HeaderFirst(rs: seq<Record>)
    ensures RecordText.Write(HEADER, rs) == (HEADER + "\n") + LineText(rs)
  {
    var lines := [HEADER] + RecordText.Written(rs);
    assert lines[1..] == RecordText.Written(rs);
  }
}
