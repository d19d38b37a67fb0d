/**
  Capturing a compatibility profile from module files, and validating a profile against them: what is
  captured validates, and what validates is what a capture of the same files gives.
 */
module CaptureReview {
  import opened ModuleImages
  import opened Numerals
  import opened Options
  import opened PatternText
  import opened Profiles
  import Scanner = PatternScan

  type FileRange = Scanner.FileRange

  datatype Input = Input(role: string, path: string)
  datatype Wanted = Wanted(key: string, host: string, text: string, occurrence: nat)
  datatype Request = Request(
    game: string, version: string, platform: string,
    modules: seq<Input>, interfaces: seq<Interface>, slots: seq<Slot>, patterns: seq<Wanted>)

  /** The readable files, and the file name a path ends in. */
  datatype Disk = Disk(files: map<string, Bytes>, filename: string -> string)

  datatype Image = Image(bytes: Bytes, ranges: seq<FileRange>)
  datatype Read = Read(found: Module, image: Image)
  /** A pattern found in an image: how often, and where the occurrence asked for lies. */
  datatype Resolution = Resolution(pattern: Pattern, count: nat, offset: nat)

  // ---- fingerprints ----

  const FNV_OFFSET: nat := 14695981039346656037
  const FNV_PRIME: nat := 1099511628211

  /** Bit by bit, on the lowest `n` bits. */
  function XorBits(a: nat, b: nat, n: nat): nat {
    if n == 0 then 0 else (if a % 2 == b % 2 then 0 else 1) + 2 * XorBits(a / 2, b / 2, n - 1)
  }

  function Xor(h: nat, b: Byte): nat {
    h - h % 256 + XorBits(h % 256, b as nat, 8)
  }

  function HashStep(h: nat, b: Byte): nat {
    Xor(h, b) * FNV_PRIME % (MAX64 + 1)
  }

  /** The 64-bit FNV-1a hash of the first `k` bytes. */
  function Hash(bytes: Bytes, k: nat): nat
    requires k <= |bytes|
  {
    if k == 0 then FNV_OFFSET else HashStep(Hash(bytes, k - 1), bytes[k - 1])
  }

  method HashBytes(bytes: Bytes) returns (h: nat)
    ensures h == Hash(bytes, |bytes|)
  {
    h := FNV_OFFSET;
    for k := 0 to |bytes|
      invariant h == Hash(bytes, k)
    {
      h := HashStep(h, bytes[k]);
    }
  }

  // ---- one module, one pattern ----

  /** No file has an empty path. */
  function Open(disk: Disk, path: string): Option<Bytes> {
    if path == "" || path !in disk.files then None else Some(disk.files[path])
  }

  /** The record and the image of a module file; an empty file and one without executable ranges have none. */
  function ReadInput(disk: Disk, i: Input): Option<Read> {
    var bytes := Open(disk, i.path);
    if bytes.None? || bytes.value == [] || Ranges(bytes.value).None? then None
    else Some(Read(Module(i.role, disk.filename(i.path), |bytes.value|, Hash(bytes.value, |bytes.value|)),
                   Image(bytes.value, Ranges(bytes.value).value)))
  }

  ghost predicate Sound(image: Image) {
    AllInFile(image.ranges, |image.bytes|)
  }

  lemma ReadSound(disk: Disk, i: Input)
    ensures ReadInput(disk, i).Some? ==> Sound(ReadInput(disk, i).value.image)
  {
    var bytes := Open(disk, i.path);
    if bytes.Some? {
      RangesInFile(bytes.value);
    }
  }

  /** Where the pattern lies in one executable range of the image. */
  ghost function Places(image: Image, p: Pattern): iset<nat> {
    iset a: nat | Scanner.ToolMatch(image.ranges, image.bytes, p, a)
  }

  /** The places of a pattern in an image, in ascending order. */
  ghost function Matches(image: Image, p: Pattern): seq<nat> {
    Scanner.Hits(Places(image, p), 0, |image.bytes|)
  }

  ghost function Resolve(image: Image, text: string, occurrence: nat): Option<Resolution> {
    var p := ParseTool(text);
    if p.None? then None
    else
      var matches := Matches(image, p.value);
      match Scanner.Select(matches, occurrence)
      case Found(a) => Some(Resolution(p.value, |matches|, a))
      case _ => None
  }

  lemma ScanIs(image: Image, p: Pattern, matches: seq<nat>)
    requires Sound(image) && p != [] && Scanner.Ascending(matches)
    requires forall a :: a in matches <==> Scanner.ToolMatch(image.ranges, image.bytes, p, a)
    ensures matches == Matches(image, p)
  {
    MatchesAre(image, p);
    Scanner.AscendingUnique(matches, Matches(image, p));
  }

  lemma MatchesAre(image: Image, p: Pattern)
    requires Sound(image) && p != []
    ensures Scanner.Ascending(Matches(image, p)) && forall a :: a in Matches(image, p) <==> a in Places(image, p)
    ensures forall a :: a in Places(image, p) ==> a < |image.bytes|
  {
    Scanner.HitsOrdered(Places(image, p), 0, |image.bytes|);
    forall a: nat
      ensures a in Matches(image, p) <==> a in Places(image, p)
      ensures a in Places(image, p) ==> a < |image.bytes|
    {
      Scanner.HitAt(Places(image, p), 0, |image.bytes|, a);
      if a in Places(image, p) {
        var i :| 0 <= i < |image.ranges| && Scanner.InFile(image.ranges[i], a, |p|);
        assert image.ranges[i] in image.ranges;
      }
    }
  }

  /** A pattern resolves to the place asked for and the number of places, if the image has that place. */
  lemma ResolveMeans(image: Image, text: string, occurrence: nat)
    requires Sound(image)
    ensures ParseTool(text).None? ==> Resolve(image, text, occurrence).None?
    ensures ParseTool(text).Some? ==>
      var places, r := Places(image, ParseTool(text).value), Resolve(image, text, occurrence);
      && (r.Some? ==> r.value.pattern == ParseTool(text).value && r.value.count == |Scanner.Lower(places, |image.bytes|)|)
      && (forall a :: r.Some? && r.value.offset == a <==> Scanner.AnswerIs(places, occurrence, Scanner.Found(a)))
      && forall a :: a in places ==> a < |image.bytes|
  {
    if ParseTool(text).Some? {
      var p := ParseTool(text).value;
      ReadToolSome(Tokens(text, 0), []);
      MatchesAre(image, p);
      Scanner.WholeCount(Places(image, p), Matches(image, p), |image.bytes|);
      SelectIs(Places(image, p), Matches(image, p), occurrence);
    }
  }

  lemma SelectIs(places: iset<nat>, q: seq<nat>, occurrence: nat)
    requires Scanner.Ascending(q) && forall a :: a in q <==> a in places
    ensures forall a :: Scanner.Select(q, occurrence) == Scanner.Found(a) <==> Scanner.AnswerIs(places, occurrence, Scanner.Found(a))
  {
    Scanner.SelectAnswers(places, q, occurrence);
    forall a | Scanner.AnswerIs(places, occurrence, Scanner.Found(a))
      ensures Scanner.Select(q, occurrence) == Scanner.Found(a)
    {
      Scanner.OneAnswer(places, occurrence, Scanner.Select(q, occurrence), Scanner.Found(a));
    }
  }

  lemma {:induction false} ReadToolSome(tokens: seq<string>, done: Pattern)
    ensures ReadTool(tokens, done).Some? ==> ReadTool(tokens, done).value != []
  {
    if tokens != [] && PatternText.Read(tokens[0]).Some? {
      ReadToolSome(tokens[1..], done + [PatternText.Read(tokens[0]).value]);
    }
  }

  method ResolvePattern(image: Image, text: string, occurrence: nat) returns (r: Option<Resolution>, normalized: string)
    requires Sound(image)
    ensures r == Resolve(image, text, occurrence)
    ensures r.Some? ==> normalized == Print(r.value.pattern)
  {
    var parsed;
    parsed, normalized := ParsePatternTool(text);
    if parsed.None? {
      return None, normalized;
    }
    ReadToolSome(Tokens(text, 0), []);
    var matches := Scanner.Scan(image.bytes, image.ranges, parsed.value);
    ScanIs(image, parsed.value, matches);
    var selected := Scanner.SelectMatch(matches, occurrence);
    return if selected.None? then None else Some(Resolution(parsed.value, |matches|, selected.value)), normalized;
  }

  // ---- capturing ----

  /** What `f` gives for the first `k` items, if it gives something for each. */
  function Gathered<T, R>(f: T -> Option<R>, xs: seq<T>, k: nat): Option<seq<R>>
    requires k <= |xs|
  {
    if k == 0 then Some([])
    else
      var before, last := Gathered(f, xs, k - 1), f(xs[k - 1]);
      if before.None? || last.None? then None else Some(before.value + [last.value])
  }

  lemma {:induction false} GatheredIs<T, R>(f: T -> Option<R>, xs: seq<T>, k: nat, ys: seq<R>)
    requires k <= |xs|
    ensures Gathered(f, xs, k) == Some(ys) <==> |ys| == k && forall i :: 0 <= i < k ==> f(xs[i]) == Some(ys[i])
  {
    if k > 0 && ys != [] {
      GatheredIs(f, xs, k - 1, ys[..|ys| - 1]);
      assert ys == ys[..|ys| - 1] + [ys[|ys| - 1]];
    }
  }

  function Recorded(disk: Disk, i: Input): Option<Module> {
    var read := ReadInput(disk, i);
    if read.None? then None else Some(read.value.found)
  }

  function Recording(disk: Disk): Input -> Option<Module> {
    (i: Input) => Recorded(disk, i)
  }

  function CapturedModules(disk: Disk, inputs: seq<Input>, k: nat): Option<seq<Module>>
    requires k <= |inputs|
  {
    Gathered(Recording(disk), inputs, k)
  }

  /** The first readable image of the role. */
  function ImageOf(disk: Disk, inputs: seq<Input>, k: nat, role: string): Option<Image>
    requires k <= |inputs|
  {
    if k == 0 then None
    else
      var before, read := ImageOf(disk, inputs, k - 1, role), ReadInput(disk, inputs[k - 1]);
      if before.Some? then before
      else if inputs[k - 1].role == role && read.Some? then Some(read.value.image)
      else None
  }

  ghost function CapturedPattern(image: Option<Image>, w: Wanted): Option<Expression> {
    if image.None? then None
    else
      var r := Resolve(image.value, w.text, w.occurrence);
      if r.None? || r.value.count > MAX32 then None
      else Some(Expression(w.key, w.host, Print(r.value.pattern), w.occurrence, r.value.count, r.value.offset))
  }

  /** How a pattern request is answered with the images of these inputs. */
  ghost function Answer(disk: Disk, inputs: seq<Input>, w: Wanted): Option<Expression> {
    CapturedPattern(ImageOf(disk, inputs, |inputs|, w.host), w)
  }

  ghost function Answering(disk: Disk, inputs: seq<Input>): Wanted -> Option<Expression> {
    (w: Wanted) => Answer(disk, inputs, w)
  }

  ghost function CapturedPatterns(disk: Disk, inputs: seq<Input>, patterns: seq<Wanted>,
        k: nat): Option<seq<Expression>>
    requires k <= |patterns|
  {
    Gathered(Answering(disk, inputs), patterns, k)
  }

  /** The candidate profile of a request; `None` where the tool reports an error. */
  ghost function Captured(disk: Disk, request: Request): Option<Profile> {
    var modules := CapturedModules(disk, request.modules, |request.modules|);
    var patterns := CapturedPatterns(disk, request.modules, request.patterns, |request.patterns|);
    if modules.None? || patterns.None? then None
    else
      var p := Profile(false, request.game, request.version, request.platform,
                       modules.value, request.interfaces, request.slots, patterns.value);
      if WellFormed(p) then Some(p) else None
  }

  function Lookup(images: map<string, Image>, role: string): Option<Image> {
    if role in images then Some(images[role]) else None
  }

  ghost predicate AllSound(images: map<string, Image>) {
    forall role :: role in images ==> Sound(images[role])
  }

  method CaptureModules(disk: Disk, inputs: seq<Input>)
        returns (modules: Option<seq<Module>>, images: map<string, Image>)
    ensures modules == CapturedModules(disk, inputs, |inputs|)
    ensures AllSound(images) && forall role :: Lookup(images, role) == ImageOf(disk, inputs, |inputs|, role)
  {
    modules, images := Some([]), map[];
    for k := 0 to |inputs|
      invariant modules == CapturedModules(disk, inputs, k)
      invariant AllSound(images) && forall role :: Lookup(images, role) == ImageOf(disk, inputs, k, role)
    {
      var read := ReadInput(disk, inputs[k]);
      ReadSound(disk, inputs[k]);
      if read.None? {
        modules := None;
      } else {
        modules := if modules.None? then None else Some(modules.value + [read.value.found]);
        if inputs[k].role !in images {
          images := images[inputs[k].role := read.value.image];
        }
      }
    }
  }

  /** `image`: the one captured for the module the pattern names. */
  method CapturePattern(image: Option<Image>, w: Wanted) returns (e: Option<Expression>)
    requires image.Some? ==> Sound(image.value)
    ensures e == CapturedPattern(image, w)
  {
    if image.None? {
      return None;
    }
    var r, normalized := ResolvePattern(image.value, w.text, w.occurrence);
    if r.None? || r.value.count > MAX32 {
      return None;
    }
    return Some(Expression(w.key, w.host, normalized, w.occurrence, r.value.count, r.value.offset));
  }

  method Capture(disk: Disk, request: Request) returns (result: Option<Profile>)
    ensures result == Captured(disk, request)
  {
    var modules, images := CaptureModules(disk, request.modules);
    var patterns: Option<seq<Expression>> := Some([]);
    for k := 0 to |request.patterns|
      invariant patterns == CapturedPatterns(disk, request.modules, request.patterns, k)
    {
      var w := request.patterns[k];
      assert Lookup(images, w.host) == ImageOf(disk, request.modules, |request.modules|, w.host);
      var e := CapturePattern(Lookup(images, w.host), w);
      assert e == Answer(disk, request.modules, w);
      if e.None? {
        patterns := None;
      } else if patterns.Some? {
        patterns := Some(patterns.value + [e.value]);
      }
    }
    if modules.None? || patterns.None? {
      return None;
    }
    var p := Profile(false, request.game, request.version, request.platform,
                     modules.value, request.interfaces, request.slots, patterns.value);
    var valid := ValidateStructure(p);
    return if valid then Some(p) else None;
  }

  // ---- validating ----

  predicate BindingFine(b: Input) {
    RecordText.ValidToken(b.role) && b.path != ""
  }

  function RoleOf(b: Input): seq<string> { [b.role] }

  /** The binding of a module's role leads to the file the module was captured from, or one just like it. */
  predicate ModuleStands(disk: Disk, bindings: seq<Input>, m: Module) {
    exists i :: 0 <= i < |bindings| && bindings[i].role == m.role && Leads(disk, bindings[i], m)
  }

  predicate Leads(disk: Disk, b: Input, m: Module) {
    Recorded(disk, b) == Some(m)
  }

  /** The pattern is found in the image as often, and where, the profile says. */
  ghost predicate PatternHolds(image: Image, e: Expression) {
    var r := Resolve(image, e.text, e.occurrence);
    r.Some? && r.value.count == e.count && r.value.offset == e.offset
  }

  ghost predicate PatternStands(disk: Disk, bindings: seq<Input>, e: Expression) {
    var image := ImageOf(disk, bindings, |bindings|, e.host);
    image.Some? && PatternHolds(image.value, e)
  }

  /** What validation without an error means. */
  ghost predicate Consistent(disk: Disk, p: Profile, bindings: seq<Input>) {
    && WellFormed(p)
    && (forall b :: b in bindings ==> BindingFine(b)) && Sorting.DistinctKeys(bindings, RoleOf)
    && (forall b :: b in bindings ==> HasRole(p.modules, b.role))
    && (forall m :: m in p.modules ==> ModuleStands(disk, bindings, m))
    && (forall e :: e in p.patterns ==> PatternStands(disk, bindings, e))
  }

  // ---- what is captured validates ----

  /** The stored text is the normal form, and reads as the pattern that was asked for. */
  lemma CapturedPatternHolds(image: Image, w: Wanted, e: Expression)
    requires CapturedPattern(Some(image), w) == Some(e)
    ensures PatternHolds(image, e) && e.key == w.key && e.host == w.host
  {
    var p := ParseTool(w.text).value;
    ReadToolBounded(Tokens(w.text, 0), []);
    ReadToolSome(Tokens(w.text, 0), []);
    NormalFormReads(p);
  }

  lemma CapturedBindings(disk: Disk, request: Request, p: Profile)
    requires Captured(disk, request) == Some(p)
    ensures |p.modules| == |request.modules|
    ensures forall i :: 0 <= i < |p.modules| ==> Leads(disk, request.modules[i], p.modules[i]) && p.modules[i].role == request.modules[i].role
    ensures Sorting.DistinctKeys(request.modules, RoleOf)
  {
    GatheredIs(Recording(disk), request.modules, |request.modules|, p.modules);
    forall i, j | 0 <= i < j < |request.modules|
      ensures RoleOf(request.modules[i]) != RoleOf(request.modules[j])
    {
      assert ModuleKey(p.modules[i]) != ModuleKey(p.modules[j]);
    }
  }

  lemma CapturedBindingsFine(disk: Disk, request: Request, p: Profile, b: Input)
    requires Captured(disk, request) == Some(p) && b in request.modules
    ensures BindingFine(b) && HasRole(p.modules, b.role)
  {
    CapturedBindings(disk, request, p);
    var i :| 0 <= i < |request.modules| && request.modules[i] == b;
    assert ModuleFine(p.modules[i]) && Leads(disk, b, p.modules[i]);
  }

  lemma CapturedModuleStands(disk: Disk, request: Request, p: Profile, m: Module)
    requires Captured(disk, request) == Some(p) && m in p.modules
    ensures ModuleStands(disk, request.modules, m)
  {
    CapturedBindings(disk, request, p);
    var i :| 0 <= i < |p.modules| && p.modules[i] == m;
    assert Leads(disk, request.modules[i], m);
  }

  lemma CapturedPatternStands(disk: Disk, request: Request, p: Profile, e: Expression)
    requires Captured(disk, request) == Some(p) && e in p.patterns
    ensures PatternStands(disk, request.modules, e)
  {
    var inputs, ws := request.modules, request.patterns;
    GatheredIs(Answering(disk, inputs), ws, |ws|, p.patterns);
    var i :| 0 <= i < |p.patterns| && p.patterns[i] == e;
    CapturedPatternHolds(ImageOf(disk, inputs, |inputs|, ws[i].host).value, ws[i], e);
  }

  /** Whatever capture gives, validation against the same files accepts. */
  lemma CaptureValidates(disk: Disk, request: Request, p: Profile)
    requires Captured(disk, request) == Some(p)
    ensures Consistent(disk, p, request.modules)
  {
    CapturedBindings(disk, request, p);
    forall b | b in request.modules
      ensures BindingFine(b) && HasRole(p.modules, b.role)
    {
      CapturedBindingsFine(disk, request, p, b);
    }
    forall m | m in p.modules
      ensures ModuleStands(disk, request.modules, m)
    {
      CapturedModuleStands(disk, request, p, m);
    }
    forall e | e in p.patterns
      ensures PatternStands(disk, request.modules, e)
    {
      CapturedPatternStands(disk, request, p, e);
    }
  }

  // ---- what validates can be captured ----

  function Asked(e: Expression): Wanted {
    Wanted(e.key, e.host, e.text, e.occurrence)
  }

  /** The request that asks for what the profile holds. */
  function RequestOf(p: Profile, bindings: seq<Input>): Request {
    Request(p.game, p.version, p.platform, bindings, p.interfaces, p.slots,
            seq(|p.patterns|, i requires 0 <= i < |p.patterns| => Asked(p.patterns[i])))
  }

  /** The bindings name the modules in the profile's order. */
  predicate InProfileOrder(p: Profile, bindings: seq<Input>) {
    |bindings| == |p.modules| && forall i :: 0 <= i < |bindings| ==> bindings[i].role == p.modules[i].role
  }

  lemma HeldPatternCaptured(image: Image, e: Expression)
    requires PatternHolds(image, e) && Normal(e.text) && e.count <= MAX32
    ensures CapturedPattern(Some(image), Asked(e)) == Some(e)
  {
  }

  /**
    Validation accepts a profile exactly when capturing the same files again, asked for the same things,
    gives the profile again, up to its trust.
   */
  lemma ValidatedIsCaptured(disk: Disk, p: Profile, bindings: seq<Input>)
    requires InRange(p) && InProfileOrder(p, bindings)
    ensures Consistent(disk, p, bindings) <==> Captured(disk, RequestOf(p, bindings)) == Some(p.(accepted := false))
  {
    if Consistent(disk, p, bindings) {
      ConsistentCaptured(disk, p, bindings);
    }
    if Captured(disk, RequestOf(p, bindings)) == Some(p.(accepted := false)) {
      CaptureValidates(disk, RequestOf(p, bindings), p.(accepted := false));
      TrustIgnored(disk, p, bindings);
    }
  }

  lemma TrustIgnored(disk: Disk, p: Profile, bindings: seq<Input>)
    requires Consistent(disk, p.(accepted := false), bindings)
    ensures Consistent(disk, p, bindings)
  {
  }

  lemma ConsistentCaptured(disk: Disk, p: Profile, bindings: seq<Input>)
    requires InRange(p) && InProfileOrder(p, bindings) && Consistent(disk, p, bindings)
    ensures Captured(disk, RequestOf(p, bindings)) == Some(p.(accepted := false))
  {
    var request := RequestOf(p, bindings);
    forall i | 0 <= i < |p.modules|
      ensures Leads(disk, bindings[i], p.modules[i])
    {
      assert ModuleStands(disk, bindings, p.modules[i]);
      var j :| 0 <= j < |bindings| && bindings[j].role == p.modules[i].role && Leads(disk, bindings[j], p.modules[i]);
      assert RoleOf(bindings[i]) == RoleOf(bindings[j]);
      assert i == j;
    }
    GatheredIs(Recording(disk), bindings, |bindings|, p.modules);
    forall i | 0 <= i < |p.patterns|
      ensures Answering(disk, bindings)(request.patterns[i]) == Some(p.patterns[i])
    {
      var e := p.patterns[i];
      assert e in p.patterns && PatternFine(p.modules, e) && PatternStands(disk, bindings, e);
      HeldPatternCaptured(ImageOf(disk, bindings, |bindings|, e.host).value, e);
    }
    GatheredIs(Answering(disk, bindings), request.patterns, |p.patterns|, p.patterns);
    assert WellFormed(p.(accepted := false));
  }

  // ---- the validation loops ----

  /** The bindings as the checked map holds them. */
  ghost predicate Mapped(bindings: seq<Input>, paths: map<string, string>) {
    && Sorting.DistinctKeys(bindings, RoleOf)
    && (forall role :: role in paths <==> exists i :: 0 <= i < |bindings| && bindings[i].role == role)
    && (forall i :: 0 <= i < |bindings| ==> paths[bindings[i].role] == bindings[i].path)
  }

  method CheckBindings(bindings: seq<Input>) returns (valid: bool, paths: map<string, string>)
    ensures valid <==> (forall b :: b in bindings ==> BindingFine(b)) && Sorting.DistinctKeys(bindings, RoleOf)
    ensures valid ==> Mapped(bindings, paths)
  {
    valid, paths := true, map[];
    for k := 0 to |bindings|
      invariant valid <==> (forall j :: 0 <= j < k ==> BindingFine(bindings[j])) && Sorting.DistinctKeys(bindings[..k], RoleOf)
      invariant valid ==> forall role :: role in paths <==> exists j :: 0 <= j < k && bindings[j].role == role
      invariant valid ==> forall j :: 0 <= j < k ==> paths[bindings[j].role] == bindings[j].path
    {
      var b := bindings[k];
      assert bindings[..k + 1] == bindings[..k] + [b];
      if !BindingFine(b) || b.role in paths {
        valid := false;
      } else {
        paths := paths[b.role := b.path];
      }
    }
    assert bindings[..|bindings|] == bindings;
  }

  /** Each role of the profile with its module. */
  ghost predicate Indexed(modules: seq<Module>, index: map<string, Module>) {
    && (forall role :: role in index <==> HasRole(modules, role))
    && (forall role :: role in index ==> index[role] in modules && index[role].role == role)
  }

  /** The first module of each role. */
  method IndexByRole(modules: seq<Module>) returns (index: map<string, Module>)
    ensures Indexed(modules, index)
  {
    index := map[];
    for k := 0 to |modules|
      invariant forall role :: role in index <==> HasRole(modules[..k], role)
      invariant forall role :: role in index ==> index[role] in modules && index[role].role == role
    {
      assert modules[..k + 1] == modules[..k] + [modules[k]];
      if modules[k].role !in index {
        index := index[modules[k].role := modules[k]];
      }
    }
    assert modules[..|modules|] == modules;
  }

  /** One module against the file its binding names: the file name, then the fingerprint, then the image. */
  method ValidateModule(disk: Disk, path: string, m: Module) returns (image: Option<Image>)
    ensures image.Some? <==> Recorded(disk, Input(m.role, path)) == Some(m)
    ensures image.Some? ==> image.value == ReadInput(disk, Input(m.role, path)).value.image && Sound(image.value)
  {
    if disk.filename(path) != m.name {
      return None;
    }
    var bytes := Open(disk, path);
    if bytes.None? {
      return None;
    }
    var h := HashBytes(bytes.value);
    if |bytes.value| != m.size || h != m.hash {
      return None;
    }
    if bytes.value == [] {
      return None;
    }
    var ranges := ReadRanges(bytes.value);
    return if ranges.None? then None else Some(Image(bytes.value, ranges.value));
  }

  /** The role is bound to a file that gives the module. */
  predicate Bound(disk: Disk, paths: map<string, string>, index: map<string, Module>, role: string)
    requires role in index
  {
    role in paths && Recorded(disk, Input(index[role].role, paths[role])) == Some(index[role])
  }

  /** The image kept for a role: none unless the role is bound to a file that gives the module. */
  function Kept(disk: Disk, paths: map<string, string>, index: map<string, Module>, role: string): Option<Image> {
    if role in index && Bound(disk, paths, index, role) then Some(ReadInput(disk, Input(index[role].role, paths[role])).value.image)
    else None
  }

  method ValidateModules(disk: Disk, paths: map<string, string>, index: map<string, Module>)
        returns (valid: bool, images: map<string, Image>)
    ensures valid <==> forall role :: role in index ==> Bound(disk, paths, index, role)
    ensures AllSound(images) && forall role :: Lookup(images, role) == Kept(disk, paths, index, role)
  {
    valid, images := true, map[];
    var todo := index.Keys;
    while todo != {}
      invariant todo <= index.Keys
      invariant valid <==> forall role :: role in index && role !in todo ==> Bound(disk, paths, index, role)
      invariant AllSound(images) && forall role :: Lookup(images, role) == if role in todo then None else Kept(disk, paths, index, role)
      decreases |todo|
    {
      var role :| role in todo;
      todo := todo - {role};
      var image: Option<Image> := None;
      if role in paths {
        image := ValidateModule(disk, paths[role], index[role]);
      }
      if image.Some? {
        images := images[role := image.value];
      } else {
        valid := false;
      }
    }
  }

  method ValidatePatterns(images: map<string, Image>, patterns: seq<Expression>) returns (valid: bool)
    requires AllSound(images)
    ensures valid <==> forall e :: e in patterns ==> e.host in images && PatternHolds(images[e.host], e)
  {
    valid := true;
    for k := 0 to |patterns|
      invariant valid <==> forall j :: 0 <= j < k ==> patterns[j].host in images && PatternHolds(images[patterns[j].host], patterns[j])
    {
      var e := patterns[k];
      if e.host !in images {
        valid := false;
        continue;
      }
      var r, _ := ResolvePattern(images[e.host], e.text, e.occurrence);
      if r.None? || r.value.count != e.count || r.value.offset != e.offset {
        valid := false;
      }
    }
  }

  /** With one binding per role, a role's image is its binding's. */
  lemma BoundImage(disk: Disk, bindings: seq<Input>, i: nat, read: Read)
    requires i < |bindings| && Sorting.DistinctKeys(bindings, RoleOf) && ReadInput(disk, bindings[i]) == Some(read)
    ensures ImageOf(disk, bindings, |bindings|, bindings[i].role) == Some(read.image)
  {
    assert forall j :: 0 <= j < i ==> RoleOf(bindings[j]) != RoleOf(bindings[i]);
    NoImage(disk, bindings, i, bindings[i].role);
    ImageStays(disk, bindings, i + 1, |bindings|, bindings[i].role);
  }

  lemma {:induction false} ImageStays(disk: Disk, bindings: seq<Input>, k: nat, n: nat, role: string)
    requires k <= n <= |bindings| && ImageOf(disk, bindings, k, role).Some?
    ensures ImageOf(disk, bindings, n, role) == ImageOf(disk, bindings, k, role)
  {
    if k < n {
      ImageStays(disk, bindings, k, n - 1, role);
    }
  }

  lemma {:induction false} NoImage(disk: Disk, bindings: seq<Input>, k: nat, role: string)
    requires k <= |bindings| && forall j :: 0 <= j < k ==> bindings[j].role != role
    ensures ImageOf(disk, bindings, k, role).None?
  {
    if k > 0 {
      NoImage(disk, bindings, k - 1, role);
    }
  }

  lemma IndexedOnce(modules: seq<Module>, index: map<string, Module>, m: Module)
    requires Indexed(modules, index) && Sorting.DistinctKeys(modules, ModuleKey) && m in modules
    ensures m.role in index && index[m.role] == m
  {
    var i :| 0 <= i < |modules| && modules[i] == m;
    assert HasRole(modules, m.role);
    var j :| 0 <= j < |modules| && modules[j] == index[m.role];
    assert ModuleKey(modules[i]) == ModuleKey(modules[j]);
  }

  lemma BoundStands(disk: Disk, bindings: seq<Input>, paths: map<string, string>, index: map<string, Module>,
        role: string)
    requires Mapped(bindings, paths) && role in index && index[role].role == role
    ensures Bound(disk, paths, index, role) <==> ModuleStands(disk, bindings, index[role])
  {
    if ModuleStands(disk, bindings, index[role]) {
      var i :| 0 <= i < |bindings| && bindings[i].role == role && Leads(disk, bindings[i], index[role]);
      assert Input(role, paths[role]) == bindings[i];
    }
    if role in paths {
      var i :| 0 <= i < |bindings| && bindings[i].role == role;
      assert Input(role, paths[role]) == bindings[i];
    }
  }

  lemma ModulesAgree(disk: Disk, bindings: seq<Input>, paths: map<string, string>, modules: seq<Module>,
        index: map<string, Module>)
    requires Mapped(bindings, paths) && Indexed(modules, index) && Sorting.DistinctKeys(modules, ModuleKey)
    ensures (forall role :: role in index ==> Bound(disk, paths, index, role)) <==> forall m :: m in modules ==> ModuleStands(disk, bindings, m)
  {
    forall role | role in index
      ensures Bound(disk, paths, index, role) <==> ModuleStands(disk, bindings, index[role])
    {
      BoundStands(disk, bindings, paths, index, role);
    }
    forall m | m in modules
      ensures m.role in index && index[m.role] == m
    {
      IndexedOnce(modules, index, m);
    }
  }

  lemma ImageAgrees(disk: Disk, bindings: seq<Input>, paths: map<string, string>, m: Module)
    requires Mapped(bindings, paths) && m.role in paths && Recorded(disk, Input(m.role, paths[m.role])) == Some(m)
    ensures ImageOf(disk, bindings, |bindings|, m.role) == Some(ReadInput(disk, Input(m.role, paths[m.role])).value.image)
  {
    var i :| 0 <= i < |bindings| && bindings[i].role == m.role;
    assert Input(m.role, paths[m.role]) == bindings[i];
    BoundImage(disk, bindings, i, ReadInput(disk, bindings[i]).value);
  }

  method CheckExtra(paths: map<string, string>, index: map<string, Module>) returns (valid: bool)
    ensures valid <==> forall role :: role in paths ==> role in index
  {
    valid := true;
    var todo := paths.Keys;
    while todo != {}
      invariant todo <= paths.Keys && (valid <==> forall role :: role in paths && role !in todo ==> role in index)
      decreases |todo|
    {
      var role :| role in todo;
      todo := todo - {role};
      if role !in index {
        valid := false;
      }
    }
  }

  /** Whether validation reports no error; roles are taken in any order. */
  method Validate(disk: Disk, p: Profile, bindings: seq<Input>) returns (ok: bool)
    ensures ok <==> Consistent(disk, p, bindings)
  {
    var structure := ValidateStructure(p);
    var bound, paths := CheckBindings(bindings);
    var index := IndexByRole(p.modules);
    var known := CheckExtra(paths, index);
    var modules, images := ValidateModules(disk, paths, index);
    var patterns := ValidatePatterns(images, p.patterns);
    ok := structure && bound && known && modules && patterns;
    if structure && bound {
      ModulesAgree(disk, bindings, paths, p.modules, index);
      KnownAgree(bindings, paths, p.modules, index);
      if modules {
        PatternsAgree(disk, p, bindings, paths, index, images);
      }
    }
  }

  lemma KnownAgree(bindings: seq<Input>, paths: map<string, string>, modules: seq<Module>, index: map<string, Module>)
    requires Mapped(bindings, paths) && Indexed(modules, index)
    ensures (forall role :: role in paths ==> role in index) <==> forall b :: b in bindings ==> HasRole(modules, b.role)
  {
    forall b | b in bindings
      ensures b.role in paths
    {
      var i :| 0 <= i < |bindings| && bindings[i] == b;
    }
  }

  lemma PatternAgrees(disk: Disk, p: Profile, bindings: seq<Input>, paths: map<string, string>,
        index: map<string, Module>, e: Expression)
    requires Mapped(bindings, paths) && Indexed(p.modules, index) && HasRole(p.modules, e.host)
    requires e.host in index && Bound(disk, paths, index, e.host)
    ensures Kept(disk, paths, index, e.host) == ImageOf(disk, bindings, |bindings|, e.host)
  {
    ImageAgrees(disk, bindings, paths, index[e.host]);
  }

  lemma PatternsAgree(disk: Disk, p: Profile, bindings: seq<Input>, paths: map<string, string>,
        index: map<string, Module>, images: map<string, Image>)
    requires WellFormed(p) && Mapped(bindings, paths) && Indexed(p.modules, index)
    requires forall role :: role in index ==> Bound(disk, paths, index, role)
    requires forall role :: Lookup(images, role) == Kept(disk, paths, index, role)
    ensures forall e :: e in p.patterns ==> (e.host in images && PatternHolds(images[e.host], e) <==> PatternStands(disk, bindings, e))
  {
    forall e | e in p.patterns
      ensures e.host in images && PatternHolds(images[e.host], e) <==> PatternStands(disk, bindings, e)
    {
      assert PatternFine(p.modules, e);
      PatternAgrees(disk, p, bindings, paths, index, e);
      assert Lookup(images, e.host) == Kept(disk, paths, index, e.host);
    }
  }
}
