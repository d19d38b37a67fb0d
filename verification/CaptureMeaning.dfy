/**
  What a captured profile says of the files: sizes and fingerprints of the files asked for, and for each pattern
  how many places it has in its module and where the one asked for lies.
 */
module CaptureMeaning {
  import opened CaptureReview
  import opened ModuleImages
  import opened Numerals
  import opened Options
  import opened PatternText
  import opened Profiles
  import Scanner = PatternScan
  import Sorting

  /** The record has the file's name, size and fingerprint, and the file has executable ranges. */
  ghost predicate TellsFile(disk: Disk, i: Input, m: Module) {
    && i.path != "" && i.path in disk.files
    && var bytes := disk.files[i.path];
      && bytes != [] && Ranges(bytes).Some?
      && m == Module(i.role, disk.filename(i.path), |bytes|, Hash(bytes, |bytes|))
  }

  /** The record counts the places of the pattern in the file's executable ranges, and has the one asked for. */
  ghost predicate TellsPlaces(bytes: Bytes, w: Wanted, e: Expression) {
    Ranges(bytes).Some? && ParseTool(w.text).Some? && TellsPlacesIn(Image(bytes, Ranges(bytes).value), ParseTool(w.text).value, w, e)
  }

  ghost predicate TellsPlacesIn(image: Image, p: Pattern, w: Wanted, e: Expression) {
    && e.key == w.key && e.host == w.host && e.text == Print(p) && e.occurrence == w.occurrence
    && e.count == |Scanner.Lower(Places(image, p), |image.bytes|)| && e.count <= MAX32
    && Scanner.AnswerIs(Places(image, p), w.occurrence, Scanner.Found(e.offset))
  }

  /** It does so for the file of the module the pattern names. */
  ghost predicate TellsPattern(disk: Disk, inputs: seq<Input>, w: Wanted, e: Expression) {
    exists i :: 0 <= i < |inputs| && inputs[i].role == w.host && inputs[i].path in disk.files
                && TellsPlaces(disk.files[inputs[i].path], w, e)
  }

  ghost predicate Tells(disk: Disk, request: Request, p: Profile) {
    && !p.accepted && p.game == request.game && p.version == request.version && p.platform == request.platform
    && p.interfaces == request.interfaces && p.slots == request.slots
    && TellsFiles(disk, request.modules, p.modules)
    && |p.patterns| == |request.patterns|
    && forall k :: 0 <= k < |p.patterns| ==> TellsPattern(disk, request.modules, request.patterns[k], p.patterns[k])
  }

  ghost predicate TellsFiles(disk: Disk, inputs: seq<Input>, modules: seq<Module>) {
    |modules| == |inputs| && forall i :: 0 <= i < |modules| ==> TellsFile(disk, inputs[i], modules[i])
  }

  lemma FileTold(disk: Disk, i: Input, m: Module)
    ensures Recorded(disk, i) == Some(m) <==> TellsFile(disk, i, m)
    ensures ReadInput(disk, i).Some? ==>
      i.path in disk.files && Ranges(disk.files[i.path]).Some?
      && ReadInput(disk, i).value.image == Image(disk.files[i.path], Ranges(disk.files[i.path]).value)
  {
  }

  lemma FilesTold(disk: Disk, inputs: seq<Input>, modules: seq<Module>)
    ensures CapturedModules(disk, inputs, |inputs|) == Some(modules) <==> TellsFiles(disk, inputs, modules)
  {
    GatheredIs(Recording(disk), inputs, |inputs|, modules);
    if |modules| == |inputs| {
      forall i | 0 <= i < |inputs|
        ensures Recording(disk)(inputs[i]) == Some(modules[i]) <==> TellsFile(disk, inputs[i], modules[i])
      {
        FileTold(disk, inputs[i], modules[i]);
      }
    }
  }

  lemma PlacesTold(image: Image, w: Wanted, e: Expression)
    requires Sound(image)
    ensures CapturedPattern(Some(image), w) == Some(e) <==>
            ParseTool(w.text).Some? && TellsPlacesIn(image, ParseTool(w.text).value, w, e)
  {
    ResolveMeans(image, w.text, w.occurrence);
    if ParseTool(w.text).Some? {
      var r := Resolve(image, w.text, w.occurrence);
      assert r.Some? && r.value.offset == e.offset <==>
        Scanner.AnswerIs(Places(image, ParseTool(w.text).value), w.occurrence, Scanner.Found(e.offset));
    }
  }

  /** The image found for a role is that of an input with the role. */
  lemma {:induction false} ImageFrom(disk: Disk, inputs: seq<Input>, k: nat, role: string) returns (i: nat)
    requires k <= |inputs| && ImageOf(disk, inputs, k, role).Some?
    ensures i < k && inputs[i].role == role && ReadInput(disk, inputs[i]).Some?
    ensures ImageOf(disk, inputs, k, role).value == ReadInput(disk, inputs[i]).value.image
  {
    i := k - 1;
    if ImageOf(disk, inputs, k - 1, role).Some? {
      i := ImageFrom(disk, inputs, k - 1, role);
    }
  }

  lemma {:induction false} ImageIs(disk: Disk, inputs: seq<Input>, k: nat, i: nat)
    requires i < k <= |inputs| && Sorting.DistinctKeys(inputs, RoleOf) && ReadInput(disk, inputs[i]).Some?
    ensures ImageOf(disk, inputs, k, inputs[i].role) == Some(ReadInput(disk, inputs[i]).value.image)
  {
    if ImageOf(disk, inputs, k, inputs[i].role).Some? {
      var j := ImageFrom(disk, inputs, k, inputs[i].role);
      assert RoleOf(inputs[j]) == RoleOf(inputs[i]);
    } else if i < k - 1 {
      ImageIs(disk, inputs, k - 1, i);
    }
  }

  lemma PatternTold(disk: Disk, inputs: seq<Input>, modules: seq<Module>, w: Wanted, e: Expression)
    requires TellsFiles(disk, inputs, modules) && Sorting.DistinctKeys(inputs, RoleOf)
    ensures Answer(disk, inputs, w) == Some(e) <==> TellsPattern(disk, inputs, w, e)
  {
    if Answer(disk, inputs, w) == Some(e) {
      var i := ImageFrom(disk, inputs, |inputs|, w.host);
      InputTold(disk, inputs[i], w, e);
      assert TellsPlaces(disk.files[inputs[i].path], w, e);
    }
    if TellsPattern(disk, inputs, w, e) {
      var i :| 0 <= i < |inputs| && inputs[i].role == w.host && inputs[i].path in disk.files
               && TellsPlaces(disk.files[inputs[i].path], w, e);
      assert TellsFile(disk, inputs[i], modules[i]);
      FileTold(disk, inputs[i], modules[i]);
      ImageIs(disk, inputs, |inputs|, i);
      InputTold(disk, inputs[i], w, e);
    }
  }

  lemma InputTold(disk: Disk, i: Input, w: Wanted, e: Expression)
    requires ReadInput(disk, i).Some?
    ensures i.path in disk.files
    ensures CapturedPattern(Some(ReadInput(disk, i).value.image), w) == Some(e) <==> TellsPlaces(disk.files[i.path], w, e)
  {
    ReadSound(disk, i);
    PlacesTold(ReadInput(disk, i).value.image, w, e);
  }

  lemma RolesDistinct(disk: Disk, inputs: seq<Input>, modules: seq<Module>)
    requires TellsFiles(disk, inputs, modules) && Sorting.DistinctKeys(modules, ModuleKey)
    ensures Sorting.DistinctKeys(inputs, RoleOf)
  {
    forall i, j | 0 <= i < j < |inputs|
      ensures RoleOf(inputs[i]) != RoleOf(inputs[j])
    {
      assert TellsFile(disk, inputs[i], modules[i]) && TellsFile(disk, inputs[j], modules[j]);
      assert ModuleKey(modules[i]) != ModuleKey(modules[j]);
    }
  }

  lemma PatternsTold(disk: Disk, inputs: seq<Input>, modules: seq<Module>, ws: seq<Wanted>, es: seq<Expression>)
    requires TellsFiles(disk, inputs, modules) && Sorting.DistinctKeys(inputs, RoleOf)
    ensures CapturedPatterns(disk, inputs, ws, |ws|) == Some(es) <==>
            |es| == |ws| && forall k :: 0 <= k < |es| ==> TellsPattern(disk, inputs, ws[k], es[k])
  {
    GatheredIs(Answering(disk, inputs), ws, |ws|, es);
    if |es| == |ws| {
      forall k | 0 <= k < |ws|
        ensures Answering(disk, inputs)(ws[k]) == Some(es[k]) <==> TellsPattern(disk, inputs, ws[k], es[k])
      {
        PatternTold(disk, inputs, modules, ws[k], es[k]);
      }
    }
  }

  /** Capture gives a profile exactly when it is well formed and tells what was asked of the files, and no other. */
  lemma CapturedIff(disk: Disk, request: Request, p: Profile)
    ensures Captured(disk, request) == Some(p) <==> WellFormed(p) && Tells(disk, request, p)
  {
    FilesTold(disk, request.modules, p.modules);
    if TellsFiles(disk, request.modules, p.modules) && WellFormed(p) {
      RolesDistinct(disk, request.modules, p.modules);
      PatternsTold(disk, request.modules, p.modules, request.patterns, p.patterns);
    }
    CapturedIs(disk, request, p);
  }

  lemma CapturedIs(disk: Disk, request: Request, p: Profile)
    ensures Captured(disk, request) == Some(p) <==>
      && WellFormed(p) && !p.accepted && p.game == request.game && p.version == request.version && p.platform == request.platform
      && p.interfaces == request.interfaces && p.slots == request.slots
      && CapturedModules(disk, request.modules, |request.modules|) == Some(p.modules)
      && CapturedPatterns(disk, request.modules, request.patterns, |request.patterns|) == Some(p.patterns)
  {
  }
}
