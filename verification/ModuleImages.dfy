/**
  Which bytes of a module file are executable: the loadable segments of an ELF64 file ("ELF Header" and
  "Program Header", System V gABI chapter 4) or the sections of a PE file ("Section Table", Microsoft
  PE/COFF specification). Only the bounds matter here.
 */
module ModuleImages {
  import opened Options
  import opened PatternText
  import opened PatternScan

  type Bytes = seq<Byte>

  /** A little-endian number of `width` bytes. */
  function Little(bytes: Bytes, offset: nat, width: nat): nat
    requires offset + width <= |bytes|
    decreases width
  {
    if width == 0 then 0 else bytes[offset] as nat + 256 * Little(bytes, offset + 1, width - 1)
  }

  function ReadLittleEndian(bytes: Bytes, offset: nat, width: nat): Option<nat> {
    if offset > |bytes| || |bytes| - offset < width then None else Some(Little(bytes, offset, width))
  }

  predicate Starts(bytes: Bytes, offset: nat, mark: Bytes) {
    offset + |mark| <= |bytes| && bytes[offset..offset + |mark|] == mark
  }

  predicate InFileRange(r: FileRange, length: nat) {
    r.size != 0 && r.offset <= length && r.size <= length - r.offset
  }

  /** What a table entry gives: nothing, a range, or, unreadable or with an illegal range, the end of it all. */
  datatype Entry = Skip | Take(range: FileRange) | Refuse

  /** The ranges of the first `count` entries. */
  function Collected(at: nat -> Entry, count: nat): Option<seq<FileRange>> {
    if count == 0 then Some([])
    else
      var before := Collected(at, count - 1);
      if before.None? || at(count - 1).Refuse? then None
      else if at(count - 1).Skip? then before
      else Some(before.value + [at(count - 1).range])
  }

  function NonEmpty(ranges: Option<seq<FileRange>>): Option<seq<FileRange>> {
    if ranges.Some? && ranges.value == [] then None else ranges
  }

  // ---- ELF ----

  function ElfEntry(bytes: Bytes, entry: nat): Entry {
    var kind, flags := ReadLittleEndian(bytes, entry, 4), ReadLittleEndian(bytes, entry + 4, 4);
    var offset, size := ReadLittleEndian(bytes, entry + 8, 8), ReadLittleEndian(bytes, entry + 32, 8);
    if kind.None? || flags.None? || offset.None? || size.None? then Refuse
    else if kind.value != 1 || flags.value % 2 == 0 then Skip
    else if InFileRange(FileRange(offset.value, size.value), |bytes|) then Take(FileRange(offset.value, size.value))
    else Refuse
  }

  function ElfEntryAt(bytes: Bytes, table: nat, width: nat): nat -> Entry {
    (k: nat) => ElfEntry(bytes, table + k * width)
  }

  const ELF_MARK: Bytes := [0x7f, 0x45, 0x4c, 0x46, 2, 1, 1]

  /** The program header table: its place, entry size and entry count. */
  function ElfTable(bytes: Bytes): Option<(nat, nat, nat)> {
    if |bytes| < 64 || !Starts(bytes, 0, ELF_MARK) then None
    else
      var machine, table := ReadLittleEndian(bytes, 18, 2), ReadLittleEndian(bytes, 32, 8);
      var width, count := ReadLittleEndian(bytes, 54, 2), ReadLittleEndian(bytes, 56, 2);
      if machine != Some(62) || table.None? || width.None? || count.None? || width.value < 56 || count.value == 0 then None
      else if table.value > |bytes| || width.value * count.value > |bytes| - table.value then None
      else Some((table.value, width.value, count.value))
  }

  function ElfRanges(bytes: Bytes): Option<seq<FileRange>> {
    var table := ElfTable(bytes);
    if table.None? then None else NonEmpty(Collected(ElfEntryAt(bytes, table.value.0, table.value.1), table.value.2))
  }

  // ---- PE ----

  function PeSection(bytes: Bytes, section: nat): Entry {
    var size, offset := ReadLittleEndian(bytes, section + 16, 4), ReadLittleEndian(bytes, section + 20, 4);
    var flags := ReadLittleEndian(bytes, section + 36, 4);
    if size.None? || offset.None? || flags.None? then Refuse
    else if flags.value / 0x2000_0000 % 2 == 0 then Skip
    else if InFileRange(FileRange(offset.value, size.value), |bytes|) then Take(FileRange(offset.value, size.value))
    else Refuse
  }

  function PeSectionAt(bytes: Bytes, table: nat): nat -> Entry {
    (k: nat) => PeSection(bytes, table + k * 40)
  }

  /** The section table: its place and its count. */
  function PeTable(bytes: Bytes): Option<(nat, nat)> {
    if |bytes| < 64 || !Starts(bytes, 0, [0x4d, 0x5a]) then None
    else
      var pe := ReadLittleEndian(bytes, 0x3c, 4);
      if pe.None? || pe.value > |bytes| || |bytes| - pe.value < 24 || !Starts(bytes, pe.value, [0x50, 0x45, 0, 0]) then None
      else PeHeader(bytes, pe.value)
  }

  function PeHeader(bytes: Bytes, pe: nat): Option<(nat, nat)> {
    var machine, count := ReadLittleEndian(bytes, pe + 4, 2), ReadLittleEndian(bytes, pe + 6, 2);
    var optional, magic := ReadLittleEndian(bytes, pe + 20, 2), ReadLittleEndian(bytes, pe + 24, 2);
    if machine != Some(0x8664) || count.None? || optional.None? || optional.value < 2 || magic != Some(0x20b) || count.value == 0 then None
    else
      var table := pe + 24 + optional.value;
      if table > |bytes| || count.value * 40 > |bytes| - table then None else Some((table, count.value))
  }

  function PeRanges(bytes: Bytes): Option<seq<FileRange>> {
    var table := PeTable(bytes);
    if table.None? then None else NonEmpty(Collected(PeSectionAt(bytes, table.value.0), table.value.1))
  }

  /** The executable ranges of a module file, if it is one. */
  function Ranges(bytes: Bytes): Option<seq<FileRange>> {
    var elf := ElfRanges(bytes);
    if elf.Some? then elf else PeRanges(bytes)
  }

  // ---- the ranges stay inside the file ----

  ghost predicate AllInFile(ranges: seq<FileRange>, length: nat) {
    forall r :: r in ranges ==> InFileRange(r, length)
  }

  lemma {:induction false} CollectedInFile(at: nat -> Entry, count: nat, length: nat)
    requires forall k :: at(k).Take? ==> InFileRange(at(k).range, length)
    ensures Collected(at, count).Some? ==> AllInFile(Collected(at, count).value, length)
  {
    if count > 0 {
      CollectedInFile(at, count - 1, length);
    }
  }

  lemma ElfInFile(bytes: Bytes)
    ensures ElfRanges(bytes).Some? ==> ElfRanges(bytes).value != [] && AllInFile(ElfRanges(bytes).value, |bytes|)
  {
    var table := ElfTable(bytes);
    if table.Some? {
      CollectedInFile(ElfEntryAt(bytes, table.value.0, table.value.1), table.value.2, |bytes|);
    }
  }

  lemma PeInFile(bytes: Bytes)
    ensures PeRanges(bytes).Some? ==> PeRanges(bytes).value != [] && AllInFile(PeRanges(bytes).value, |bytes|)
  {
    var table := PeTable(bytes);
    if table.Some? {
      CollectedInFile(PeSectionAt(bytes, table.value.0), table.value.1, |bytes|);
    }
  }

  /** Whatever the file says, its executable ranges are not empty and lie within it. */
  lemma RangesInFile(bytes: Bytes)
    ensures Ranges(bytes).Some? ==> Ranges(bytes).value != [] && AllInFile(Ranges(bytes).value, |bytes|)
  {
    ElfInFile(bytes);
    PeInFile(bytes);
  }

  // ---- the loops ----

  lemma {:induction false} Refused(at: nat -> Entry, k: nat, count: nat)
    requires k < count && at(k).Refuse?
    ensures Collected(at, count).None?
  {
    if k + 1 < count {
      Refused(at, k, count - 1);
    }
  }

  /** The loop over the program headers, and the one over the sections. */
  method Collect(at: nat -> Entry, count: nat) returns (ranges: Option<seq<FileRange>>)
    ensures ranges == NonEmpty(Collected(at, count))
  {
    var found: seq<FileRange> := [];
    for k := 0 to count
      invariant Collected(at, k) == Some(found)
    {
      match at(k) {
        case Skip =>
        case Take(range) => found := found + [range];
        case Refuse =>
          Refused(at, k, count);
          return None;
      }
    }
    return if found == [] then None else Some(found);
  }

  method ReadRanges(bytes: Bytes) returns (ranges: Option<seq<FileRange>>)
    ensures ranges == Ranges(bytes)
    ensures ranges.Some? ==> AllInFile(ranges.value, |bytes|)
  {
    RangesInFile(bytes);
    var elf := ElfTable(bytes);
    if elf.Some? {
      ranges := Collect(ElfEntryAt(bytes, elf.value.0, elf.value.1), elf.value.2);
      if ranges.Some? {
        return;
      }
    }
    var pe := PeTable(bytes);
    if pe.None? {
      return None;
    }
    ranges := Collect(PeSectionAt(bytes, pe.value.0), pe.value.1);
  }
}
