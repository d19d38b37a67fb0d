/**
  What the readers of executable ranges find in a file that is laid out as the standards say: exactly the
  executable segments, or sections, in the order of their table. The layouts are the "ELF Header" and the
  "Program Header" of the System V gABI, chapter 4, and the "Section Table" of the Microsoft PE/COFF
  specification.
 */
module ModuleFiles {
  import opened Options
  import PatternScan
  import opened ModuleImages

  // ---- fields ----

  /** A number without its lowest `n` bytes. */
  function Shift(v: nat, n: nat): nat {
    if n == 0 then v else Shift(v / 256, n - 1)
  }

  /** The field holds the number, lowest byte first. */
  predicate Field(bytes: Bytes, offset: nat, width: nat, v: nat) {
    && offset + width <= |bytes| && Shift(v, width) == 0
    && forall i :: 0 <= i < width ==> bytes[offset + i] as nat == Shift(v, i) % 256
  }

  lemma {:induction false} LittleIs(bytes: Bytes, offset: nat, width: nat, v: nat)
    requires Field(bytes, offset, width, v)
    ensures Little(bytes, offset, width) == v
    decreases width
  {
    if width > 0 {
      assert bytes[offset + 0] as nat == Shift(v, 0) % 256;
      forall i | 0 <= i < width - 1
        ensures bytes[offset + 1 + i] as nat == Shift(v / 256, i) % 256
      {
        assert bytes[offset + (i + 1)] as nat == Shift(v, i + 1) % 256;
      }
      LittleIs(bytes, offset + 1, width - 1, v / 256);
    }
  }

  lemma FieldReads(bytes: Bytes, offset: nat, width: nat, v: nat)
    requires Field(bytes, offset, width, v)
    ensures ReadLittleEndian(bytes, offset, width) == Some(v)
  {
    LittleIs(bytes, offset, width, v);
  }

  // ---- tables ----

  /** A table row: whether it is executable, and the range it gives. */
  datatype Row = Row(executable: bool, range: PatternScan.FileRange)

  function Executable(rows: seq<Row>): seq<PatternScan.FileRange> {
    if rows == [] then []
    else Executable(rows[..|rows| - 1]) + if rows[|rows| - 1].executable then [rows[|rows| - 1].range] else []
  }

  ghost predicate AllLegal(rows: seq<Row>, length: nat) {
    forall k :: 0 <= k < |rows| && rows[k].executable ==> InFileRange(rows[k].range, length)
  }

  predicate Gives(e: Entry, row: Row, length: nat) {
    e == if !row.executable then Skip else if InFileRange(row.range, length) then Take(row.range) else Refuse
  }

  /** The table's executable rows in their order; one illegal range spoils the whole table. */
  lemma {:induction false} CollectedIs(at: nat -> Entry, rows: seq<Row>, length: nat)
    requires forall k :: 0 <= k < |rows| ==> Gives(at(k), rows[k], length)
    ensures Collected(at, |rows|) == if AllLegal(rows, length) then Some(Executable(rows)) else None
  {
    if rows != [] {
      var front := rows[..|rows| - 1];
      forall k | 0 <= k < |front|
        ensures Gives(at(k), front[k], length)
      {
        assert Gives(at(k), rows[k], length);
      }
      CollectedIs(at, front, length);
      assert Gives(at(|rows| - 1), rows[|rows| - 1], length);
      assert AllLegal(rows, length) <==>
        AllLegal(front, length) && (rows[|front|].executable ==> InFileRange(rows[|front|].range, length));
      assert Executable(front) + [] == Executable(front);
    }
  }

  // ---- ELF ----

  /** A program header: loadable is 1, executable is the lowest flag. */
  datatype Segment = Segment(kind: nat, flags: nat, offset: nat, size: nat)

  predicate ElfHeader(bytes: Bytes, table: nat, width: nat, count: nat) {
    && |bytes| >= 64
    && bytes[0] == 0x7f && bytes[1] == 0x45 && bytes[2] == 0x4c && bytes[3] == 0x46
    && bytes[4] == 2 && bytes[5] == 1 && bytes[6] == 1
    && Field(bytes, 18, 2, 62) && Field(bytes, 32, 8, table) && Field(bytes, 54, 2, width) && Field(bytes, 56, 2, count)
  }

  predicate ElfSegment(bytes: Bytes, at: nat, s: Segment) {
    && Field(bytes, at, 4, s.kind) && Field(bytes, at + 4, 4, s.flags)
    && Field(bytes, at + 8, 8, s.offset) && Field(bytes, at + 32, 8, s.size)
  }

  function SegmentRow(s: Segment): Row {
    Row(s.kind == 1 && s.flags % 2 == 1, PatternScan.FileRange(s.offset, s.size))
  }

  function SegmentRows(segments: seq<Segment>): (rows: seq<Row>)
    ensures |rows| == |segments|
  {
    seq(|segments|, k requires 0 <= k < |segments| => SegmentRow(segments[k]))
  }

  lemma ElfHeaderReads(bytes: Bytes, table: nat, width: nat, count: nat)
    requires ElfHeader(bytes, table, width, count) && width >= 56 && count > 0 && table + width * count <= |bytes|
    ensures ElfTable(bytes) == Some((table, width, count))
  {
    assert bytes[0..7] == ELF_MARK;
    FieldReads(bytes, 18, 2, 62);
    FieldReads(bytes, 32, 8, table);
    FieldReads(bytes, 54, 2, width);
    FieldReads(bytes, 56, 2, count);
  }

  lemma ElfSegmentReads(bytes: Bytes, at: nat, s: Segment)
    requires ElfSegment(bytes, at, s)
    ensures Gives(ElfEntry(bytes, at), SegmentRow(s), |bytes|)
  {
    FieldReads(bytes, at, 4, s.kind);
    FieldReads(bytes, at + 4, 4, s.flags);
    FieldReads(bytes, at + 8, 8, s.offset);
    FieldReads(bytes, at + 32, 8, s.size);
  }

  /** An ELF64 file for x86-64 with these program headers. */
  lemma ElfFileRanges(bytes: Bytes, table: nat, width: nat, segments: seq<Segment>)
    requires ElfHeader(bytes, table, width, |segments|) && width >= 56 && segments != []
    requires table + width * |segments| <= |bytes|
    requires forall k :: 0 <= k < |segments| ==> ElfSegment(bytes, table + k * width, segments[k])
    requires AllLegal(SegmentRows(segments), |bytes|) && Executable(SegmentRows(segments)) != []
    ensures Ranges(bytes) == Some(Executable(SegmentRows(segments)))
  {
    SegmentsCollected(bytes, table, width, segments);
    ElfHeaderReads(bytes, table, width, |segments|);
  }

  lemma SegmentGives(bytes: Bytes, table: nat, width: nat, s: Segment, k: nat)
    requires ElfSegment(bytes, table + k * width, s)
    ensures Gives(ElfEntryAt(bytes, table, width)(k), SegmentRow(s), |bytes|)
  {
    ElfSegmentReads(bytes, table + k * width, s);
  }

  lemma SegmentsCollected(bytes: Bytes, table: nat, width: nat, segments: seq<Segment>)
    requires forall k :: 0 <= k < |segments| ==> ElfSegment(bytes, table + k * width, segments[k])
    requires AllLegal(SegmentRows(segments), |bytes|)
    ensures Collected(ElfEntryAt(bytes, table, width), |segments|) == Some(Executable(SegmentRows(segments)))
  {
    var rows := SegmentRows(segments);
    forall k | 0 <= k < |rows|
      ensures Gives(ElfEntryAt(bytes, table, width)(k), rows[k], |bytes|)
    {
      SegmentGives(bytes, table, width, segments[k], k);
    }
    CollectedIs(ElfEntryAt(bytes, table, width), rows, |bytes|);
  }

  // ---- PE ----

  /** A section header: executable is flag 0x20000000. */
  datatype Section = Section(size: nat, offset: nat, flags: nat)

  predicate PeFileHeader(bytes: Bytes, pe: nat, optional: nat, count: nat) {
    && |bytes| >= 64 && bytes[0] == 0x4d && bytes[1] == 0x5a
    && Field(bytes, 0x3c, 4, pe) && pe + 24 <= |bytes|
    && bytes[pe] == 0x50 && bytes[pe + 1] == 0x45 && bytes[pe + 2] == 0 && bytes[pe + 3] == 0
    && Field(bytes, pe + 4, 2, 0x8664) && Field(bytes, pe + 6, 2, count)
    && Field(bytes, pe + 20, 2, optional) && Field(bytes, pe + 24, 2, 0x20b)
  }

  predicate SectionHeader(bytes: Bytes, at: nat, s: Section) {
    Field(bytes, at + 16, 4, s.size) && Field(bytes, at + 20, 4, s.offset) && Field(bytes, at + 36, 4, s.flags)
  }

  function SectionRow(s: Section): Row {
    Row(s.flags / 0x2000_0000 % 2 == 1, PatternScan.FileRange(s.offset, s.size))
  }

  function SectionRows(sections: seq<Section>): (rows: seq<Row>)
    ensures |rows| == |sections|
  {
    seq(|sections|, k requires 0 <= k < |sections| => SectionRow(sections[k]))
  }

  lemma PeHeaderReads(bytes: Bytes, pe: nat, optional: nat, count: nat)
    requires PeFileHeader(bytes, pe, optional, count) && optional >= 2 && count > 0
    requires pe + 24 + optional + count * 40 <= |bytes|
    ensures ElfRanges(bytes).None? && PeTable(bytes) == Some((pe + 24 + optional, count))
  {
    assert !Starts(bytes, 0, ELF_MARK) by {
      assert ELF_MARK[0] == 0x7f && bytes[0..7][0] == 0x4d;
    }
    assert bytes[0..2] == [0x4d, 0x5a] && bytes[pe..pe + 4] == [0x50, 0x45, 0, 0];
    FieldReads(bytes, 0x3c, 4, pe);
    FieldReads(bytes, pe + 4, 2, 0x8664);
    FieldReads(bytes, pe + 6, 2, count);
    FieldReads(bytes, pe + 20, 2, optional);
    FieldReads(bytes, pe + 24, 2, 0x20b);
  }

  lemma SectionReads(bytes: Bytes, at: nat, s: Section)
    requires SectionHeader(bytes, at, s)
    ensures Gives(PeSection(bytes, at), SectionRow(s), |bytes|)
  {
    FieldReads(bytes, at + 16, 4, s.size);
    FieldReads(bytes, at + 20, 4, s.offset);
    FieldReads(bytes, at + 36, 4, s.flags);
  }

  /** A PE32+ file for x86-64 with these sections. */
  lemma PeFileRanges(bytes: Bytes, pe: nat, optional: nat, sections: seq<Section>)
    requires PeFileHeader(bytes, pe, optional, |sections|) && optional >= 2 && sections != []
    requires pe + 24 + optional + |sections| * 40 <= |bytes|
    requires forall k :: 0 <= k < |sections| ==> SectionHeader(bytes, pe + 24 + optional + k * 40, sections[k])
    requires AllLegal(SectionRows(sections), |bytes|) && Executable(SectionRows(sections)) != []
    ensures Ranges(bytes) == Some(Executable(SectionRows(sections)))
  {
    PeHeaderReads(bytes, pe, optional, |sections|);
    SectionsCollected(bytes, pe + 24 + optional, sections);
  }

  lemma SectionGives(bytes: Bytes, table: nat, s: Section, k: nat)
    requires SectionHeader(bytes, table + k * 40, s)
    ensures Gives(PeSectionAt(bytes, table)(k), SectionRow(s), |bytes|)
  {
    SectionReads(bytes, table + k * 40, s);
  }

  lemma SectionsCollected(bytes: Bytes, table: nat, sections: seq<Section>)
    requires forall k :: 0 <= k < |sections| ==> SectionHeader(bytes, table + k * 40, sections[k])
    requires AllLegal(SectionRows(sections), |bytes|)
    ensures Collected(PeSectionAt(bytes, table), |sections|) == Some(Executable(SectionRows(sections)))
  {
    var rows := SectionRows(sections);
    forall k | 0 <= k < |rows|
      ensures Gives(PeSectionAt(bytes, table)(k), rows[k], |bytes|)
    {
      SectionGives(bytes, table, sections[k], k);
    }
    CollectedIs(PeSectionAt(bytes, table), rows, |bytes|);
  }
}
