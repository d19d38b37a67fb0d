/**
  Text files of records: a header line, then one record per line with its fields between tabs. Empty
  lines and lines that begin with '#' are skipped.
 */
module RecordText {
  import opened Options

  type Record = seq<string>

  const MAX_TEXT: nat := 16384

  /** A byte is a character below 256. */
  predicate PlainText(s: string) {
    |s| <= MAX_TEXT && forall i :: 0 <= i < |s| ==> s[i] as int >= 32 && s[i] as int != 127
  }

  predicate TokenChar(c: char) {
    '0' <= c <= '9' || 'a' <= c <= 'z' || 'A' <= c <= 'Z' || c in {'_', '-', '.', ':'}
  }

  predicate ValidToken(s: string) {
    0 < |s| <= 256 && forall i :: 0 <= i < |s| ==> TokenChar(s[i])
  }

  // ---- splitting ----

  /** The first place of `c`, or the length. */
  function Find(s: string, c: char): (n: nat)
    ensures n <= |s| && (n < |s| ==> s[n] == c) && forall i :: 0 <= i < n ==> s[i] != c
  {
    if s == [] || s[0] == c then 0 else 1 + Find(s[1..], c)
  }

  function Split(line: string): seq<string>
    decreases |line|
  {
    var n := Find(line, '\t');
    if n == |line| then [line] else [line[..n]] + Split(line[n + 1..])
  }

  function Join(fields: Record): string {
    if fields == [] then "" else if |fields| == 1 then fields[0] else fields[0] + ("\t" + Join(fields[1..]))
  }

  function Lines(text: string): seq<string>
    decreases |text|
  {
    if text == [] then []
    else
      var n := Find(text, '\n');
      if n == |text| then [text] else [text[..n]] + Lines(text[n + 1..])
  }

  function Unlines(lines: seq<string>): string {
    if lines == [] then "" else lines[0] + ("\n" + Unlines(lines[1..]))
  }

  lemma FindIs(s: string, t: string, c: char)
    requires forall i :: 0 <= i < |s| ==> s[i] != c
    ensures Find(s, c) == |s| && Find(s + ([c] + t), c) == |s| && (s + ([c] + t))[|s| + 1..] == t
  {
    var whole := s + ([c] + t);
    assert whole[|s|] == c;
    assert forall i :: 0 <= i < |s| ==> whole[i] == s[i];
  }

  lemma SplitStep(line: string, n: nat)
    requires n == Find(line, '\t')
    ensures Split(line) == [line[..n]] + (if n == |line| then [] else Split(line[n + 1..]))
  {
    assert line[..|line|] == line;
  }

  lemma SplitFirst(field: string, rest: string)
    requires forall i :: 0 <= i < |field| ==> field[i] != '\t'
    ensures Split(field + ("\t" + rest)) == [field] + Split(rest)
  {
    var line := field + ("\t" + rest);
    FindIs(field, rest, '\t');
    assert line[..|field|] == field;
    SplitStep(line, |field|);
  }

  lemma {:induction false} SplitJoin(fields: Record)
    requires fields != [] && forall k, i :: 0 <= k < |fields| && 0 <= i < |fields[k]| ==> fields[k][i] != '\t'
    ensures Split(Join(fields)) == fields
  {
    if |fields| == 1 {
      FindIs(fields[0], "", '\t');
    } else {
      var rest := Join(fields[1..]);
      SplitJoin(fields[1..]);
      assert Join(fields) == fields[0] + ("\t" + rest);
      SplitFirst(fields[0], rest);
    }
  }

  lemma {:induction false} LinesUnlines(lines: seq<string>)
    requires forall k, i :: 0 <= k < |lines| && 0 <= i < |lines[k]| ==> lines[k][i] != '\n'
    ensures Lines(Unlines(lines)) == lines
  {
    if lines != [] {
      FindIs(lines[0], Unlines(lines[1..]), '\n');
      LinesUnlines(lines[1..]);
    }
  }

  // ---- reading records ----

  function Trimmed(line: string): string {
    if line != [] && line[|line| - 1] == '\r' then line[..|line| - 1] else line
  }

  predicate Skipped(line: string) {
    line == [] || line[0] == '#'
  }

  predicate FieldsFine(fields: Record) {
    forall k :: 0 <= k < |fields| ==> PlainText(fields[k])
  }

  /** `seen`: the header was read. */
  function ReadLines(lines: seq<string>, header: string, seen: bool, records: seq<Record>): Option<seq<Record>> {
    if lines == [] then if seen then Some(records) else None
    else
      var line := Trimmed(lines[0]);
      if Skipped(line) then ReadLines(lines[1..], header, seen, records)
      else if !seen then if line == header then ReadLines(lines[1..], header, true, records) else None
      else if !FieldsFine(Split(line)) then None
      else ReadLines(lines[1..], header, seen, records + [Split(line)])
  }

  function Read(text: string, header: string): Option<seq<Record>> {
    ReadLines(Lines(text), header, false, [])
  }

  /** A record that can be written: its fields are plain text, and its line is no comment. */
  predicate Clean(r: Record) {
    r != [] && FieldsFine(r) && r[0] != [] && r[0][0] != '#'
  }

  function Written(records: seq<Record>): seq<string> {
    if records == [] then [] else [Join(records[0])] + Written(records[1..])
  }

  function Write(header: string, records: seq<Record>): string {
    Unlines([header] + Written(records))
  }

  predicate Headline(header: string) {
    header != [] && header[0] != '#' && header[|header| - 1] != '\r' && forall i :: 0 <= i < |header| ==> header[i] != '\n'
  }

  lemma {:induction false} JoinPlain(r: Record)
    requires FieldsFine(r)
    ensures forall i :: 0 <= i < |Join(r)| ==> Join(r)[i] == '\t' || (Join(r)[i] as int >= 32 && Join(r)[i] as int != 127)
  {
    if |r| > 1 {
      JoinPlain(r[1..]);
    }
  }

  lemma CleanLine(r: Record)
    requires Clean(r)
    ensures var line := Join(r);
      && Trimmed(line) == line && !Skipped(line) && Split(line) == r
      && forall i :: 0 <= i < |line| ==> line[i] != '\n'
  {
    JoinPlain(r);
    SplitJoin(r);
    assert Join(r)[0] == r[0][0];
  }

  lemma {:induction false} WrittenReads(header: string, records: seq<Record>, done: seq<Record>)
    requires forall k :: 0 <= k < |records| ==> Clean(records[k])
    ensures ReadLines(Written(records), header, true, done) == Some(done + records)
  {
    if records == [] {
      assert done + records == done;
    } else {
      CleanLine(records[0]);
      WrittenReads(header, records[1..], done + [records[0]]);
      assert Written(records)[1..] == Written(records[1..]);
      assert done + [records[0]] + records[1..] == done + records;
    }
  }

  lemma {:induction false} WrittenLines(records: seq<Record>)
    requires forall k :: 0 <= k < |records| ==> Clean(records[k])
    ensures forall k, i :: 0 <= k < |Written(records)| && 0 <= i < |Written(records)[k]| ==> Written(records)[k][i] != '\n'
  {
    if records != [] {
      CleanLine(records[0]);
      WrittenLines(records[1..]);
    }
  }

  /** Records that can be written are read back unchanged. */
  lemma WriteReads(header: string, records: seq<Record>)
    requires Headline(header) && forall k :: 0 <= k < |records| ==> Clean(records[k])
    ensures Read(Write(header, records), header) == Some(records)
  {
    WrittenLines(records);
    var lines := [header] + Written(records);
    LinesUnlines(lines);
    assert lines[1..] == Written(records);
    WrittenReads(header, records, []);
    assert [] + records == records;
  }

  // ---- the loops ----

  lemma LinesStep(rest: string, n: nat)
    requires n == Find(rest, '\n') && rest != []
    ensures Lines(rest) == [rest[..n]] + (if n == |rest| then [] else Lines(rest[n + 1..]))
  {
    assert rest[..|rest|] == rest;
  }

  lemma Regroup(fields: seq<string>, field: string, later: seq<string>)
    ensures fields + ([field] + later) == (fields + [field]) + later
    ensures later == [] ==> fields + ([field] + later) == fields + [field]
  {
  }

  method SplitLine(line: string) returns (fields: Record)
    ensures fields == Split(line)
  {
    fields := [];
    var rest := line;
    ghost var all := Split(line);
    while true
      invariant fields + Split(rest) == all
      decreases |rest|
    {
      var end := Find(rest, '\t');
      SplitStep(rest, end);
      ghost var later := if end == |rest| then [] else Split(rest[end + 1..]);
      Regroup(fields, rest[..end], later);
      fields := fields + [rest[..end]];
      if end == |rest| {
        return;
      }
      rest := rest[end + 1..];
    }
  }

  /** What one line does to the records read so far. */
  function ReadLine(line: string, header: string, seen: bool, records: seq<Record>): Option<(bool, seq<Record>)> {
    if Skipped(line) then Some((seen, records))
    else if !seen then if line == header then Some((true, records)) else None
    else if FieldsFine(Split(line)) then Some((seen, records + [Split(line)]))
    else None
  }

  lemma ReadStep(line: string, rest: seq<string>, header: string, seen: bool, records: seq<Record>, fine: bool,
        after: bool, more: seq<Record>)
    requires ReadLine(Trimmed(line), header, seen, records) == if fine then Some((after, more)) else None
    ensures ReadLines([line] + rest, header, seen, records) == if fine then ReadLines(rest, header, after, more) else None
  {
    assert ([line] + rest)[1..] == rest;
  }

  lemma DroppedTwice(s: string, i: nat, j: nat)
    requires i + j <= |s|
    ensures s[i..][j..] == s[i + j..]
  {
  }

  /** The lines from `position` on, where the next line end is `end` characters away. */
  lemma LinesOn(text: string, position: nat, end: nat, next: nat)
    requires position < |text| && end == Find(text[position..], '\n')
    requires next == if position + end == |text| then |text| else position + end + 1
    ensures Lines(text[position..]) == [text[position..][..end]] + Lines(text[next..])
  {
    LinesStep(text[position..], end);
    if position + end == |text| {
      assert text[next..] == "";
    } else {
      DroppedTwice(text, position, end + 1);
    }
  }

  method TakeLine(line: string, header: string, seen: bool, records: seq<Record>)
        returns (fine: bool, after: bool, more: seq<Record>)
    ensures ReadLine(line, header, seen, records) == if fine then Some((after, more)) else None
  {
    if Skipped(line) {
      return true, seen, records;
    }
    if !seen {
      return line == header, true, records;
    }
    var fields := SplitLine(line);
    return FieldsFine(fields), seen, records + [fields];
  }

  method ReadRecords(text: string, header: string) returns (result: Option<seq<Record>>)
    ensures result == Read(text, header)
  {
    var seen := false;
    var records: seq<Record> := [];
    var position := 0;
    assert text[0..] == text;
    while position < |text|
      invariant 0 <= position <= |text| && ReadLines(Lines(text[position..]), header, seen, records) == Read(text, header)
    {
      var rest := text[position..];
      var end := Find(rest, '\n');
      var next := if end == |rest| then |text| else position + end + 1;
      var fine, after, more := TakeLine(Trimmed(rest[..end]), header, seen, records);
      LinesOn(text, position, end, next);
      ReadStep(rest[..end], Lines(text[next..]), header, seen, records, fine, after, more);
      if !fine {
        return None;
      }
      position, seen, records := next, after, more;
    }
    return if seen then Some(records) else None;
  }
}
